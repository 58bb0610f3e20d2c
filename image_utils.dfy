/**
 * Building image URLs for the image host: recovering the public id from an
 * upload URL, and assembling a transformation URL for a public id.
 */
module ImageUtils {
  import opened Wrappers
  import opened Text

  const PLACEHOLDER := "https://via.placeholder.com/" + "300x400?text=Product+Image"
  const UPLOAD_BASE := "https://res.cloudinary.com/dcltwklbl/image/upload/"

  /**
   * The path of a hierarchical URL `scheme://authority/path?query#fragment`:
   * from the first `/` after the authority up to the first `?` or `#`, and `/`
   * when the URL has no path. `None` when there is no `://`, where the URL
   * constructor would throw.
   */
  function Pathname(url: string): (r: Option<string>)
    ensures r.Some? ==> |r.value| > 0 && r.value[0] == '/'
  {
    var start := SchemeEnd(url, 0);
    if start.None? then None
    else
      var rest := url[start.value..];
      var afterAuthority := AuthorityEnd(rest);
      var path := rest[afterAuthority..];
      var stop := PathEnd(path);
      if stop == 0 || path[0] != '/' then Some("/") else Some(path[..stop])
  }

  /** The position after the first `://` at or after `from`. */
  function SchemeEnd(url: string, from: nat): (r: Option<nat>)
    ensures r.Some? ==> 3 <= r.value <= |url| && url[r.value - 3..r.value] == "://"
    decreases |url| - from
  {
    if from + 3 > |url| then None
    else if url[from..from + 3] == "://" then Some(from + 3)
    else SchemeEnd(url, from + 1)
  }

  /** Length of the authority: up to the first `/`, `?` or `#`. */
  function AuthorityEnd(s: string): (r: nat)
    ensures r <= |s|
    ensures r < |s| ==> s[r] == '/' || s[r] == '?' || s[r] == '#'
  {
    if s == [] || s[0] == '/' || s[0] == '?' || s[0] == '#' then 0 else 1 + AuthorityEnd(s[1..])
  }

  /** Length of the path: up to the first `?` or `#`. */
  function PathEnd(s: string): (r: nat)
    ensures r <= |s|
  {
    if s == [] || s[0] == '?' || s[0] == '#' then 0 else 1 + PathEnd(s[1..])
  }

  /** `parts.findIndex(part => part === target)`. */
  function FindIndex(parts: seq<string>, target: string): (r: Option<nat>)
    ensures r.None? <==> target !in parts
    ensures r.Some? ==> r.value < |parts| && parts[r.value] == target && target !in parts[..r.value]
  {
    if parts == [] then None
    else if parts[0] == target then Some(0)
    else
      var r := FindIndex(parts[1..], target);
      if r.None? then None
      else
        assert parts[..r.value + 1] == [parts[0]] + parts[1..][..r.value];
        Some(r.value + 1)
  }

  /** Whether the regular expression `\.[^/.]+$` matches at position `i`. */
  ghost predicate ExtensionAt(s: string, i: int) {
    0 <= i < |s| - 1 && s[i] == '.' && forall j :: i < j < |s| ==> s[j] != '/' && s[j] != '.'
  }

  /** The position of the last `.` in `s`, if any. */
  function LastDot(s: string): (r: Option<nat>)
    ensures r.None? <==> '.' !in s
    ensures r.Some? ==> r.value < |s| && s[r.value] == '.' && '.' !in s[r.value + 1..]
  {
    if s == [] then None
    else if s[|s| - 1] == '.' then Some(|s| - 1)
    else
      var init := s[..|s| - 1];
      assert s == init + [s[|s| - 1]];
      var r := LastDot(init);
      assert r.Some? ==> s[r.value + 1..] == init[r.value + 1..] + [s[|s| - 1]];
      r
  }

  /**
   * `s.replace(/\.[^/.]+$/, '')`: drop one final `.ext` whose `ext` is
   * non-empty and holds neither `/` nor `.`; otherwise leave `s` alone.
   */
  function StripExtension(s: string): (r: string)
    ensures |r| <= |s| && r == s[..|r|]
    ensures r == s <==> forall i :: 0 <= i < |s| ==> !ExtensionAt(s, i)
    ensures r != s ==> ExtensionAt(s, |r|)
  {
    var dot := LastDot(s);
    if dot.Some? && dot.value < |s| - 1 && '/' !in s[dot.value + 1..] then
      var i := dot.value;
      assert forall j :: i < j < |s| ==> s[j] in s[i + 1..];
      assert ExtensionAt(s, i);
      s[..i]
    else
      assert forall k :: 0 <= k < |s| ==> !ExtensionAt(s, k) by {
        forall k | 0 <= k < |s| && ExtensionAt(s, k) ensures LastDot(s) == Some(k) {
          ExtensionIsLastDot(s, k);
        }
      }
      s
  }

  /** Where the extension pattern matches, the dot there is the last one. */
  lemma ExtensionIsLastDot(s: string, k: int)
    requires ExtensionAt(s, k)
    ensures LastDot(s) == Some(k)
  {
    assert s[k] in s;
    var d := LastDot(s).value;
  }

  /**
   * The public id inside an upload path: the segments after the one following
   * the first `upload` segment (that one is the version), joined with `/`,
   * final extension stripped. `None` when there is no `upload` segment or it
   * is the last one.
   */
  function PublicIdFromPath(path: string): (r: Option<string>)
    ensures r.None? <==> var parts := Split(path, '/');
                         "upload" !in parts || FindIndex(parts, "upload").value == |parts| - 1
  {
    var parts := Split(path, '/');
    var uploadIndex := FindIndex(parts, "upload");
    if uploadIndex.None? || uploadIndex.value >= |parts| - 1 then None
    else Some(StripExtension(Join(parts[uploadIndex.value + 2..], '/')))
  }

  /**
   * `getPublicIdFromUrl`: `None` (null) for the empty string, anything not
   * starting with "http" unchanged, the public id of the path otherwise.
   */
  function GetPublicIdFromUrl(url: string): (r: Option<string>)
    ensures url == "" ==> r.None?
    ensures url != "" && !StartsWith(url, "http") ==> r == Some(url)
    ensures StartsWith(url, "http") ==>
              (r.None? <==> Pathname(url).None?
                            || var parts := Split(Pathname(url).value, '/');
                               "upload" !in parts || FindIndex(parts, "upload").value == |parts| - 1)
    ensures StartsWith(url, "http") && r.Some? ==> r == PublicIdFromPath(Pathname(url).value)
  {
    if url == "" then None
    else if !StartsWith(url, "http") then Some(url)
    else
      var path := Pathname(url);
      if path.None? then None else PublicIdFromPath(path.value)
  }

  /**
   * A path `/<pre>/upload/<version>/<rest>` yields the public id `<rest>` with
   * its extension dropped, provided no earlier segment is `upload`; with no
   * segment after the version the id is empty.
   */
  lemma PublicIdOfUploadPath(pre: seq<string>, version: string, rest: seq<string>)
    requires "upload" !in pre
    requires forall i :: 0 <= i < |pre| ==> '/' !in pre[i]
    requires forall i :: 0 <= i < |rest| ==> '/' !in rest[i]
    requires '/' !in version
    ensures PublicIdFromPath(Join(pre + ["upload", version] + rest, '/'))
            == Some(StripExtension(Join(rest, '/')))
  {
    var tail := [version] + rest;
    var parts := pre + (["upload"] + tail);
    assert pre + ["upload", version] + rest == parts;
    SeparatorFree(pre, "upload", tail);
    SplitJoin(parts, '/');
    FindIndexAfter(pre, tail, "upload");
    assert parts[|pre| + 2..] == rest;
  }

  lemma SeparatorFree(pre: seq<string>, mid: string, tail: seq<string>)
    requires forall i :: 0 <= i < |pre| ==> '/' !in pre[i]
    requires forall i :: 0 <= i < |tail| ==> '/' !in tail[i]
    requires '/' !in mid
    ensures forall i :: 0 <= i < |pre + ([mid] + tail)| ==> '/' !in (pre + ([mid] + tail))[i]
  {
    var parts := pre + ([mid] + tail);
    forall i | 0 <= i < |parts| ensures '/' !in parts[i] {
      if i < |pre| {
        assert parts[i] == pre[i];
      } else if i > |pre| {
        assert parts[i] == tail[i - |pre| - 1];
      }
    }
  }

  lemma {:induction false} FindIndexAfter(pre: seq<string>, tail: seq<string>, target: string)
    requires target !in pre
    ensures FindIndex(pre + ([target] + tail), target) == Some(|pre|)
  {
    if pre != [] {
      assert (pre + ([target] + tail))[1..] == pre[1..] + ([target] + tail);
      FindIndexAfter(pre[1..], tail, target);
    }
  }

  /** Transformation options; an absent option takes the source's default. */
  datatype Options = Options(
    width: Option<int>,
    height: Option<int>,
    quality: Option<string>,
    crop: Option<string>,
    format: Option<string>)

  /** The transformation segment `w_W,h_H,c_C,q_Q,f_F` with defaults 800, 1000, fill, auto, auto. */
  function Transformation(o: Options): string {
    "w_" + IntToString(o.width.GetOr(800)) + ",h_" + IntToString(o.height.GetOr(1000))
    + ",c_" + o.crop.GetOr("fill") + ",q_" + o.quality.GetOr("auto") + ",f_" + o.format.GetOr("auto")
  }

  /**
   * `getCloudinaryUrl(image, options)`: "" for "", an http URL unchanged, and
   * otherwise the upload URL with the transformation and the image's public id.
   */
  function GetCloudinaryUrl(image: string, options: Options): (r: string)
    ensures image == "" <==> r == ""
    ensures StartsWith(image, "http") ==> r == image
    ensures image != "" && !StartsWith(image, "http") ==>
              r == UPLOAD_BASE + Transformation(options) + "/" + image
    ensures r == PLACEHOLDER ==> image == PLACEHOLDER
  {
    if image == "" then ""
    else if StartsWith(image, "http") then image
    else
      var fromUrl := GetPublicIdFromUrl(image);
      var publicId := if fromUrl.None? || fromUrl.value == "" then image else fromUrl.value;
      if publicId == "" then PLACEHOLDER
      else
        var r := UPLOAD_BASE + Transformation(options) + "/" + publicId;
        assert UPLOAD_BASE[8] == 'r';
        assert r[8] == 'r';
        assert PLACEHOLDER[8] == 'v';
        r
  }
}
