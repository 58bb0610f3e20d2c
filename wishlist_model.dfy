/**
 * The wishlist as the store holds it (a list of product ids) and the pure
 * list operations the store applies to it: optimistic add and remove,
 * membership, and the login-time merge with the server's list.
 */
module WishlistModel {
  import opened Catalog

  predicate NoDup(s: seq<ProductId>) {
    forall i, j :: 0 <= i < j < |s| ==> s[i] != s[j]
  }

  /** `wishlist.includes(id)`. */
  predicate IsIn(w: seq<ProductId>, id: ProductId) {
    id in w
  }

  /** `[...wishlist, id]`: the old list, in order, followed by the new id. */
  function Added(w: seq<ProductId>, id: ProductId): (r: seq<ProductId>)
    ensures |r| == |w| + 1 && r[..|w|] == w && r[|w|] == id
    ensures IsIn(r, id)
  {
    w + [id]
  }

  /**
   * `w.filter(id => !ids.includes(id))`: the entries of `w` that are not in
   * `ids`, in their original order, each occurrence kept or dropped alike.
   */
  function Excluding(w: seq<ProductId>, ids: seq<ProductId>): (r: seq<ProductId>)
    ensures forall x :: x in r <==> x in w && x !in ids
    ensures |r| <= |w|
    ensures (forall x :: x in w ==> x !in ids) ==> r == w
  {
    if w == [] then []
    else (if w[0] in ids then [] else [w[0]]) + Excluding(w[1..], ids)
  }

  /** Filtering distributes over concatenation: the relative order of what is kept is unchanged. */
  lemma {:induction false} ExcludingAppend(a: seq<ProductId>, b: seq<ProductId>, ids: seq<ProductId>)
    ensures Excluding(a + b, ids) == Excluding(a, ids) + Excluding(b, ids)
  {
    if a == [] {
      assert a + b == b;
    } else {
      assert (a + b)[0] == a[0] && (a + b)[1..] == a[1..] + b;
      ExcludingAppend(a[1..], b, ids);
    }
  }

  /** `wishlist.filter(id => id !== productId)`: every occurrence of the id is dropped. */
  function Removed(w: seq<ProductId>, id: ProductId): (r: seq<ProductId>)
    ensures !IsIn(r, id)
    ensures forall x :: x != id ==> (IsIn(r, x) <==> IsIn(w, x))
  {
    Excluding(w, [id])
  }

  /** What `toggleWishlist` does to the optimistic list: remove a member, add a non-member. */
  function Toggled(w: seq<ProductId>, id: ProductId): seq<ProductId> {
    if IsIn(w, id) then Removed(w, id) else Added(w, id)
  }

  /** Toggling flips the membership of that id and of no other. */
  lemma ToggledMembership(w: seq<ProductId>, id: ProductId, x: ProductId)
    ensures IsIn(Toggled(w, id), id) <==> !IsIn(w, id)
    ensures x != id ==> (IsIn(Toggled(w, id), x) <==> IsIn(w, x))
  {
  }

  /** Toggling twice restores the membership of every id. */
  lemma ToggledTwice(w: seq<ProductId>, id: ProductId, x: ProductId)
    ensures IsIn(Toggled(Toggled(w, id), id), x) <==> IsIn(w, x)
  {
    ToggledMembership(w, id, x);
    ToggledMembership(Toggled(w, id), id, x);
  }

  /**
   * `[...new Set(xs)]`: the first occurrence of every id, in the order of
   * those first occurrences.
   */
  function Dedup(xs: seq<ProductId>): (r: seq<ProductId>)
    ensures NoDup(r)
    ensures forall x :: x in r <==> x in xs
    ensures |r| <= |xs|
  {
    if xs == [] then []
    else
      var init := xs[..|xs| - 1];
      var x := xs[|xs| - 1];
      assert xs == init + [x];
      var d := Dedup(init);
      if x in d then d else d + [x]
  }

  /** A list without duplicates is its own deduplication. */
  lemma {:induction false} DedupOfNoDup(xs: seq<ProductId>)
    requires NoDup(xs)
    ensures Dedup(xs) == xs
  {
    if xs != [] {
      var init := xs[..|xs| - 1];
      assert NoDup(init);
      DedupOfNoDup(init);
      assert xs[|xs| - 1] !in init;
      assert xs == init + [xs[|xs| - 1]];
    }
  }

  /** Appending ids that are already present does not change the deduplication. */
  lemma {:induction false} DedupAbsorbs(a: seq<ProductId>, b: seq<ProductId>)
    requires forall x :: x in b ==> x in a
    ensures Dedup(a + b) == Dedup(a)
    decreases |b|
  {
    if b == [] {
      assert a + b == a;
    } else {
      var b' := b[..|b| - 1];
      assert (a + b)[..|a + b| - 1] == a + b';
      assert (a + b)[|a + b| - 1] == b[|b| - 1];
      DedupAbsorbs(a, b');
    }
  }

  /** The deduplication of a longer list extends that of its prefix. */
  lemma {:induction false} DedupPrefix(a: seq<ProductId>, b: seq<ProductId>)
    ensures |Dedup(a)| <= |Dedup(a + b)| && Dedup(a + b)[..|Dedup(a)|] == Dedup(a)
    decreases |b|
  {
    if b == [] {
      assert a + b == a;
    } else {
      var b' := b[..|b| - 1];
      assert (a + b)[..|a + b| - 1] == a + b';
      DedupPrefix(a, b');
    }
  }

  /** The login-time merge: local entries first, then the server's, duplicates removed. */
  function MergeWishlist(local: seq<ProductId>, server: seq<ProductId>): (r: seq<ProductId>)
    ensures NoDup(r)
    ensures forall x :: x in r <==> x in local || x in server
  {
    Dedup(local + server)
  }

  /** The ids pushed to the server after a merge: local entries the server lacks, in local order. */
  function PushDelta(local: seq<ProductId>, server: seq<ProductId>): (r: seq<ProductId>)
    ensures forall x :: x in r <==> x in local && x !in server
  {
    Excluding(local, server)
  }

  /** Merging again with the same server list changes nothing. */
  lemma MergeIdempotent(local: seq<ProductId>, server: seq<ProductId>)
    ensures MergeWishlist(MergeWishlist(local, server), server) == MergeWishlist(local, server)
  {
    var m := MergeWishlist(local, server);
    DedupAbsorbs(m, server);
    DedupOfNoDup(m);
  }

  /** A duplicate-free local list survives the merge unchanged, as its prefix. */
  lemma MergeStartsWithLocal(local: seq<ProductId>, server: seq<ProductId>)
    requires NoDup(local)
    ensures |local| <= |MergeWishlist(local, server)|
    ensures MergeWishlist(local, server)[..|local|] == local
  {
    DedupPrefix(local, server);
    DedupOfNoDup(local);
  }

  /**
   * After the pushes, the server holds its old ids plus the delta: exactly
   * the merged set, so both sides agree.
   */
  lemma PushDeltaConverges(local: seq<ProductId>, server: seq<ProductId>, x: ProductId)
    ensures x in MergeWishlist(local, server) <==> x in server || x in PushDelta(local, server)
  {
  }
}
