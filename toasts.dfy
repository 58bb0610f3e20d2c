/**
 * The notification list: a reducer over a list of toasts, and the provider
 * that dispatches to it. The uuid generator is outside the model; the id a
 * new toast gets is passed in.
 */
module Toasts {
  import opened Wrappers

  datatype Toast = Toast(id: string, message: string, kind: string)

  /** A dispatched action: its `type` tag, the payload of an add, the id of a remove. */
  datatype Action = Action(tag: string, payload: Toast, id: string)

  const ADD_TOAST := "ADD_TOAST"
  const REMOVE_TOAST := "REMOVE_TOAST"

  /** `state.filter(toast => toast.id !== id)`. */
  function WithoutId(state: seq<Toast>, id: string): (r: seq<Toast>)
    ensures forall t :: t in r <==> t in state && t.id != id
    ensures |r| <= |state|
  {
    if state == [] then []
    else (if state[0].id == id then [] else [state[0]]) + WithoutId(state[1..], id)
  }

  /** The toast reducer: append on add, filter by id on remove, identity on any other tag. */
  function Reduce(state: seq<Toast>, action: Action): (r: seq<Toast>)
    ensures action.tag == ADD_TOAST ==> |r| == |state| + 1 && r[..|state|] == state && r[|state|] == action.payload
    ensures action.tag == REMOVE_TOAST ==> forall t :: t in r <==> t in state && t.id != action.id
    ensures action.tag != ADD_TOAST && action.tag != REMOVE_TOAST ==> r == state
  {
    if action.tag == ADD_TOAST then state + [action.payload]
    else if action.tag == REMOVE_TOAST then WithoutId(state, action.id)
    else state
  }

  /** Removal keeps the survivors in their original order: it distributes over concatenation. */
  lemma {:induction false} WithoutIdAppend(a: seq<Toast>, b: seq<Toast>, id: string)
    ensures WithoutId(a + b, id) == WithoutId(a, id) + WithoutId(b, id)
  {
    if a == [] {
      assert a + b == b;
    } else {
      assert (a + b)[0] == a[0] && (a + b)[1..] == a[1..] + b;
      WithoutIdAppend(a[1..], b, id);
    }
  }

  /** Removing an id that no toast carries returns a list equal to the input. */
  lemma {:induction false} WithoutAbsentId(state: seq<Toast>, id: string)
    requires forall i :: 0 <= i < |state| ==> state[i].id != id
    ensures WithoutId(state, id) == state
  {
    if state != [] {
      WithoutAbsentId(state[1..], id);
    }
  }

  /** Adding a toast with a fresh id and then removing that id gives back the original list. */
  lemma AddThenRemove(state: seq<Toast>, t: Toast)
    requires forall i :: 0 <= i < |state| ==> state[i].id != t.id
    ensures Reduce(Reduce(state, Action(ADD_TOAST, t, "")), Action(REMOVE_TOAST, t, t.id)) == state
  {
    WithoutIdAppend(state, [t], t.id);
    WithoutAbsentId(state, t.id);
    assert WithoutId([t], t.id) == [];
  }

  /** The provider's state: the toasts on screen, oldest first. */
  class ToastStore {
    var toasts: seq<Toast>

    constructor ()
      ensures toasts == []
    {
      toasts := [];
    }

    /**
     * `addToast(message, type)`: store a toast under the fresh id and return
     * that id; a call without a type stores an `info` toast.
     */
    method AddToast(freshId: string, message: string, kind: Option<string>) returns (id: string)
      modifies this
      ensures id == freshId
      ensures toasts == old(toasts) + [Toast(freshId, message, if kind.Some? then kind.value else "info")]
    {
      id := freshId;
      toasts := Reduce(toasts, Action(ADD_TOAST, Toast(id, message, kind.GetOr("info")), ""));
    }

    /** `removeToast(id)`. */
    method RemoveToast(id: string)
      modifies this
      ensures toasts == WithoutId(old(toasts), id)
    {
      var none := Toast("", "", "");
      toasts := Reduce(toasts, Action(REMOVE_TOAST, none, id));
    }

    /** `toast.success`, `toast.error`, `toast.warning`, `toast.info`: add a toast of that type. */
    method Success(freshId: string, message: string) returns (id: string)
      modifies this
      ensures id == freshId && toasts == old(toasts) + [Toast(freshId, message, "success")]
    {
      id := AddToast(freshId, message, Some("success"));
    }

    method Error(freshId: string, message: string) returns (id: string)
      modifies this
      ensures id == freshId && toasts == old(toasts) + [Toast(freshId, message, "error")]
    {
      id := AddToast(freshId, message, Some("error"));
    }

    method Warning(freshId: string, message: string) returns (id: string)
      modifies this
      ensures id == freshId && toasts == old(toasts) + [Toast(freshId, message, "warning")]
    {
      id := AddToast(freshId, message, Some("warning"));
    }

    method Info(freshId: string, message: string) returns (id: string)
      modifies this
      ensures id == freshId && toasts == old(toasts) + [Toast(freshId, message, "info")]
    {
      id := AddToast(freshId, message, Some("info"));
    }
  }
}
