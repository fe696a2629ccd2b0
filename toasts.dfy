/**
 * The ToastProvider's list of visible toasts: `showToast` appends,
 * `removeToast` filters by id, and each toast is stacked by its index.
 * Toast ids (`Date.now()` plus a random suffix) are given by the caller.
 */
module Toasts {
  import opened Wrappers

  datatype Variant = Info | Error | Success

  datatype ToastItem = ToastItem(id: string, title: string, description: Option<string>, variant: Variant, duration: int)

  const DefaultDuration: int := 5000

  /** `toasts.filter(toast => toast.id !== id)`. */
  function Without(toasts: seq<ToastItem>, id: string): seq<ToastItem> {
    if toasts == [] then []
    else (if toasts[0].id != id then [toasts[0]] else []) + Without(toasts[1..], id)
  }

  /** The filter keeps exactly the toasts with another id. */
  lemma {:induction false} WithoutMembers(toasts: seq<ToastItem>, id: string)
    ensures forall t :: t in Without(toasts, id) <==> t in toasts && t.id != id
  {
    if toasts != [] {
      WithoutMembers(toasts[1..], id);
      assert toasts == [toasts[0]] + toasts[1..];
    }
  }

  /** The filter works toast by toast, so the survivors keep their order. */
  lemma {:induction false} WithoutAppend(a: seq<ToastItem>, b: seq<ToastItem>, id: string)
    ensures Without(a + b, id) == Without(a, id) + Without(b, id)
  {
    if a == [] {
      assert a + b == b;
    } else {
      assert (a + b)[1..] == a[1..] + b;
      WithoutAppend(a[1..], b, id);
    }
  }

  /** Removing an id no toast has leaves the list as it was. */
  lemma {:induction false} WithoutAbsent(toasts: seq<ToastItem>, id: string)
    requires forall k :: 0 <= k < |toasts| ==> toasts[k].id != id
    ensures Without(toasts, id) == toasts
  {
    if toasts != [] {
      WithoutAbsent(toasts[1..], id);
      assert toasts == [toasts[0]] + toasts[1..];
    }
  }

  /** Removing the same id twice is removing it once. */
  lemma WithoutIdempotent(toasts: seq<ToastItem>, id: string)
    ensures Without(Without(toasts, id), id) == Without(toasts, id)
  {
    WithoutMembers(toasts, id);
    var w := Without(toasts, id);
    forall k | 0 <= k < |w| ensures w[k].id != id {
      assert w[k] in w;
    }
    WithoutAbsent(w, id);
  }

  /** Removing a toast that was just shown takes the list back to before, when its id was new. */
  lemma ShowThenRemove(toasts: seq<ToastItem>, t: ToastItem)
    requires forall k :: 0 <= k < |toasts| ==> toasts[k].id != t.id
    ensures Without(toasts + [t], t.id) == toasts
  {
    WithoutAppend(toasts, [t], t.id);
    WithoutAbsent(toasts, t.id);
    assert [t][1..] == [];
  }

  /** `translateY(${index * 8}px)` and `zIndex: 50 - index` of the toast at `index`. */
  function Offset(index: nat): int {
    index * 8
  }

  function ZIndex(index: nat): int {
    50 - index
  }

  /** A later toast sits lower on the screen and under every earlier one. */
  lemma LaterToastsStackBelow(i: nat, j: nat)
    requires i < j
    ensures Offset(i) < Offset(j) && ZIndex(i) > ZIndex(j)
    ensures Offset(j) - Offset(i) == 8 * (j - i)
  {
  }

  /** The provider's state. */
  class ToastProvider {
    var toasts: seq<ToastItem>

    constructor ()
      ensures toasts == []
    {
      toasts := [];
    }

    /** `showToast(title, description, variant = 'info', duration = 5000)` with the new toast's id given. */
    method ShowToast(id: string, title: string, description: Option<string>, variant: Option<Variant>, duration: Option<int>)
      modifies this
      ensures toasts == old(toasts) + [ToastItem(id, title, description, variant.GetOr(Info), duration.GetOr(DefaultDuration))]
      ensures |toasts| == |old(toasts)| + 1 && toasts[..|old(toasts)|] == old(toasts)
    {
      var newToast := ToastItem(id, title, description, variant.GetOr(Info), duration.GetOr(DefaultDuration));
      toasts := toasts + [newToast];
    }

    method RemoveToast(id: string)
      modifies this
      ensures toasts == Without(old(toasts), id)
    {
      toasts := Without(toasts, id);
    }

    method ShowInfo(id: string, title: string, description: Option<string>, duration: Option<int>)
      modifies this
      ensures toasts == old(toasts) + [ToastItem(id, title, description, Info, duration.GetOr(DefaultDuration))]
    {
      ShowToast(id, title, description, Some(Info), duration);
    }

    method ShowError(id: string, title: string, description: Option<string>, duration: Option<int>)
      modifies this
      ensures toasts == old(toasts) + [ToastItem(id, title, description, Error, duration.GetOr(DefaultDuration))]
    {
      ShowToast(id, title, description, Some(Error), duration);
    }

    method ShowSuccess(id: string, title: string, description: Option<string>, duration: Option<int>)
      modifies this
      ensures toasts == old(toasts) + [ToastItem(id, title, description, Success, duration.GetOr(DefaultDuration))]
    {
      ShowToast(id, title, description, Some(Success), duration);
    }
  }
}
