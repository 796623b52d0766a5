/**
 The toast list (`frontend/src/components/ToastProvider.tsx`): showing a toast appends
 it under a freshly generated id, and closing one filters out every toast with its id.
 */
module Toasts {
  import Wrappers
  import opened Seqs

  /** The four toast styles. */
  datatype Kind = Success | Error | Info | Warning

  datatype Toast = Toast(id: string, message: string, kind: Kind)

  /** No toast in the list carries `id`. */
  predicate Fresh(toasts: seq<Toast>, id: string) {
    forall i :: 0 <= i < |toasts| ==> toasts[i].id != id
  }

  /** `showToast`: one toast at the end, with the generated id, the message and the
      kind, which defaults to `Info`; the earlier toasts stay as they were. */
  function Show(toasts: seq<Toast>, message: string, kind: Wrappers.Option<Kind>, freshId: string): (r: seq<Toast>)
    ensures |r| == |toasts| + 1 && r[..|toasts|] == toasts
    ensures r[|toasts|].id == freshId && r[|toasts|].message == message
    ensures kind.None? ==> r[|toasts|].kind == Info
    ensures kind.Some? ==> r[|toasts|].kind == kind.value
  {
    toasts + [Toast(freshId, message, kind.GetOr(Info))]
  }

  /** `removeToast`: every toast with the id goes, the others stay. */
  function Remove(toasts: seq<Toast>, id: string): (r: seq<Toast>)
    ensures |r| <= |toasts|
    ensures Fresh(r, id)
    ensures forall t :: t in r <==> t in toasts && t.id != id
  {
    if |toasts| == 0 then []
    else if toasts[0].id == id then Remove(toasts[1..], id)
    else [toasts[0]] + Remove(toasts[1..], id)
  }

  /** The toasts that stay keep their order. */
  lemma {:induction false} RemoveInOrder(toasts: seq<Toast>, id: string)
    ensures IsSubsequence(Remove(toasts, id), toasts)
    decreases |toasts|
  {
    if |toasts| > 0 {
      var rest := Remove(toasts[1..], id);
      RemoveInOrder(toasts[1..], id);
      if toasts[0].id != id {
        assert ([toasts[0]] + rest)[1..] == rest;
      } else if |rest| > 0 {
        assert rest[0].id != id;
      }
    }
  }

  /** Closing an id that is not shown changes nothing. */
  lemma {:induction false} RemoveAbsent(toasts: seq<Toast>, id: string)
    requires Fresh(toasts, id)
    ensures Remove(toasts, id) == toasts
    decreases |toasts|
  {
    if |toasts| > 0 {
      assert toasts[0].id != id;
      RemoveAbsent(toasts[1..], id);
      assert toasts == [toasts[0]] + toasts[1..];
    }
  }

  /** Removing from a concatenation removes from each part. */
  lemma {:induction false} RemoveAppend(a: seq<Toast>, b: seq<Toast>, id: string)
    ensures Remove(a + b, id) == Remove(a, id) + Remove(b, id)
    decreases |a|
  {
    if |a| > 0 {
      assert (a + b)[0] == a[0];
      assert (a + b)[1..] == a[1..] + b;
      RemoveAppend(a[1..], b, id);
      if a[0].id == id {
        assert Remove(a + b, id) == Remove(a[1..] + b, id);
        assert Remove(a, id) == Remove(a[1..], id);
      } else {
        assert Remove(a + b, id) == [a[0]] + Remove(a[1..] + b, id);
        assert Remove(a, id) == [a[0]] + Remove(a[1..], id);
        assert [a[0]] + (Remove(a[1..], id) + Remove(b, id))
            == ([a[0]] + Remove(a[1..], id)) + Remove(b, id);
      }
    } else {
      assert a + b == b;
    }
  }

  /** Closing a toast right after showing it, under an id not already used, restores
      the list. */
  lemma ShowThenRemove(toasts: seq<Toast>, message: string, kind: Wrappers.Option<Kind>, freshId: string)
    requires Fresh(toasts, freshId)
    ensures Remove(Show(toasts, message, kind, freshId), freshId) == toasts
  {
    var shown := Toast(freshId, message, kind.GetOr(Info));
    RemoveAppend(toasts, [shown], freshId);
    RemoveAbsent(toasts, freshId);
    assert Remove([shown], freshId) == Remove([], freshId);
  }

  /** Closing the same toast twice is closing it once. */
  lemma RemoveIdempotent(toasts: seq<Toast>, id: string)
    ensures Remove(Remove(toasts, id), id) == Remove(toasts, id)
  {
    RemoveAbsent(Remove(toasts, id), id);
  }

  /** Showing a toast under an id already shown makes one more toast with that id, and
      closing it then also closes the earlier ones. */
  lemma ShowReusedId(toasts: seq<Toast>, message: string, kind: Wrappers.Option<Kind>, i: nat)
    requires i < |toasts|
    ensures Remove(Show(toasts, message, kind, toasts[i].id), toasts[i].id) == Remove(toasts, toasts[i].id)
    ensures |Remove(toasts, toasts[i].id)| < |toasts|
  {
    var id := toasts[i].id;
    var shown := Toast(id, message, kind.GetOr(Info));
    RemoveAppend(toasts, [shown], id);
    assert Remove([shown], id) == Remove([], id);
    assert toasts == toasts[..i] + [toasts[i]] + toasts[i + 1..];
    RemoveAppend(toasts[..i] + [toasts[i]], toasts[i + 1..], id);
    RemoveAppend(toasts[..i], [toasts[i]], id);
    assert Remove([toasts[i]], id) == Remove([], id);
  }
}
