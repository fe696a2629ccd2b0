/**
 * The client's view of a transaction and the `filter`/`reduce` totals the
 * dashboard components compute from a list of them. Amounts are reals;
 * dates are timestamps (`new Date(date).getTime()`).
 */
module Ledger {

  datatype Entry = Entry(id: string, kind: string, amount: real, category: string, description: string, date: int)

  function DateOf(e: Entry): int {
    e.date
  }

  /** The two text colours the dashboard uses for amounts: `text-success` and `text-error`. */
  datatype Tone = SuccessTone | ErrorTone

  /** `entries.filter(t => t.type === kind)`. */
  function OfKind(es: seq<Entry>, kind: string): seq<Entry> {
    if es == [] then []
    else (if es[0].kind == kind then [es[0]] else []) + OfKind(es[1..], kind)
  }

  /** `entries.reduce((sum, t) => sum + t.amount, 0)`: a left fold from 0. */
  function Sum(es: seq<Entry>): real {
    if es == [] then 0.0 else Sum(es[..|es| - 1]) + es[|es| - 1].amount
  }

  /** The total of the amounts of one type. */
  function TotalOf(es: seq<Entry>, kind: string): real {
    Sum(OfKind(es, kind))
  }

  lemma {:induction false} OfKindAppend(a: seq<Entry>, b: seq<Entry>, kind: string)
    ensures OfKind(a + b, kind) == OfKind(a, kind) + OfKind(b, kind)
  {
    if a == [] {
      assert a + b == b;
    } else {
      assert (a + b)[1..] == a[1..] + b;
      OfKindAppend(a[1..], b, kind);
    }
  }

  /** The fold splits over concatenation. */
  lemma {:induction false} SumAppend(a: seq<Entry>, b: seq<Entry>)
    ensures Sum(a + b) == Sum(a) + Sum(b)
    decreases |b|
  {
    if b == [] {
      assert a + b == a;
    } else {
      var c := a + b;
      assert c[..|c| - 1] == a + b[..|b| - 1];
      SumAppend(a, b[..|b| - 1]);
    }
  }

  /** The total of one type over two lists is the sum of the two totals. */
  lemma TotalOfAppend(a: seq<Entry>, b: seq<Entry>, kind: string)
    ensures TotalOf(a + b, kind) == TotalOf(a, kind) + TotalOf(b, kind)
  {
    OfKindAppend(a, b, kind);
    SumAppend(OfKind(a, kind), OfKind(b, kind));
  }

  /** A one-entry list totals its amount under its own type and nothing under any other. */
  lemma TotalOfSingle(e: Entry, kind: string)
    ensures TotalOf([e], kind) == if e.kind == kind then e.amount else 0.0
  {
    assert [e][1..] == [];
    assert OfKind([e], kind) == if e.kind == kind then [e] else [];
    assert [e][..0] == [];
    assert Sum([e]) == Sum([]) + e.amount;
  }

  /** An entry whose type is not `kind` adds nothing to that total. */
  lemma OtherKindIgnored(es: seq<Entry>, e: Entry, kind: string)
    requires e.kind != kind
    ensures TotalOf(es + [e], kind) == TotalOf(es, kind)
  {
    TotalOfAppend(es, [e], kind);
    assert OfKind([e], kind) == [];
  }

  /** The fold does not depend on the order of the entries. */
  lemma {:induction false} SumPermutation(a: seq<Entry>, b: seq<Entry>)
    requires multiset(a) == multiset(b)
    ensures Sum(a) == Sum(b)
    decreases |a|
  {
    if a == [] {
      assert |b| == |multiset(b)| == 0;
    } else {
      var x := a[|a| - 1];
      var a' := a[..|a| - 1];
      assert a == a' + [x];
      assert x in multiset(b);
      var j :| 0 <= j < |b| && b[j] == x;
      var b' := b[..j] + b[j + 1..];
      assert b == b[..j] + [x] + b[j + 1..];
      assert multiset(b) == multiset(b[..j]) + multiset{x} + multiset(b[j + 1..]);
      assert multiset(b') == multiset(b[..j]) + multiset(b[j + 1..]);
      assert multiset(a) == multiset(a') + multiset{x};
      assert multiset(a') == multiset(a) - multiset{x};
      assert multiset(b') == multiset(b) - multiset{x};
      SumPermutation(a', b');
      SumAppend(b[..j], b[j + 1..]);
      SumAppend(b[..j] + [x], b[j + 1..]);
      SumAppend(b[..j], [x]);
      assert Sum([x]) == x.amount by { assert [x][..0] == []; }
    }
  }

  /** The filter keeps every copy of an entry of that type and no copy of any other. */
  lemma {:induction false} OfKindCount(a: seq<Entry>, kind: string, e: Entry)
    ensures multiset(OfKind(a, kind))[e] == if e.kind == kind then multiset(a)[e] else 0
  {
    if a != [] {
      OfKindCount(a[1..], kind, e);
      assert a == [a[0]] + a[1..];
      assert multiset(a) == multiset{a[0]} + multiset(a[1..]);
    }
  }

  lemma OfKindPermutation(a: seq<Entry>, b: seq<Entry>, kind: string)
    requires multiset(a) == multiset(b)
    ensures multiset(OfKind(a, kind)) == multiset(OfKind(b, kind))
  {
    forall e ensures multiset(OfKind(a, kind))[e] == multiset(OfKind(b, kind))[e] {
      OfKindCount(a, kind, e);
      OfKindCount(b, kind, e);
    }
  }

  /** Reordering the entries leaves every total as it was. */
  lemma TotalOfPermutation(a: seq<Entry>, b: seq<Entry>, kind: string)
    requires multiset(a) == multiset(b)
    ensures TotalOf(a, kind) == TotalOf(b, kind)
  {
    OfKindPermutation(a, b, kind);
    SumPermutation(OfKind(a, kind), OfKind(b, kind));
  }
}
