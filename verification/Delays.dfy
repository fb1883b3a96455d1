// Sequences of directions in which the messages of one direction may fall behind those of the other.

module Delays {
  import opened ProxyTree
  import opened Rows

  function OneIf(b: bool): nat { if b then 1 else 0 }

  function Less(a: nat, b: nat): nat { if a >= b then a - b else 0 }

  function Count(d: Direction, s: seq<Direction>): nat {
    if s == [] then 0 else (if s[0] == d then 1 else 0) + Count(d, s[1..])
  }

  function Plus(k: nat, marks: seq<nat>): (r: seq<nat>)
    ensures |r| == |marks|
  {
    seq(|marks|, q requires 0 <= q < |marks| => marks[q] + k)
  }

  /** For each entry of the other direction, how many `d` stand before it. */
  function Marks(d: Direction, s: seq<Direction>): seq<nat> {
    if s == [] then [] else
    if s[0] == d then Plus(1, Marks(d, s[1..])) else [0] + Marks(d, s[1..])
  }

  function Repeat(d: Direction, k: nat): (r: seq<Direction>)
    ensures |r| == k
  {
    seq(k, _ => d)
  }

  lemma {:induction false} MarksJoin(d: Direction, a: seq<Direction>, b: seq<Direction>)
    ensures Count(d, a + b) == Count(d, a) + Count(d, b)
    ensures Marks(d, a + b) == Marks(d, a) + Plus(Count(d, a), Marks(d, b))
  {
    if a == [] {
      assert a + b == b;
      assert Plus(0, Marks(d, b)) == Marks(d, b);
    } else {
      assert (a + b)[1..] == a[1..] + b;
      MarksJoin(d, a[1..], b);
      PlusJoin(Marks(d, a[1..]), Count(d, a[1..]), Marks(d, b));
    }
  }

  lemma PlusJoin(x: seq<nat>, k: nat, y: seq<nat>)
    ensures Plus(1, x + Plus(k, y)) == Plus(1, x) + Plus(k + 1, y)
    ensures [0] + (x + Plus(k, y)) == [0] + x + Plus(k, y)
  {
  }

  lemma {:induction false} MarksRepeat(d: Direction, e: Direction, k: nat)
    ensures Count(d, Repeat(e, k)) == if e == d then k else 0
    ensures e == d ==> Marks(d, Repeat(e, k)) == []
  {
    if k > 0 {
      assert Repeat(e, k)[1..] == Repeat(e, k - 1);
      MarksRepeat(d, e, k - 1);
    }
  }

  lemma OneMark(d: Direction, e: Direction)
    ensures Count(d, [e]) == (if e == d then 1 else 0) && Marks(d, [e]) == if e == d then [] else [0]
  {
    assert [e][1..] == [] && Marks(d, []) == [];
    assert Plus(1, []) == [];
  }

  /** Nothing but entries `d` has moved, and only backwards. */
  ghost predicate Later(d: Direction, s: seq<Direction>, s': seq<Direction>) {
    forall q: nat {:trigger LaterAt(d, s, s', q)} :: LaterAt(d, s, s', q)
  }

  predicate LaterAt(d: Direction, s: seq<Direction>, s': seq<Direction>, q: nat) {
    && Count(d, s') == Count(d, s) && |Marks(d, s')| == |Marks(d, s)|
    && (q < |Marks(d, s)| ==> Marks(d, s')[q] <= Marks(d, s)[q])
  }

  lemma LaterIs(d: Direction, s: seq<Direction>, s': seq<Direction>)
    ensures Later(d, s, s') <==>
      && Count(d, s') == Count(d, s) && |Marks(d, s')| == |Marks(d, s)|
      && forall q :: 0 <= q < |Marks(d, s)| ==> Marks(d, s')[q] <= Marks(d, s)[q]
  {
    if Later(d, s, s') {
      assert LaterAt(d, s, s', 0);
      forall q | 0 <= q < |Marks(d, s)| ensures Marks(d, s')[q] <= Marks(d, s)[q] {
        assert LaterAt(d, s, s', q);
      }
    }
  }

  lemma LaterNot(d: Direction, s: seq<Direction>)
    ensures Later(d, s, s)
  {
  }

  lemma LaterBehind(d: Direction, a: seq<Direction>, s: seq<Direction>, s': seq<Direction>)
    requires Later(d, s, s')
    ensures Later(d, a + s, a + s')
  {
    LaterIs(d, s, s');
    MarksJoin(d, a, s);
    MarksJoin(d, a, s');
    LaterIs(d, a + s, a + s');
  }

  lemma LaterBefore(d: Direction, s: seq<Direction>, s': seq<Direction>, b: seq<Direction>)
    requires Later(d, s, s')
    ensures Later(d, s + b, s' + b)
  {
    LaterIs(d, s, s');
    MarksJoin(d, s, b);
    MarksJoin(d, s', b);
    LaterIs(d, s + b, s' + b);
  }

  /** Entries `d` let one of the other direction pass. */
  lemma LaterSwap(d: Direction, k: nat)
    ensures Later(d, Repeat(d, k) + [Opposite(d)], [Opposite(d)] + Repeat(d, k))
  {
    var run, one := Repeat(d, k), [Opposite(d)];
    MarksRepeat(d, d, k);
    OneMark(d, Opposite(d));
    MarksJoin(d, run, one);
    MarksJoin(d, one, run);
    LaterIs(d, run + one, one + run);
  }

  /** Moved, if at all, by entries `d` falling behind; not at all where there is nothing to delay them. */
  ghost predicate Shifts(d: Direction, exact: bool, s: seq<Direction>, s': seq<Direction>) {
    Later(d, s, s') && (exact ==> s' == s)
  }

  lemma ShiftsNot(d: Direction, exact: bool, s: seq<Direction>)
    ensures Shifts(d, exact, s, s)
  {
    LaterNot(d, s);
  }

  lemma ShiftsCount(d: Direction, exact: bool, s: seq<Direction>, s': seq<Direction>)
    requires Shifts(d, exact, s, s')
    ensures Count(d, s') == Count(d, s)
  {
    LaterIs(d, s, s');
  }

  lemma ShiftsBehind(d: Direction, exact: bool, a: seq<Direction>, s: seq<Direction>, s': seq<Direction>)
    requires Shifts(d, exact, s, s')
    ensures Shifts(d, exact, a + s, a + s')
  {
    LaterBehind(d, a, s, s');
  }

  lemma ShiftsBefore(d: Direction, exact: bool, s: seq<Direction>, s': seq<Direction>, b: seq<Direction>)
    requires Shifts(d, exact, s, s')
    ensures Shifts(d, exact, s + b, s' + b)
  {
    LaterBefore(d, s, s', b);
  }

  lemma ShiftsSwap(d: Direction, exact: bool, k: nat)
    requires exact ==> k == 0
    ensures Shifts(d, exact, Repeat(d, k) + [Opposite(d)], [Opposite(d)] + Repeat(d, k))
  {
    LaterSwap(d, k);
    if k == 0 {
      assert Repeat(d, 0) + [Opposite(d)] == [Opposite(d)] + Repeat(d, 0);
    }
  }

  /** Two entries `Repeat` put together. */
  lemma RepeatMore(d: Direction, k: nat)
    ensures Repeat(d, k + 1) == Repeat(d, k) + [d] == [d] + Repeat(d, k)
  {
  }

  // ---- Bounds --------------------------------------------------------------------------------

  lemma MarksMore(d: Direction, s: seq<Direction>, e: Direction)
    ensures Count(d, s + [e]) == Count(d, s) + (if e == d then 1 else 0)
    ensures Marks(d, s + [e]) == if e == d then Marks(d, s) else Marks(d, s) + [Count(d, s)]
  {
    MarksJoin(d, s, [e]);
    OneMark(d, e);
    assert Plus(Count(d, s), [0]) == [Count(d, s)] && Plus(Count(d, s), []) == [];
  }

  lemma MarksFirst(d: Direction, e: Direction, s: seq<Direction>)
    ensures Count(d, [e] + s) == Count(d, s) + (if e == d then 1 else 0)
    ensures Marks(d, [e] + s) == if e == d then Plus(1, Marks(d, s)) else [0] + Marks(d, s)
  {
    assert ([e] + s)[1..] == s;
  }

  lemma {:induction false} MarksBelow(d: Direction, s: seq<Direction>)
    ensures forall q :: 0 <= q < |Marks(d, s)| ==> Marks(d, s)[q] <= Count(d, s)
  {
    if s != [] {
      MarksBelow(d, s[1..]);
    }
  }

  /** In `s` no more `d` stand before any entry of the other direction than in `t`. */
  ghost predicate Early(d: Direction, s: seq<Direction>, t: seq<Direction>) {
    forall q: nat {:trigger EarlyAt(d, s, t, q)} :: EarlyAt(d, s, t, q)
  }

  predicate EarlyAt(d: Direction, s: seq<Direction>, t: seq<Direction>, q: nat) {
    |Marks(d, s)| == |Marks(d, t)| && (q < |Marks(d, s)| ==> Marks(d, s)[q] <= Marks(d, t)[q])
  }

  lemma EarlyIs(d: Direction, s: seq<Direction>, t: seq<Direction>)
    ensures Early(d, s, t) <==>
      |Marks(d, s)| == |Marks(d, t)| && forall q :: 0 <= q < |Marks(d, s)| ==> Marks(d, s)[q] <= Marks(d, t)[q]
  {
    if Early(d, s, t) {
      assert EarlyAt(d, s, t, 0);
      forall q | 0 <= q < |Marks(d, s)| ensures Marks(d, s)[q] <= Marks(d, t)[q] {
        assert EarlyAt(d, s, t, q);
      }
    }
  }

  lemma EarlySame(d: Direction, s: seq<Direction>)
    ensures Early(d, s, s)
  {
  }

  lemma EarlyLater(d: Direction, s: seq<Direction>, t: seq<Direction>, t': seq<Direction>)
    requires Later(d, t, t') && Early(d, s, t')
    ensures Early(d, s, t)
  {
    LaterIs(d, t, t');
    EarlyIs(d, s, t');
    EarlyIs(d, s, t);
  }

  lemma EarlyFirst(d: Direction, e: Direction, s: seq<Direction>, t: seq<Direction>)
    requires Early(d, s, t)
    ensures Early(d, [e] + s, [e] + t)
  {
    EarlyIs(d, s, t);
    MarksFirst(d, e, s);
    MarksFirst(d, e, t);
    EarlyIs(d, [e] + s, [e] + t);
  }

  /** What comes last does not count, in either. */
  lemma EarlyTrail(d: Direction, s: seq<Direction>, t: seq<Direction>)
    ensures Early(d, s, t + [d]) <==> Early(d, s, t)
    ensures Early(d, s + [d], t) <==> Early(d, s, t)
  {
    MarksMore(d, t, d);
    MarksMore(d, s, d);
    EarlyIs(d, s, t);
    EarlyIs(d, s, t + [d]);
    EarlyIs(d, s + [d], t);
  }

  /** The last entry of the other direction, and how many `d` come after it. */
  lemma {:induction false} LastOther(d: Direction, s: seq<Direction>) returns (init: seq<Direction>, k: nat)
    requires Marks(d, s) != []
    ensures s == init + [Opposite(d)] + Repeat(d, k)
    decreases |s|
  {
    var last := s[|s| - 1];
    assert s == s[..|s| - 1] + [last];
    if last == d {
      MarksMore(d, s[..|s| - 1], d);
      var rest;
      init, rest := LastOther(d, s[..|s| - 1]);
      k := rest + 1;
      assert Repeat(d, k) == Repeat(d, rest) + [d];
    } else {
      init, k := s[..|s| - 1], 0;
      assert s == init + [Opposite(d)] + Repeat(d, 0);
    }
  }

  lemma MarksRun(d: Direction, s: seq<Direction>, k: nat)
    ensures Count(d, s + Repeat(d, k)) == Count(d, s) + k && Marks(d, s + Repeat(d, k)) == Marks(d, s)
  {
    MarksJoin(d, s, Repeat(d, k));
    MarksRepeat(d, d, k);
    assert Plus(Count(d, s), []) == [];
  }

  lemma EarlySplit(d: Direction, s: seq<Direction>, k: nat, t: seq<Direction>)
    requires Early(d, s + [Opposite(d)] + Repeat(d, k), t + [Opposite(d)])
    ensures Early(d, s, t)
  {
    var one := s + [Opposite(d)];
    MarksRun(d, one, k);
    MarksMore(d, s, Opposite(d));
    MarksMore(d, t, Opposite(d));
    EarlyIs(d, one + Repeat(d, k), t + [Opposite(d)]);
    forall q | 0 <= q < |Marks(d, s)| ensures Marks(d, s)[q] <= Marks(d, t)[q] {
      assert Marks(d, one)[q] == Marks(d, s)[q] && Marks(d, t + [Opposite(d)])[q] == Marks(d, t)[q];
    }
    EarlyIs(d, s, t);
  }

  /** After any entry of the other direction no more `a` come in `s` than in `t`. */
  ghost predicate Sooner(a: Direction, s: seq<Direction>, t: seq<Direction>) {
    forall q: nat {:trigger SoonerAt(a, s, t, q)} :: SoonerAt(a, s, t, q)
  }

  predicate SoonerAt(a: Direction, s: seq<Direction>, t: seq<Direction>, q: nat) {
    |Marks(a, s)| == |Marks(a, t)| && (q < |Marks(a, s)| ==> Count(a, s) + Marks(a, t)[q] <= Count(a, t) + Marks(a, s)[q])
  }

  lemma SoonerIs(a: Direction, s: seq<Direction>, t: seq<Direction>)
    ensures Sooner(a, s, t) <==>
      && |Marks(a, s)| == |Marks(a, t)|
      && forall q :: 0 <= q < |Marks(a, s)| ==> Count(a, s) + Marks(a, t)[q] <= Count(a, t) + Marks(a, s)[q]
  {
    if Sooner(a, s, t) {
      assert SoonerAt(a, s, t, 0);
      forall q | 0 <= q < |Marks(a, s)| ensures Count(a, s) + Marks(a, t)[q] <= Count(a, t) + Marks(a, s)[q] {
        assert SoonerAt(a, s, t, q);
      }
    }
  }

  lemma SoonerSame(a: Direction, s: seq<Direction>)
    ensures Sooner(a, s, s)
  {
  }

  lemma SoonerLater(a: Direction, s: seq<Direction>, t: seq<Direction>, t': seq<Direction>)
    requires Sooner(a, s, t) && Later(a, t, t')
    ensures Sooner(a, s, t')
  {
    SoonerIs(a, s, t);
    LaterIs(a, t, t');
    SoonerIs(a, s, t');
  }

  lemma SoonerMore(a: Direction, s: seq<Direction>, t: seq<Direction>, e: Direction)
    requires Sooner(a, s, t)
    ensures Sooner(a, s + [e], t + [e])
  {
    SoonerIs(a, s, t);
    MarksMore(a, s, e);
    MarksMore(a, t, e);
    SoonerIs(a, s + [e], t + [e]);
  }

  /** Leading `a` do not count, in either. */
  lemma SoonerHead(a: Direction, s: seq<Direction>, t: seq<Direction>)
    ensures Sooner(a, [a] + s, t) <==> Sooner(a, s, t)
    ensures Sooner(a, s, [a] + t) <==> Sooner(a, s, t)
  {
    MarksFirst(a, a, s);
    MarksFirst(a, a, t);
    SoonerIs(a, s, t);
    SoonerIs(a, [a] + s, t);
    SoonerIs(a, s, [a] + t);
    if |Marks(a, s)| == |Marks(a, t)| {
      LeadingCancels(a, s, t);
    }
  }

  lemma LeadingCancels(a: Direction, s: seq<Direction>, t: seq<Direction>)
    requires |Marks(a, s)| == |Marks(a, t)|
    ensures forall q :: 0 <= q < |Marks(a, s)| ==>
      (Count(a, s) + 1 + Marks(a, t)[q] <= Count(a, t) + Plus(1, Marks(a, s))[q]
       <==> Count(a, s) + Marks(a, t)[q] <= Count(a, t) + Marks(a, s)[q])
  {
  }

  lemma SoonerPop(a: Direction, s: seq<Direction>, t: seq<Direction>)
    requires Sooner(a, [Opposite(a)] + s, [Opposite(a)] + t)
    ensures Sooner(a, s, t)
  {
    var b := Opposite(a);
    MarksFirst(a, b, s);
    MarksFirst(a, b, t);
    SoonerIs(a, [b] + s, [b] + t);
    forall q | 0 <= q < |Marks(a, s)| ensures Count(a, s) + Marks(a, t)[q] <= Count(a, t) + Marks(a, s)[q] {
      assert Marks(a, [b] + s)[q + 1] == Marks(a, s)[q] && Marks(a, [b] + t)[q + 1] == Marks(a, t)[q];
    }
    SoonerIs(a, s, t);
  }

  /** If nothing leads, there are no more `a`. */
  lemma SoonerCount(a: Direction, s: seq<Direction>, t: seq<Direction>)
    requires Sooner(a, s, t) && (s == [] || s[0] == Opposite(a))
    ensures Count(a, s) <= Count(a, t)
  {
    SoonerIs(a, s, t);
    if s != [] {
      MarksFirst(a, s[0], s[1..]);
      assert s == [s[0]] + s[1..] && Marks(a, s)[0] == 0;
    }
  }

  /** The first `a` that lead. */
  lemma {:induction false} Leading(a: Direction, s: seq<Direction>, t: seq<Direction>) returns (k: nat)
    requires Sooner(a, s, t)
    ensures k <= |s| && s == Repeat(a, k) + s[k..] && (s[k..] == [] || s[k] == Opposite(a)) && Sooner(a, s[k..], t)
    decreases |s|
  {
    if s == [] || s[0] == Opposite(a) {
      k := 0;
      assert s == Repeat(a, 0) + s[0..] && s[0..] == s;
    } else {
      assert s == [a] + s[1..];
      SoonerHead(a, s[1..], t);
      var rest := Leading(a, s[1..], t);
      k := rest + 1;
      assert s[1..][rest..] == s[k..];
      RepeatMore(a, rest);
      assert s == [a] + (Repeat(a, rest) + s[k..]);
    }
  }
}
