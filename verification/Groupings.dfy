// Which ways of grouping proxies into conductors keep the order of events across directions.

module Groupings {
  import opened ProxyTree
  import opened Flattening

  /** A group of so many proxies, with so many of all the `n` proxies of the chain before it, has one proxy, or all
      of them, or none at one end of the chain. */
  predicate Harmless(size: nat, before: nat, n: nat) {
    size == 1 || size == n || (size == 0 && (before == 0 || before == n))
  }

  /** Every group, at any depth, is harmless. */
  predicate AllHarmless(parts: seq<Shape>, before: nat, n: nat)
    decreases parts, 1
  {
    forall i {:trigger HarmlessAt(parts, i, before, n)} :: 0 <= i < |parts| ==> HarmlessAt(parts, i, before, n)
  }

  predicate HarmlessAt(parts: seq<Shape>, i: nat, before: nat, n: nat)
    requires i < |parts|
    decreases parts, 0
  {
    match parts[i]
    case One => true
    case Group(ps) => Harmless(SizeOf(ps), before + Offset(parts, i), n) && AllHarmless(ps, before + Offset(parts, i), n)
  }

  /** The chain with these parts: every group below the outermost conductor is harmless. */
  predicate IsHarmless(parts: seq<Shape>) { AllHarmless(parts, 0, SizeOf(parts)) }

  // ---- A harmful group as one component ------------------------------------------------------

  /** The same links with those of a group in one component. */
  ghost function Collapse(links: seq<Kid>, t: nat, ps: seq<Shape>): (r: seq<Kid>)
    requires t + SizeOf(ps) <= |links|
    ensures |r| == |links| - SizeOf(ps) + 1
  {
    links[..t] + [Kid(Resting(ps, links[t..t + SizeOf(ps)], []), [], [])] + links[t + SizeOf(ps)..]
  }

  lemma {:induction false} OffsetReplaced(parts: seq<Shape>, i: nat, s: Shape, j: nat)
    requires i < |parts| && j <= |parts|
    ensures Offset(parts[i := s], j) == if j <= i then Offset(parts, j) else Offset(parts, j) - Size(parts[i]) + Size(s)
    decreases j
  {
    if j > 0 {
      OffsetReplaced(parts, i, s, j - 1);
    }
  }

  /** Replacing a part and its links leaves the other components as they are. */
  lemma PartReplaced(parts: seq<Shape>, links: seq<Kid>, i: nat, s: Shape, sub: seq<Kid>, links': seq<Kid>, j: nat)
    requires |links| == SizeOf(parts) && i < |parts| && |sub| == Size(s)
    requires Offset(parts, i + 1) <= |links| && j < |parts| && j != i
    requires links' == links[..Offset(parts, i)] + sub + links[Offset(parts, i + 1)..]
    ensures |links'| == SizeOf(parts[i := s]) && KidsOf(parts[i := s], links')[j] == KidsOf(parts, links)[j]
  {
    OffsetReplaced(parts, i, s, |parts|);
    OffsetsApart(parts, i, i);
    SubReplaced(parts, links, i, s, sub, parts[i := s], links', j);
    EqualKids(parts, links, parts[i := s], links', j);
  }

  /** If the new part with the new links is the same component, the conductor is the same. */
  lemma SameComponents(parts: seq<Shape>, links: seq<Kid>, i: nat, s: Shape, sub: seq<Kid>, links': seq<Kid>, kid: Kid)
    requires |links| == SizeOf(parts) && i < |parts| && |sub| == Size(s) && Offset(parts, i + 1) <= |links|
    requires links' == links[..Offset(parts, i)] + sub + links[Offset(parts, i + 1)..]
    requires KidsOf(parts, links)[i] == kid && KidOf(s, sub) == kid
    ensures |links'| == SizeOf(parts[i := s]) && KidsOf(parts[i := s], links') == KidsOf(parts, links)
  {
    OffsetReplaced(parts, i, s, |parts|);
    OffsetsApart(parts, i, i);
    forall j | 0 <= j < |parts| ensures KidsOf(parts[i := s], links')[j] == KidsOf(parts, links)[j] {
      if j == i {
        SubReplaced(parts, links, i, s, sub, parts[i := s], links', i);
        KidsAt(parts[i := s], links', i);
      } else {
        PartReplaced(parts, links, i, s, sub, links', j);
      }
    }
  }

  lemma EqualKids(parts: seq<Shape>, links: seq<Kid>, parts': seq<Shape>, links': seq<Kid>, j: nat)
    requires |links| == SizeOf(parts) && |links'| == SizeOf(parts') && j < |parts| && j < |parts'|
    requires parts'[j] == parts[j] && Sub(parts', links', j) == Sub(parts, links, j)
    ensures KidsOf(parts', links')[j] == KidsOf(parts, links)[j]
  {
    KidsAt(parts', links', j);
    KidsAt(parts, links, j);
  }

  lemma SubReplaced(parts: seq<Shape>, links: seq<Kid>, i: nat, s: Shape, sub: seq<Kid>, parts': seq<Shape>, links': seq<Kid>, j: nat)
    requires |links| == SizeOf(parts) && i < |parts| && |sub| == Size(s) && j < |parts|
    requires Offset(parts, i + 1) <= |links| && parts' == parts[i := s] && |links'| == SizeOf(parts')
    requires links' == links[..Offset(parts, i)] + sub + links[Offset(parts, i + 1)..]
    ensures Sub(parts', links', j) == if j == i then sub else Sub(parts, links, j)
  {
    OffsetReplaced(parts, i, s, j);
    OffsetReplaced(parts, i, s, j + 1);
    OffsetsApart(parts, i, j);
    SliceReplaced(links, Offset(parts, i), Offset(parts, i + 1), sub, Offset(parts, j), Offset(parts, j + 1));
  }

  /** Slices of a sequence of which one stretch has been replaced. */
  lemma SliceReplaced<T>(xs: seq<T>, a: nat, b: nat, ys: seq<T>, from: nat, to: nat)
    requires a <= b <= |xs| && from <= to <= |xs|
    requires to <= a || from >= b || (from == a && to == b)
    ensures var zs := xs[..a] + ys + xs[b..];
      if from == a && to == b then zs[a..a + |ys|] == ys
      else if to <= a then zs[from..to] == xs[from..to]
      else zs[from - b + a + |ys|..to - b + a + |ys|] == xs[from..to]
  {
  }

  /** A group that is not harmless, found and looked at as one component. */
  lemma {:induction false} FindHarmful(parts: seq<Shape>, links: seq<Kid>, before: nat, n: nat)
    returns (parts': seq<Shape>, t: nat, ps: seq<Shape>)
    requires |links| == SizeOf(parts) && !AllHarmless(parts, before, n)
    ensures t + SizeOf(ps) <= |links| && !Harmless(SizeOf(ps), before + t, n)
    ensures SizeOf(parts') == |links| - SizeOf(ps) + 1
    ensures KidsOf(parts', Collapse(links, t, ps)) == KidsOf(parts, links)
    decreases parts
  {
    var i :| 0 <= i < |parts| && !HarmlessAt(parts, i, before, n);
    var o, group := Offset(parts, i), parts[i].parts;
    OffsetGrows(parts, i + 1, |parts|);
    var sub := Sub(parts, links, i);
    if !Harmless(SizeOf(group), before + o, n) {
      t, ps := o, group;
      parts' := parts[i := One];
      var kid := Kid(Resting(ps, sub, []), [], []);
      GroupAt(parts, links, i, ps);
      SameComponents(parts, links, i, One, [kid], Collapse(links, t, ps), kid);
    } else {
      var group', local, bad := FindHarmful(group, sub, before + o, n);
      t, ps := o + local, bad;
      parts' := parts[i := Group(group')];
      Collapsed(parts, links, i, local, ps);
      GroupAt(parts, links, i, group);
      SameComponents(parts, links, i, Group(group'), Collapse(sub, local, ps), Collapse(links, t, ps), KidsOf(parts, links)[i]);
    }
  }

  lemma Collapsed(parts: seq<Shape>, links: seq<Kid>, i: nat, local: nat, ps: seq<Shape>)
    requires |links| == SizeOf(parts) && i < |parts| && local + SizeOf(ps) <= Size(parts[i])
    ensures var o, sub := Offset(parts, i), Sub(parts, links, i);
      && Offset(parts, i + 1) <= |links| && o + local + SizeOf(ps) <= |links|
      && Collapse(links, o + local, ps) == links[..o] + Collapse(sub, local, ps) + links[Offset(parts, i + 1)..]
  {
    OffsetGrows(parts, i + 1, |parts|);
    var o, end, k := Offset(parts, i), Offset(parts, i + 1), SizeOf(ps);
    SliceOfSlice(links, o, end, local, local + k);
    var slot := [Kid(Resting(ps, links[o + local..o + local + k], []), [], [])];
    Spliced(links, o, end, local, local + k, slot);
    CollapsedTo(links, o + local, ps, slot);
    CollapsedTo(links[o..end], local, ps, slot);
  }

  lemma CollapsedTo(links: seq<Kid>, t: nat, ps: seq<Shape>, slot: seq<Kid>)
    requires t + SizeOf(ps) <= |links| && slot == [Kid(Resting(ps, links[t..t + SizeOf(ps)], []), [], [])]
    ensures Collapse(links, t, ps) == links[..t] + slot + links[t + SizeOf(ps)..]
  {
  }

  lemma SliceOfSlice<T>(xs: seq<T>, a: nat, b: nat, c: nat, d: nat)
    requires a <= b <= |xs| && c <= d <= b - a
    ensures xs[a..b][c..d] == xs[a + c..a + d]
  {
    forall i | 0 <= i < d - c ensures xs[a..b][c..d][i] == xs[a + c..a + d][i] {
    }
  }

  /** Replacing a stretch of a stretch. */
  lemma Spliced<T>(xs: seq<T>, a: nat, b: nat, c: nat, d: nat, ys: seq<T>)
    requires a <= b <= |xs| && c <= d <= b - a
    ensures xs[..a + c] + ys + xs[a + d..] == xs[..a] + (xs[a..b][..c] + ys + xs[a..b][d..]) + xs[b..]
  {
    assert xs[..a + c] == xs[..a] + xs[a..b][..c];
    assert xs[a + d..] == xs[a..b][d..] + xs[b..];
  }
}
