// Messages in flight along a stretch of a chain, and how stretches are put end to end.

module GapLists {
  // A gap list describes a stretch of a chain in one direction of travel: the messages in flight
  // before its first component, between each two neighbours, and after its last component, each
  // oldest first. Stretches are put end to end with Join.

  type Gaps<T> = g: seq<seq<T>> | |g| > 0 witness [[]]

  /** The messages in the last gap of `g` travel behind those in the first gap of `h`. */
  function Join<T>(g: Gaps<T>, h: Gaps<T>): (r: Gaps<T>)
    ensures |r| == |g| + |h| - 1
  {
    g[..|g| - 1] + [h[0] + g[|g| - 1]] + h[1..]
  }

  function Append<T>(g: Gaps<T>, i: nat, m: T): (r: Gaps<T>)
    requires i < |g|
    ensures |r| == |g|
  {
    g[i := g[i] + [m]]
  }

  predicate AtHead<T(==)>(g: Gaps<T>, i: nat, m: T) { i < |g| && g[i] != [] && g[i][0] == m }

  function Pop<T>(g: Gaps<T>, i: nat): (r: Gaps<T>)
    requires i < |g| && g[i] != []
    ensures |r| == |g|
  {
    g[i := g[i][1..]]
  }

  // ---- Events inside joined stretches --------------------------------------------------------

  lemma JoinAppendLeft<T>(g: Gaps<T>, h: Gaps<T>, i: nat, m: T)
    requires i < |g|
    ensures Join(Append(g, i, m), h) == Append(Join(g, h), i, m)
  {
    assert h[0] + (g[|g| - 1] + [m]) == h[0] + g[|g| - 1] + [m];
  }

  lemma JoinAppendRight<T>(g: Gaps<T>, h: Gaps<T>, i: nat, m: T)
    requires 0 < i < |h|
    ensures Join(g, Append(h, i, m)) == Append(Join(g, h), |g| - 1 + i, m)
  {
  }

  lemma JoinPopLeft<T>(g: Gaps<T>, h: Gaps<T>, i: nat, m: T)
    requires i < |g| - 1 && AtHead(g, i, m)
    ensures AtHead(Join(g, h), i, m) && Join(Pop(g, i), h) == Pop(Join(g, h), i)
  {
  }

  lemma JoinPopRight<T>(g: Gaps<T>, h: Gaps<T>, i: nat, m: T)
    requires AtHead(h, i, m)
    ensures AtHead(Join(g, h), |g| - 1 + i, m) && Join(g, Pop(h, i)) == Pop(Join(g, h), |g| - 1 + i)
  {
    if i == 0 {
      assert (h[0] + g[|g| - 1])[1..] == h[0][1..] + g[|g| - 1];
    }
  }

  lemma LastPop<T>(g: Gaps<T>, h: Gaps<T>, m: T)
    requires AtHead(h, |h| - 1, m)
    ensures var whole := Join(g, h);
      AtHead(whole, |whole| - 1, m) && Join(g, Pop(h, |h| - 1)) == Pop(whole, |whole| - 1)
  {
    JoinPopRight(g, h, |h| - 1, m);
    assert |Join(g, h)| - 1 == |g| - 1 + |h| - 1;
  }

  /** A change seen from outside a stretch: a component sent `m` into gap `i`, or took it from gap `i`. */
  datatype Change<T> = NoChange | Sends(i: nat, m: T) | Takes(i: nat, m: T)

  predicate Possible<T(==)>(g: Gaps<T>, c: Change<T>) {
    match c
    case NoChange => true
    case Sends(i, m) => 0 < i < |g|
    case Takes(i, m) => i < |g| - 1 && AtHead(g, i, m)
  }

  function After<T(==)>(g: Gaps<T>, c: Change<T>): (r: Gaps<T>)
    requires Possible(g, c)
    ensures |r| == |g|
  {
    match c
    case NoChange => g
    case Sends(i, m) => Append(g, i, m)
    case Takes(i, m) => Pop(g, i)
  }

  function Shift<T>(c: Change<T>, off: nat): Change<T> {
    match c
    case NoChange => NoChange
    case Sends(i, m) => Sends(i + off, m)
    case Takes(i, m) => Takes(i + off, m)
  }

  /** A change of a stretch is the same change of the stretch with something behind it. */
  lemma ChangeBefore<T>(g: Gaps<T>, z: Gaps<T>, c: Change<T>)
    requires Possible(g, c)
    ensures Possible(Join(g, z), c) && Join(After(g, c), z) == After(Join(g, z), c)
  {
    match c
    case NoChange =>
    case Sends(i, m) => JoinAppendLeft(g, z, i, m);
    case Takes(i, m) => JoinPopLeft(g, z, i, m);
  }

  /** A change of a stretch is the same change, shifted, of the stretch with something before it. */
  lemma ChangeBehind<T>(a: Gaps<T>, g: Gaps<T>, c: Change<T>)
    requires Possible(g, c)
    ensures var whole, c' := Join(a, g), Shift(c, |a| - 1);
            Possible(whole, c') && Join(a, After(g, c)) == After(whole, c')
  {
    match c
    case NoChange =>
    case Sends(i, m) => JoinAppendRight(a, g, i, m);
    case Takes(i, m) => JoinPopRight(a, g, i, m);
  }

  /** A stretch takes the oldest message of the buffer before it, and something happens inside. */
  lemma TakeFromBuffer<T>(d: seq<T>, g: Gaps<T>, c: Change<T>)
    requires d != [] && Possible(Append(g, 0, d[0]), c)
    ensures Possible(Join([d], g), c)
    ensures Join([d[1..]], After(Append(g, 0, d[0]), c)) == After(Join([d], g), c)
  {
    assert g[0] + [d[0]] + d[1..] == g[0] + d;
    assert Join([d[1..]], Append(g, 0, d[0])) == Join([d], g);
    ChangeBehind([d[1..]], Append(g, 0, d[0]), c);
    assert Shift(c, 0) == c;
  }

  /** Something happens inside a stretch, which then gives its oldest last message to the buffer after it. */
  lemma GiveToBuffer<T>(g: Gaps<T>, u: seq<T>, c: Change<T>, m: T)
    requires Possible(g, c) && AtHead(After(g, c), |g| - 1, m)
    ensures Possible(Join(g, [u]), c)
    ensures Join(Pop(After(g, c), |g| - 1), [u + [m]]) == After(Join(g, [u]), c)
  {
    ChangeBefore(g, [u], c);
    var last := After(g, c)[|g| - 1];
    assert last == [m] + last[1..];
    assert u + [m] + last[1..] == u + last;
  }

  // ---- The way through a conductor -----------------------------------------------------------

  /** One child on the way: the link down to it, the messages inside it, the link up from it. */
  datatype Stage<T> = Stage(down: seq<T>, inside: Gaps<T>, up: seq<T>)

  function StageGaps<T>(s: Stage<T>): (r: Gaps<T>)
    ensures |r| == |s.inside|
  {
    Join([s.down], Join(s.inside, [s.up]))
  }

  /** All children in the order of travel, with the mailbox entries waiting before each and after the last. */
  function Line<T>(mails: seq<seq<T>>, stages: seq<Stage<T>>): Gaps<T>
    requires |mails| == |stages| + 1
  {
    if stages == [] then [mails[0]] else
    Join(Join([mails[0]], StageGaps(stages[0])), Line(mails[1..], stages[1..]))
  }

  /** The number of gaps that begin before stage `p`. */
  function Offset<T>(stages: seq<Stage<T>>, p: nat): nat
    requires p <= |stages|
  {
    if p == 0 then 0 else |stages[0].inside| - 1 + Offset(stages[1..], p - 1)
  }

  lemma {:induction false} OffsetNext<T>(stages: seq<Stage<T>>, p: nat)
    requires p < |stages|
    ensures Offset(stages, p + 1) == Offset(stages, p) + |stages[p].inside| - 1
  {
    if p > 0 {
      OffsetNext(stages[1..], p - 1);
    }
  }

  lemma {:induction false} LineLength<T>(mails: seq<seq<T>>, stages: seq<Stage<T>>)
    requires |mails| == |stages| + 1
    ensures |Line(mails, stages)| == Offset(stages, |stages|) + 1
  {
    if stages != [] {
      LineLength(mails[1..], stages[1..]);
      HeadLength(mails[0], stages[0]);
    }
  }

  lemma HeadLength<T>(mail: seq<T>, s: Stage<T>)
    ensures |Join([mail], StageGaps(s))| == |s.inside|
  {
  }

  /** A message handed from the end of one stretch to the beginning of the next stays where it is. */
  lemma HandOver<T>(g: Gaps<T>, h: Gaps<T>, m: T)
    requires AtHead(g, |g| - 1, m)
    ensures Join(Pop(g, |g| - 1), Append(h, 0, m)) == Join(g, h)
  {
    var last := g[|g| - 1];
    assert h[0] + [m] + last[1..] == h[0] + last;
  }

  /** A new entry in the first mailbox place enters the line behind everything else. */
  lemma {:induction false} LineTake<T>(mails: seq<seq<T>>, stages: seq<Stage<T>>, m: T)
    requires |mails| == |stages| + 1
    ensures Line(mails[0 := mails[0] + [m]], stages) == Append(Line(mails, stages), 0, m)
  {
    var mails' := mails[0 := mails[0] + [m]];
    if stages != [] {
      assert mails'[1..] == mails[1..];
      JoinAppendLeft([mails[0]], StageGaps(stages[0]), 0, m);
      JoinAppendLeft(Join([mails[0]], StageGaps(stages[0])), Line(mails[1..], stages[1..]), 0, m);
    }
  }

  /** The oldest entry in the last mailbox place is the oldest message of the last gap. */
  lemma {:induction false} LineGive<T>(mails: seq<seq<T>>, stages: seq<Stage<T>>, m: T, rest: seq<T>)
    requires |mails| == |stages| + 1 && mails[|stages|] == [m] + rest
    ensures var line := Line(mails, stages);
      AtHead(line, |line| - 1, m) && Line(mails[|stages| := rest], stages) == Pop(line, |line| - 1)
  {
    if stages == [] {
      assert ([m] + rest)[1..] == rest;
    } else {
      LineGive(mails[1..], stages[1..], m, rest);
      LineRestTail(mails, stages, rest);
      LastPop(Join([mails[0]], StageGaps(stages[0])), Line(mails[1..], stages[1..]), m);
    }
  }

  lemma LineRestTail<T>(mails: seq<seq<T>>, stages: seq<Stage<T>>, rest: seq<T>)
    requires |mails| == |stages| + 1 && stages != []
    ensures Line(mails, stages) == Join(Join([mails[0]], StageGaps(stages[0])), Line(mails[1..], stages[1..]))
    ensures Line(mails[|stages| := rest], stages)
         == Join(Join([mails[0]], StageGaps(stages[0])), Line(mails[1..][|stages[1..]| := rest], stages[1..]))
  {
    assert mails[|stages| := rest][1..] == mails[1..][|stages[1..]| := rest];
  }

  /** Handing a message from the mailbox to the link down to stage `p` changes nothing. */
  lemma {:induction false} LineRoute<T>(mails: seq<seq<T>>, stages: seq<Stage<T>>, p: nat, m: T, rest: seq<T>)
    requires |mails| == |stages| + 1 && p < |stages| && mails[p] == [m] + rest
    ensures Line(mails[p := rest], stages[p := stages[p].(down := stages[p].down + [m])]) == Line(mails, stages)
  {
    var mails', stages' := mails[p := rest], stages[p := stages[p].(down := stages[p].down + [m])];
    if p == 0 {
      assert mails'[1..] == mails[1..] && stages'[1..] == stages[1..];
      var s := stages[0];
      JoinAppendLeft([s.down], Join(s.inside, [s.up]), 0, m);
      assert ([m] + rest)[1..] == rest;
      HandOver([mails[0]], StageGaps(s), m);
    } else {
      assert mails'[1..] == mails[1..][p - 1 := rest];
      assert stages'[1..] == stages[1..][p - 1 := stages'[p]];
      LineRoute(mails[1..], stages[1..], p - 1, m, rest);
    }
  }

  /** Handing a message from the link up from stage `p` to the mailbox changes nothing. */
  lemma {:induction false} LinePump<T>(mails: seq<seq<T>>, stages: seq<Stage<T>>, p: nat, m: T, rest: seq<T>)
    requires |mails| == |stages| + 1 && p < |stages| && stages[p].up == [m] + rest
    ensures Line(mails[p + 1 := mails[p + 1] + [m]], stages[p := stages[p].(up := rest)]) == Line(mails, stages)
  {
    var mails', stages' := mails[p + 1 := mails[p + 1] + [m]], stages[p := stages[p].(up := rest)];
    if p == 0 {
      var head, tail := Join([mails[0]], StageGaps(stages[0])), Line(mails[1..], stages[1..]);
      UpPopped([mails[0]], stages[0], m, rest);
      assert mails'[1..] == mails[1..][0 := mails[1..][0] + [m]] && stages'[1..] == stages[1..];
      LineTake(mails[1..], stages[1..], m);
      HandOver(head, tail, m);
    } else {
      assert mails'[1..] == mails[1..][p := mails'[p + 1]];
      assert stages'[1..] == stages[1..][p - 1 := stages'[p]];
      LinePump(mails[1..], stages[1..], p - 1, m, rest);
    }
  }

  lemma {:induction false} UpPopped<T>(before: Gaps<T>, s: Stage<T>, m: T, rest: seq<T>)
    requires s.up == [m] + rest
    ensures var head := Join(before, StageGaps(s));
      AtHead(head, |head| - 1, m) && Join(before, StageGaps(s.(up := rest))) == Pop(head, |head| - 1)
  {
    var tail := Join(s.inside, [s.up]);
    var last := s.inside[|s.inside| - 1];
    assert ([m] + rest + last)[1..] == rest + last;
    assert Join(s.inside, [rest]) == Pop(tail, |tail| - 1);
    JoinPopRight([s.down], tail, |tail| - 1, m);
    JoinPopRight(before, StageGaps(s), |tail| - 1, m);
  }

  /** A change of one stage is the same change, shifted, of the line. */
  lemma {:induction false} LineChange<T>(mails: seq<seq<T>>, stages: seq<Stage<T>>, p: nat, s: Stage<T>, c: Change<T>)
    requires |mails| == |stages| + 1 && p < |stages|
    requires Possible(StageGaps(stages[p]), c) && StageGaps(s) == After(StageGaps(stages[p]), c)
    ensures var line, c' := Line(mails, stages), Shift(c, Offset(stages, p));
      Possible(line, c') && Line(mails, stages[p := s]) == After(line, c')
  {
    var tail, stages' := Line(mails[1..], stages[1..]), stages[p := s];
    var head := Join([mails[0]], StageGaps(stages[0]));
    if p == 0 {
      assert stages'[1..] == stages[1..];
      ChangeBehind([mails[0]], StageGaps(stages[0]), c);
      ChangeBefore(head, tail, c);
      assert Shift(c, 0) == c;
    } else {
      assert stages'[1..] == stages[1..][p - 1 := s];
      LineChange(mails[1..], stages[1..], p - 1, s, c);
      var c1 := Shift(c, Offset(stages[1..], p - 1));
      ChangeBehind(head, tail, c1);
      assert Shift(c1, |head| - 1) == Shift(c, Offset(stages, p));
    }
  }
}
