// What the engine guarantees over whole conversations, for every script.

module ElizaRuns {
  import opened Outcomes
  import opened ElizaMatcher
  import opened ElizaTemplate
  import opened ElizaEngine

  /** The state after a conversation. */
  function Converse(script: Script, s: State, inputs: seq<Input>): (r: State)
    requires InRange(script, s.indices)
    ensures InRange(script, r.indices)
  {
    if inputs == [] then s else Respond(script, Converse(script, s, inputs[..|inputs| - 1]), inputs[|inputs| - 1]).state
  }

  // ---- ELIZA always answers ------------------------------------------------------------------

  ghost predicate NoRepeats(names: seq<string>) {
    forall i, j :: 0 <= i < j < |names| ==> names[i] != names[j]
  }

  /** Of the keywords visited, those that were applied. */
  function FirstTen(visited: seq<string>): (r: seq<string>)
    ensures |r| <= MAX_DEPTH && r <= visited
  {
    if |visited| > MAX_DEPTH then visited[..MAX_DEPTH] else visited
  }

  lemma NoRepeatsAppend(names: seq<string>, name: string)
    requires NoRepeats(names) && name !in names
    ensures NoRepeats(names + [name])
  {
  }

  lemma {:induction false} TransformAppliesNone(script: Script, s: State, name: string, words: seq<string>, i: nat)
    requires InRange(script, s.indices) && name in script.keywords && i <= |script.keywords[name].transforms|
    ensures var s' := TryTransforms(script, s, name, words, i).state;
      && s'.applied == s.applied && s'.limit == s.limit
      && s'.memories == s.memories && s'.created == s.created && s'.recalled == s.recalled
    decreases |script.keywords[name].transforms| - i
  {
    if i < |script.keywords[name].transforms| {
      TransformAppliesNone(script, s, name, words, i + 1);
    }
  }

  lemma {:induction false} KeywordApplies(script: Script, s: State, name: string, words: seq<string>, visited: seq<string>, base: seq<string>)
    requires InRange(script, s.indices) && NoRepeats(visited) && s.applied == base + FirstTen(visited)
    ensures var a := ApplyKeyword(script, s, name, words, visited);
      && visited <= a.visited && NoRepeats(a.visited) && a.state.applied == base + FirstTen(a.visited)
      && a.state.limit == s.limit && a.state.memories == s.memories
      && a.state.created == s.created && a.state.recalled == s.recalled
    decreases if |visited| > MAX_DEPTH then 0 else MAX_DEPTH + 1 - |visited|
  {
    if name !in visited {
      var seen := visited + [name];
      NoRepeatsAppend(visited, name);
      if |seen| <= MAX_DEPTH {
        var s' := s.(applied := s.applied + [name]);
        assert s'.applied == base + FirstTen(seen);
        if name in script.keywords {
          TransformAppliesNone(script, s', name, words, 0);
        }
        var t := ApplyTransform(script, s', name, words);
        if t.result.Follow? {
          KeywordApplies(script, t.state, t.result.target, words, seen, base);
        }
      } else {
        assert FirstTen(seen) == FirstTen(visited);
      }
    }
  }

  lemma {:induction false} StackApplies(script: Script, s: State, stack: seq<Ranked>, words: seq<string>, visited: seq<string>, base: seq<string>)
    requires InRange(script, s.indices) && NoRepeats(visited) && s.applied == base + FirstTen(visited)
    ensures var a := ApplyStack(script, s, stack, words, visited);
      && visited <= a.visited && NoRepeats(a.visited) && a.state.applied == base + FirstTen(a.visited)
      && a.state.limit == s.limit && a.state.memories == s.memories
      && a.state.created == s.created && a.state.recalled == s.recalled
    decreases |stack|
  {
    if stack != [] {
      KeywordApplies(script, s, stack[0].name, words, visited, base);
      var a := ApplyKeyword(script, s, stack[0].name, words, visited);
      if a.response.None? {
        StackApplies(script, a.state, stack[1..], words, a.visited, base);
      }
    }
  }

  /** One answer applies at most ten keywords of the input's, no two the same, and then at most ten for NONE. */
  ghost predicate TwoPhases(before: seq<string>, after: seq<string>, first: seq<string>, second: seq<string>) {
    && after == before + first + second
    && |first| <= MAX_DEPTH && NoRepeats(first) && |second| <= MAX_DEPTH && NoRepeats(second)
  }

  lemma {:induction false} NoneApplies(script: Script, s: State, words: seq<string>) returns (second: seq<string>)
    requires InRange(script, s.indices)
    ensures var r := ApplyNone(script, s, words);
      && r.state.applied == s.applied + second && |second| <= MAX_DEPTH && NoRepeats(second)
      && r.state.limit == s.limit && r.state.memories == s.memories
      && r.state.created == s.created && r.state.recalled == s.recalled
  {
    assert s.applied + FirstTen([]) == s.applied;
    KeywordApplies(script, s, NONE, words, [], s.applied);
    second := FirstTen(ApplyKeyword(script, s, NONE, words, []).visited);
  }

  lemma {:induction false} StackInTwoPhases(script: Script, s: State, words: seq<string>, stack: seq<Ranked>)
    returns (first: seq<string>, second: seq<string>)
    requires InRange(script, s.indices)
    ensures var a := ApplyStack(script, s, stack, words, []);
      TwoPhases(s.applied, if a.response.Some? then a.state.applied else ApplyNone(script, a.state, words).state.applied, first, second)
  {
    assert s.applied + FirstTen([]) == s.applied;
    StackApplies(script, s, stack, words, [], s.applied);
    var a := ApplyStack(script, s, stack, words, []);
    first, second := FirstTen(a.visited), [];
    if a.response.None? {
      second := NoneApplies(script, a.state, words);
    } else {
      assert s.applied + first + [] == s.applied + first;
    }
  }

  /** Every input is answered, and no answer is long in coming, whatever links and gotos the script has. */
  lemma {:induction false} AnswersInTwoPhases(script: Script, s: State, input: Input) returns (first: seq<string>, second: seq<string>)
    requires InRange(script, s.indices)
    ensures TwoPhases(s.applied, Respond(script, s, input).state.applied, first, second)
  {
    if input.Line? && input.words != [] {
      var s' := s.(limit := s.limit % 4 + 1);
      first, second := ProcessInTwoPhases(script, s', input.words);
      assert Respond(script, s, input) == ProcessInput(script, s', input.words) && s'.applied == s.applied;
    } else {
      first, second := [], [];
      NothingApplied(script, s, input);
    }
  }

  lemma NothingApplied(script: Script, s: State, input: Input)
    requires InRange(script, s.indices) && (input.Line? ==> input.words == [])
    ensures Respond(script, s, input).state.applied == s.applied + [] + []
  {
    assert s.applied + [] == s.applied;
  }

  lemma {:induction false} ProcessInTwoPhases(script: Script, s: State, original: seq<string>)
    returns (first: seq<string>, second: seq<string>)
    requires InRange(script, s.indices)
    ensures TwoPhases(s.applied, ProcessInput(script, s, original).state.applied, first, second)
  {
    first, second := [], [];
    assert s.applied + [] == s.applied;
    var words, stack := Repaired(script, original), HighestFirst(Keywords(script, original));
    if stack != [] {
      first, second := StackInTwoPhases(script, Remember(script, s, words), words, stack);
    } else if !(s.limit == 4 && s.memories != []) {
      second := NoneApplies(script, s, words);
    }
  }

  // ---- Which transform fires -----------------------------------------------------------------

  predicate Matches(script: Script, transform: Transform, words: seq<string>) {
    FirstSplit(script.lex, transform.decomposition, words).Some?
  }

  /** A transform that matches but has neither rules nor a link to follow is passed over. */
  predicate LeadsOn(script: Script, keyword: Keyword, transform: Transform, words: seq<string>) {
    Matches(script, transform, words) && (transform.rules != [] || keyword.link.Some?)
  }

  /** A rule fires if and only if the first transform that leads on has rules; it is one of that transform, and
      otherwise the link is followed if there is one. */
  lemma {:induction false} FirstTransformFires(script: Script, s: State, name: string, words: seq<string>, i: nat)
    requires InRange(script, s.indices) && name in script.keywords && i <= |script.keywords[name].transforms|
    ensures var keyword, t := script.keywords[name], TryTransforms(script, s, name, words, i);
      if exists j :: IsFirstToLead(script, keyword, words, i, j) && keyword.transforms[j].rules != [] then
        exists j :: IsFirstToLead(script, keyword, words, i, j)
                    && t.state.firings == s.firings + [Firing(Key(name, j), IndexOf(s.indices, Key(name, j)))]
      else t.state == s && t.result == FollowLink(keyword)
    decreases |script.keywords[name].transforms| - i
  {
    var keyword := script.keywords[name];
    if i < |keyword.transforms| {
      if LeadsOn(script, keyword, keyword.transforms[i], words) {
        assert IsFirstToLead(script, keyword, words, i, i);
      } else {
        FirstTransformFires(script, s, name, words, i + 1);
        forall j ensures IsFirstToLead(script, keyword, words, i, j) <==> IsFirstToLead(script, keyword, words, i + 1, j) {
        }
      }
    }
  }

  predicate IsFirstToLead(script: Script, keyword: Keyword, words: seq<string>, i: int, j: int) {
    0 <= i <= j < |keyword.transforms| && LeadsOn(script, keyword, keyword.transforms[j], words)
    && forall k :: i <= k < j ==> !LeadsOn(script, keyword, keyword.transforms[k], words)
  }

  // ---- Memories ------------------------------------------------------------------------------

  /** Memories are recalled in the order they were made, each at most once, and none is lost. */
  predicate MemoryLedger(s: State) {
    s.created == s.recalled + s.memories && s.limit <= 4
  }

  /** Something is recalled only as the answer to every fourth input, and only if that has no keyword. */
  predicate RecalledRightly(s: State, r: Reply) {
    r.state.recalled == s.recalled || (r.state.recalled == s.recalled + [r.response] && r.state.limit == 4)
  }

  lemma {:induction false} RespondKeepsMemories(script: Script, s: State, input: Input)
    requires InRange(script, s.indices) && MemoryLedger(s)
    ensures var r := Respond(script, s, input);
      && MemoryLedger(r.state) && RecalledRightly(s, r)
      && (r.state.recalled != s.recalled ==> s.limit == 3 && input.Line? && Keywords(script, input.words) == [])
  {
    var counted := s.(limit := s.limit % 4 + 1);
    if input.Line? && input.words != [] {
      ProcessKeepsMemories(script, counted, input.words);
      var r := ProcessInput(script, counted, input.words);
      assert Respond(script, s, input) == r;
      assert RecalledRightly(s, r);
    } else {
      assert Respond(script, s, input).state == if input.Blank? then s else counted;
    }
  }

  lemma {:induction false} ProcessKeepsMemories(script: Script, s: State, original: seq<string>)
    requires InRange(script, s.indices) && MemoryLedger(s)
    ensures var r := ProcessInput(script, s, original);
      && MemoryLedger(r.state) && RecalledRightly(s, r) && r.state.limit == s.limit
      && (r.state.recalled != s.recalled ==> Keywords(script, original) == [])
  {
    var words, stack := Repaired(script, original), HighestFirst(Keywords(script, original));
    SortKeepsAll(Keywords(script, original));
    if stack != [] {
      RememberKeepsMemories(script, s, words);
      StackKeepsMemories(script, Remember(script, s, words), words, stack);
    } else if s.limit == 4 && s.memories != [] {
      assert s.recalled + s.memories == s.recalled + [s.memories[0]] + s.memories[1..];
    } else {
      var second := NoneApplies(script, s, words);
    }
  }

  lemma RememberKeepsMemories(script: Script, s: State, words: seq<string>)
    requires MemoryLedger(s)
    ensures var s' := Remember(script, s, words); MemoryLedger(s') && s'.recalled == s.recalled && s'.limit == s.limit
  {
    match MemoryOf(script, words)
    case None =>
    case Some(memory) => assert s.recalled + (s.memories + [memory]) == s.recalled + s.memories + [memory];
  }

  lemma {:induction false} StackKeepsMemories(script: Script, s: State, words: seq<string>, stack: seq<Ranked>)
    requires InRange(script, s.indices)
    ensures var a := ApplyStack(script, s, stack, words, []);
      var s' := if a.response.Some? then a.state else ApplyNone(script, a.state, words).state;
      s'.limit == s.limit && s'.memories == s.memories && s'.created == s.created && s'.recalled == s.recalled
  {
    assert s.applied + FirstTen([]) == s.applied;
    StackApplies(script, s, stack, words, [], s.applied);
    var second := NoneApplies(script, ApplyStack(script, s, stack, words, []).state, words);
  }

  lemma {:induction false} ConversationKeepsMemories(script: Script, start: map<Key, nat>, inputs: seq<Input>)
    requires InRange(script, start)
    ensures MemoryLedger(Converse(script, State(0, start, [], [], [], [], []), inputs))
  {
    if inputs != [] {
      var init := inputs[..|inputs| - 1];
      ConversationKeepsMemories(script, start, init);
      RespondKeepsMemories(script, Converse(script, State(0, start, [], [], [], [], []), init), inputs[|inputs| - 1]);
    }
  }

  // ---- The order of keywords -----------------------------------------------------------------

  predicate Descending(stack: seq<Ranked>) {
    forall i :: 0 < i < |stack| ==> stack[i - 1].precedence >= stack[i].precedence
  }

  /** The keywords of one precedence, in order. */
  function OfPrecedence(stack: seq<Ranked>, p: nat): seq<Ranked> {
    if stack == [] then [] else
    OfPrecedence(stack[..|stack| - 1], p) + if stack[|stack| - 1].precedence == p then [stack[|stack| - 1]] else []
  }

  lemma {:induction false} InsertDescends(stack: seq<Ranked>, x: Ranked)
    requires Descending(stack)
    ensures Descending(Insert(stack, x)) && Insert(stack, x) != []
    ensures var last := Insert(stack, x)[|Insert(stack, x)| - 1]; last == x || (stack != [] && last == stack[|stack| - 1])
  {
    if stack != [] && stack[|stack| - 1].precedence < x.precedence {
      InsertDescends(stack[..|stack| - 1], x);
    }
  }

  lemma {:induction false} InsertIsStable(stack: seq<Ranked>, x: Ranked, p: nat)
    requires Descending(stack)
    ensures OfPrecedence(Insert(stack, x), p) == OfPrecedence(stack, p) + if x.precedence == p then [x] else []
  {
    OneMoreRanked(stack, x, p);
    if stack != [] && stack[|stack| - 1].precedence < x.precedence {
      var init, last := stack[..|stack| - 1], stack[|stack| - 1];
      InsertIsStable(init, x, p);
      OneMoreRanked(Insert(init, x), last, p);
      assert OfPrecedence(init, p) + [] == OfPrecedence(init, p);
    }
  }

  lemma OneMoreRanked(stack: seq<Ranked>, x: Ranked, p: nat)
    ensures OfPrecedence(stack + [x], p) == OfPrecedence(stack, p) + if x.precedence == p then [x] else []
  {
    assert (stack + [x])[..|stack|] == stack;
  }

  /** Keywords are tried by falling precedence, those of equal precedence in the order of the text. */
  lemma {:induction false} SortIsStable(stack: seq<Ranked>, p: nat)
    ensures Descending(HighestFirst(stack))
    ensures OfPrecedence(HighestFirst(stack), p) == OfPrecedence(stack, p)
  {
    if stack != [] {
      var init, last := stack[..|stack| - 1], stack[|stack| - 1];
      SortIsStable(init, p);
      InsertDescends(HighestFirst(init), last);
      InsertIsStable(HighestFirst(init), last, p);
    }
  }

  lemma {:induction false} SortKeepsAll(stack: seq<Ranked>)
    ensures HighestFirst(stack) == [] <==> stack == []
  {
    if stack != [] {
      SortIsStable(stack[..|stack| - 1], 0);
      InsertDescends(HighestFirst(stack[..|stack| - 1]), stack[|stack| - 1]);
    }
  }

  // ---- Fair rotation -------------------------------------------------------------------------

  /** The rules a transform has fired, in order. */
  function Fired(key: Key, firings: seq<Firing>): seq<nat> {
    if firings == [] then [] else
    Fired(key, firings[..|firings| - 1]) + if firings[|firings| - 1].key == key then [firings[|firings| - 1].rule] else []
  }

  lemma {:induction false} FiredOne(key: Key, firings: seq<Firing>, f: Firing)
    ensures Fired(key, firings + [f]) == Fired(key, firings) + if f.key == key then [f.rule] else []
  {
    assert (firings + [f])[..|firings|] == firings;
  }

  /** The j-th firing of a transform with `n` rules used rule `start + j`, counted round, and the next one is stored. */
  ghost predicate Rotates(n: nat, start: nat, fired: seq<nat>, next: nat) {
    && n > 0
    && (forall j :: 0 <= j < |fired| ==> fired[j] == (start + j) % n)
    && next == (start + |fired|) % n
  }

  lemma {:induction false} RotatesOnce(n: nat, start: nat, fired: seq<nat>, next: nat)
    requires Rotates(n, start, fired, next)
    ensures Rotates(n, start, fired + [next], (next + 1) % n)
  {
    var k := start + |fired|;
    Next(n, k);
  }

  lemma Next(n: nat, k: nat)
    requires n > 0
    ensures (k % n + 1) % n == (k + 1) % n
  {
    var q, r := k / n, k % n;
    assert k == q * n + r;
    if r + 1 == n {
      OneTimeMore(q, n);
      Remainder(n, k + 1, q + 1, 0);
      Remainder(n, n, 1, 0);
    } else {
      Remainder(n, k + 1, q, r + 1);
      Remainder(n, r + 1, 0, r + 1);
    }
  }

  lemma OneTimeMore(q: nat, n: nat)
    ensures (q + 1) * n == q * n + n
  {
  }

  lemma Remainder(n: nat, a: nat, q: nat, r: nat)
    requires r < n && a == q * n + r
    ensures a % n == r
  {
    var q', r' := a / n, a % n;
    assert a == q' * n + r';
    if q < q' {
      Grows(q, q', n);
    } else if q' < q {
      Grows(q', q, n);
    }
  }

  lemma Grows(p: nat, q: nat, n: nat)
    requires p < q
    ensures q * n >= p * n + n
  {
    assert q * n == (p + 1) * n + (q - p - 1) * n;
  }

  ghost predicate KeyRotates(script: Script, start: map<Key, nat>, indices: map<Key, nat>, firings: seq<Firing>, key: Key)
    requires HasRules(script, key)
  {
    Rotates(|RulesOf(script, key)|, IndexOf(start, key), Fired(key, firings), IndexOf(indices, key))
  }

  ghost predicate RotateAll(script: Script, start: map<Key, nat>, indices: map<Key, nat>, firings: seq<Firing>) {
    forall key :: HasRules(script, key) ==> KeyRotates(script, start, indices, firings, key)
  }

  ghost predicate AllRotate(script: Script, start: map<Key, nat>, s: State) {
    RotateAll(script, start, s.indices, s.firings)
  }

  lemma OwnKeyRotates(script: Script, start: map<Key, nat>, s: State, key: Key, components: seq<string>)
    requires HasRules(script, key) && InRange(script, s.indices) && KeyRotates(script, start, s.indices, s.firings, key)
    ensures var s' := Fire(script, s, key, components).state; KeyRotates(script, start, s'.indices, s'.firings, key)
  {
    var s', n, index := Fire(script, s, key, components).state, |RulesOf(script, key)|, IndexOf(s.indices, key);
    FireAdvances(script, s, key, components);
    RotatesOnce(n, IndexOf(start, key), Fired(key, s.firings), index);
    SameRotates(n, IndexOf(start, key), Fired(key, s.firings) + [index], (index + 1) % n,
                Fired(key, s'.firings), IndexOf(s'.indices, key));
  }

  lemma FireAdvances(script: Script, s: State, key: Key, components: seq<string>)
    requires HasRules(script, key) && InRange(script, s.indices)
    ensures var s', index := Fire(script, s, key, components).state, IndexOf(s.indices, key);
      && Fired(key, s'.firings) == Fired(key, s.firings) + [index]
      && IndexOf(s'.indices, key) == (index + 1) % |RulesOf(script, key)|
  {
    FiredOne(key, s.firings, Firing(key, IndexOf(s.indices, key)));
  }

  lemma SameRotates(n: nat, start: nat, fired: seq<nat>, next: nat, fired': seq<nat>, next': nat)
    requires Rotates(n, start, fired, next) && fired' == fired && next' == next
    ensures Rotates(n, start, fired', next')
  {
  }

  lemma OtherKeyRotates(script: Script, start: map<Key, nat>, s: State, key: Key, components: seq<string>, other: Key)
    requires HasRules(script, key) && InRange(script, s.indices) && key != other
    requires HasRules(script, other) && KeyRotates(script, start, s.indices, s.firings, other)
    ensures var s' := Fire(script, s, key, components).state; KeyRotates(script, start, s'.indices, s'.firings, other)
  {
    var s' := Fire(script, s, key, components).state;
    FiresElsewhere(script, s, key, components, other);
    SameRotates(|RulesOf(script, other)|, IndexOf(start, other), Fired(other, s.firings), IndexOf(s.indices, other),
                Fired(other, s'.firings), IndexOf(s'.indices, other));
  }

  lemma FiresElsewhere(script: Script, s: State, key: Key, components: seq<string>, other: Key)
    requires HasRules(script, key) && InRange(script, s.indices) && key != other
    ensures var s' := Fire(script, s, key, components).state;
      Fired(other, s'.firings) == Fired(other, s.firings) && IndexOf(s'.indices, other) == IndexOf(s.indices, other)
  {
    FiredOne(other, s.firings, Firing(key, IndexOf(s.indices, key)));
    assert Fired(other, s.firings) + [] == Fired(other, s.firings);
  }

  lemma {:induction false} FireRotates(script: Script, start: map<Key, nat>, s: State, key: Key, components: seq<string>)
    requires HasRules(script, key) && InRange(script, s.indices) && AllRotate(script, start, s)
    ensures AllRotate(script, start, Fire(script, s, key, components).state)
  {
    OwnKeyRotates(script, start, s, key, components);
    var s' := Fire(script, s, key, components).state;
    forall other | HasRules(script, other) && other != key ensures KeyRotates(script, start, s'.indices, s'.firings, other) {
      OtherKeyRotates(script, start, s, key, components, other);
    }
  }

  lemma {:induction false} TransformRotates(script: Script, start: map<Key, nat>, s: State, name: string, words: seq<string>, i: nat)
    requires InRange(script, s.indices) && AllRotate(script, start, s)
    requires name in script.keywords && i <= |script.keywords[name].transforms|
    ensures AllRotate(script, start, TryTransforms(script, s, name, words, i).state)
    decreases |script.keywords[name].transforms| - i
  {
    if i < |script.keywords[name].transforms| {
      TransformRotates(script, start, s, name, words, i + 1);
      var transform := script.keywords[name].transforms[i];
      var components := Answer(words, [], FirstSplit(script.lex, transform.decomposition, words));
      if components.Some? && transform.rules != [] {
        FireRotates(script, start, s, Key(name, i), components.value);
      }
    }
  }

  lemma {:induction false} KeywordRotates(script: Script, start: map<Key, nat>, s: State, name: string, words: seq<string>, visited: seq<string>)
    requires InRange(script, s.indices) && AllRotate(script, start, s)
    ensures AllRotate(script, start, ApplyKeyword(script, s, name, words, visited).state)
    decreases if |visited| > MAX_DEPTH then 0 else MAX_DEPTH + 1 - |visited|
  {
    var seen := visited + [name];
    if name !in visited && |seen| <= MAX_DEPTH {
      var s' := s.(applied := s.applied + [name]);
      if name in script.keywords {
        TransformRotates(script, start, s', name, words, 0);
      }
      var t := ApplyTransform(script, s', name, words);
      if t.result.Follow? {
        KeywordRotates(script, start, t.state, t.result.target, words, seen);
      }
    }
  }

  lemma {:induction false} StackRotates(script: Script, start: map<Key, nat>, s: State, stack: seq<Ranked>, words: seq<string>, visited: seq<string>)
    requires InRange(script, s.indices) && AllRotate(script, start, s)
    ensures AllRotate(script, start, ApplyStack(script, s, stack, words, visited).state)
    decreases |stack|
  {
    if stack != [] {
      KeywordRotates(script, start, s, stack[0].name, words, visited);
      var a := ApplyKeyword(script, s, stack[0].name, words, visited);
      StackRotates(script, start, a.state, stack[1..], words, a.visited);
    }
  }

  lemma {:induction false} RespondRotates(script: Script, start: map<Key, nat>, s: State, input: Input)
    requires InRange(script, s.indices) && AllRotate(script, start, s)
    ensures AllRotate(script, start, Respond(script, s, input).state)
  {
    var counted := s.(limit := s.limit % 4 + 1);
    assert AllRotate(script, start, counted);
    if input.Line? && input.words != [] {
      ProcessRotates(script, start, counted, input.words);
      assert Respond(script, s, input) == ProcessInput(script, counted, input.words);
    } else {
      assert Respond(script, s, input).state == if input.Blank? then s else counted;
    }
  }

  lemma {:induction false} ProcessRotates(script: Script, start: map<Key, nat>, s: State, original: seq<string>)
    requires InRange(script, s.indices) && AllRotate(script, start, s)
    ensures AllRotate(script, start, ProcessInput(script, s, original).state)
  {
    var words, stack := Repaired(script, original), HighestFirst(Keywords(script, original));
    if stack == [] {
      KeywordRotates(script, start, s, NONE, words, []);
    } else {
      var remembered := Remember(script, s, words);
      assert AllRotate(script, start, remembered);
      StackRotates(script, start, remembered, stack, words, []);
      KeywordRotates(script, start, ApplyStack(script, remembered, stack, words, []).state, NONE, words, []);
    }
  }

  /** Over a whole conversation, however keywords interleave, each transform goes round its rules in order. */
  lemma {:induction false} ConversationRotates(script: Script, start: map<Key, nat>, inputs: seq<Input>)
    requires InRange(script, start)
    ensures AllRotate(script, start, Converse(script, State(0, start, [], [], [], [], []), inputs))
  {
    if inputs == [] {
      forall key | HasRules(script, key)
        ensures KeyRotates(script, start, start, [], key)
      {
        Remainder(|RulesOf(script, key)|, IndexOf(start, key), 0, IndexOf(start, key));
      }
    } else {
      var init := inputs[..|inputs| - 1];
      ConversationRotates(script, start, init);
      RespondRotates(script, start, Converse(script, State(0, start, [], [], [], [], []), init), inputs[|inputs| - 1]);
    }
  }

  /** Firing `j`, and no other from `k` on until all rules have had their turn, uses the rule. */
  ghost predicate OnceFrom(n: nat, fired: seq<nat>, k: nat, rule: nat, j: nat) {
    k <= j < k + n <= |fired| && fired[j] == rule && forall i :: k <= i < k + n && fired[i] == rule ==> i == j
  }

  lemma {:induction false} EachRuleOnce(n: nat, start: nat, fired: seq<nat>, next: nat, k: nat, rule: nat) returns (j: nat)
    requires Rotates(n, start, fired, next) && k + n <= |fired| && rule < n
    ensures OnceFrom(n, fired, k, rule, j)
  {
    var a := FindRule(n, start + k, rule);
    j := a - start;
    assert fired[j] == rule;
    forall i | k <= i < k + n && fired[i] == rule ensures i == j {
      SameRemainder(n, start + i, start + j);
    }
  }

  /** In every conversation, any `n` consecutive firings of a transform with `n` rules use each rule exactly once. */
  lemma {:induction false} RoundsAreFair(script: Script, start: map<Key, nat>, inputs: seq<Input>, key: Key, k: nat, rule: nat) returns (j: nat)
    requires InRange(script, start) && HasRules(script, key)
    requires var fired := Fired(key, Converse(script, State(0, start, [], [], [], [], []), inputs).firings);
      k + |RulesOf(script, key)| <= |fired| && rule < |RulesOf(script, key)|
    ensures var fired := Fired(key, Converse(script, State(0, start, [], [], [], [], []), inputs).firings);
      OnceFrom(|RulesOf(script, key)|, fired, k, rule, j)
  {
    ConversationRotates(script, start, inputs);
    var s := Converse(script, State(0, start, [], [], [], [], []), inputs);
    assert KeyRotates(script, start, s.indices, s.firings, key);
    j := EachRuleOnce(|RulesOf(script, key)|, IndexOf(start, key), Fired(key, s.firings), IndexOf(s.indices, key), k, rule);
  }

  /** The next number with this remainder. */
  lemma FindRule(n: nat, from: nat, rule: nat) returns (a: nat)
    requires rule < n
    ensures from <= a < from + n && a % n == rule
  {
    var q, r := from / n, from % n;
    assert from == q * n + r;
    if r <= rule {
      a := from + (rule - r);
      Remainder(n, a, q, rule);
    } else {
      a := from + (n - r) + rule;
      assert a == (q + 1) * n + rule;
      Remainder(n, a, q + 1, rule);
    }
  }

  lemma SameRemainder(n: nat, a: nat, b: nat)
    requires n > 0 && a % n == b % n && a < b + n && b < a + n
    ensures a == b
  {
    var p, q := a / n, b / n;
    assert a == p * n + a % n && b == q * n + b % n;
    if p > q {
      Grows(q, p, n);
    } else if q > p {
      Grows(p, q, n);
    }
  }
}
