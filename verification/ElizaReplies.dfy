// ELIZA's replies: what it hears, which keywords it tries and in what order, what it remembers and recalls, and what
// it says in the end.

module ElizaReplies {
  import opened Outcomes
  import opened ElizaMatcher
  import opened ElizaTemplate
  import opened ElizaEngine
  import opened ElizaRuns
  import opened ElizaAnswers

  // ---- Trying keywords in turn ---------------------------------------------------------------

  /** The keywords of a stack, tried in turn, lead along this path to this response: the first that responds has the
      last word, and one visited before is passed over. */
  ghost predicate Tries(script: Script, indices: map<Key, nat>, words: seq<string>, visited: seq<string>, stack: seq<Ranked>,
                        path: seq<string>, response: Option<string>)
    decreases |stack|, 1
  {
    if stack == [] then path == [] && response == None else
    exists k: nat, r: Option<string> :: TriesFirst(script, indices, words, visited, stack, path, response, k, r)
  }

  /** The first keyword leads along the first `k` of the path to `r`. */
  ghost predicate TriesFirst(script: Script, indices: map<Key, nat>, words: seq<string>, visited: seq<string>, stack: seq<Ranked>,
                             path: seq<string>, response: Option<string>, k: nat, r: Option<string>)
    requires stack != []
    decreases |stack|, 0
  {
    && k <= |path| && Leads(script, indices, words, visited, stack[0].name, path[..k], r)
    && if r.Some? then k == |path| && response == r
       else Tries(script, indices, words, visited + path[..k], stack[1..], path[k..], response)
  }

  ghost predicate Within(names: seq<string>, visited: seq<string>) {
    forall name :: name in names ==> name in visited
  }

  lemma NewName(visited: seq<string>, path: seq<string>, i: nat)
    requires NoRepeats(visited + path) && i < |path|
    ensures path[i] !in visited
  {
    forall j | 0 <= j < |visited| ensures visited[j] != path[i] {
      assert (visited + path)[j] == visited[j] && (visited + path)[|visited| + i] == path[i];
    }
  }

  lemma SameLeads(script: Script, indices: map<Key, nat>, mid: map<Key, nat>, names: seq<string>, words: seq<string>,
                  visited: seq<string>, name: string, path: seq<string>, response: Option<string>)
    requires SameElsewhere(indices, mid, names) && Within(names, visited)
    requires Leads(script, mid, words, visited, name, path, response)
    ensures Leads(script, indices, words, visited, name, path, response)
  {
    if name !in visited {
      forall i | 0 < i < |path| ensures ComesTo(script, indices, path[i - 1], words, 0, Follow(path[i])) {
        NewName(visited, path, i - 1);
        SameComesTo(script, indices, mid, names, path[i - 1], words, Follow(path[i]));
      }
      NewName(visited, path, |path| - 1);
      SameEnding(script, indices, mid, names, words, visited + path, path[|path| - 1], response);
    }
  }

  lemma SameEnding(script: Script, indices: map<Key, nat>, mid: map<Key, nat>, names: seq<string>, words: seq<string>,
                   visited: seq<string>, last: string, response: Option<string>)
    requires SameElsewhere(indices, mid, names) && last !in names && EndsWith(script, mid, words, visited, last, response)
    ensures EndsWith(script, indices, words, visited, last, response)
  {
    if |visited| <= MAX_DEPTH {
      match response
      case Some(text) => SameComesTo(script, indices, mid, names, last, words, Complete(text));
      case None =>
        var result :| DeadEnd(visited, result) && ComesTo(script, mid, last, words, 0, result);
        SameComesTo(script, indices, mid, names, last, words, result);
    }
  }

  lemma {:induction false} SameTries(script: Script, indices: map<Key, nat>, mid: map<Key, nat>, names: seq<string>, words: seq<string>,
                                     visited: seq<string>, stack: seq<Ranked>, path: seq<string>, response: Option<string>)
    requires SameElsewhere(indices, mid, names) && Within(names, visited)
    requires Tries(script, mid, words, visited, stack, path, response)
    ensures Tries(script, indices, words, visited, stack, path, response)
    decreases |stack|
  {
    if stack != [] {
      var k: nat, r :| TriesFirst(script, mid, words, visited, stack, path, response, k, r);
      SameLeads(script, indices, mid, names, words, visited, stack[0].name, path[..k], r);
      if r.None? {
        SameTries(script, indices, mid, names, words, visited + path[..k], stack[1..], path[k..], response);
      }
      assert TriesFirst(script, indices, words, visited, stack, path, response, k, r);
    }
  }

  /** This came of trying a stack. */
  ghost predicate TriedTo(script: Script, indices: map<Key, nat>, words: seq<string>, visited: seq<string>, stack: seq<Ranked>,
                          path: seq<string>, a: Applied) {
    && a.visited == visited + path && NoRepeats(a.visited) && SameElsewhere(indices, a.state.indices, path)
    && Tries(script, indices, words, visited, stack, path, a.response)
  }

  /** A stack of keywords is tried in order, as the rules stand before, up to the first that responds. */
  lemma {:induction false} StackTries(script: Script, s: State, stack: seq<Ranked>, words: seq<string>, visited: seq<string>)
    returns (path: seq<string>)
    requires InRange(script, s.indices) && NoRepeats(visited)
    ensures TriedTo(script, s.indices, words, visited, stack, path, ApplyStack(script, s, stack, words, visited))
    decreases |stack|
  {
    if stack == [] {
      path := [];
      assert visited + [] == visited;
    } else {
      var a := ApplyKeyword(script, s, stack[0].name, words, visited);
      var first := KeywordLeads(script, s, stack[0].name, words, visited);
      LeadsOnce(script, s.indices, words, visited, stack[0].name, first, a.response);
      if a.response.Some? {
        path := first;
        Responded(script, s.indices, words, visited, stack, first, a);
      } else {
        var rest := StackTries(script, a.state, stack[1..], words, a.visited);
        path := first + rest;
        TriedOn(script, s.indices, a.state.indices, words, visited, stack, first, rest,
                ApplyStack(script, a.state, stack[1..], words, a.visited));
      }
    }
  }

  lemma LeadsOnce(script: Script, indices: map<Key, nat>, words: seq<string>, visited: seq<string>, name: string,
                  path: seq<string>, response: Option<string>)
    requires NoRepeats(visited) && Leads(script, indices, words, visited, name, path, response)
    ensures NoRepeats(visited + path)
  {
    assert visited + [] == visited;
  }

  lemma Responded(script: Script, indices: map<Key, nat>, words: seq<string>, visited: seq<string>, stack: seq<Ranked>,
                  first: seq<string>, a: Applied)
    requires stack != [] && a.response.Some? && NoRepeats(visited + first)
    requires LedTo(script, indices, words, visited, stack[0].name, first, a)
    ensures TriedTo(script, indices, words, visited, stack, first, a)
  {
    assert first[..|first|] == first;
    assert TriesFirst(script, indices, words, visited, stack, first, a.response, |first|, a.response);
  }

  lemma TriedOn(script: Script, indices: map<Key, nat>, mid: map<Key, nat>, words: seq<string>, visited: seq<string>,
                stack: seq<Ranked>, first: seq<string>, rest: seq<string>, a: Applied)
    requires stack != [] && Leads(script, indices, words, visited, stack[0].name, first, None) && SameElsewhere(indices, mid, first)
    requires TriedTo(script, mid, words, visited + first, stack[1..], rest, a)
    ensures TriedTo(script, indices, words, visited, stack, first + rest, a)
  {
    var path := first + rest;
    assert visited + first + rest == visited + path;
    SameTries(script, indices, mid, first, words, visited + first, stack[1..], rest, a.response);
    assert path[..|first|] == first && path[|first|..] == rest;
    assert TriesFirst(script, indices, words, visited, stack, path, a.response, |first|, None);
    forall key: Key | key.keyword !in path ensures IndexOf(a.state.indices, key) == IndexOf(indices, key) {
      assert key.keyword !in first && key.keyword !in rest;
    }
  }

  // ---- What is said --------------------------------------------------------------------------

  /** What the fallback keyword says, or the phrase for when that has nothing to say either. */
  ghost predicate FallsBackOn(script: Script, indices: map<Key, nat>, words: seq<string>, said: string) {
    exists path, r: Option<string> :: Leads(script, indices, words, [], "none", path, r)
      && said == if r.Some? then r.value else "I'm not sure I understand you fully."
  }

  lemma NoneFallsBack(script: Script, s: State, words: seq<string>)
    requires InRange(script, s.indices)
    ensures FallsBackOn(script, s.indices, words, ApplyNone(script, s, words).response)
  {
    var path := KeywordLeads(script, s, "none", words, []);
  }

  /** What the keywords say, or else the fallback, by which time rules of the keywords tried have moved on. */
  ghost predicate KeywordsSay(script: Script, indices: map<Key, nat>, words: seq<string>, stack: seq<Ranked>, said: string) {
    exists path, r: Option<string> :: Tries(script, indices, words, [], stack, path, r)
      && if r.Some? then said == r.value
         else exists later :: SameElsewhere(indices, later, path) && FallsBackOn(script, later, words, said)
  }

  lemma {:induction false} StackSays(script: Script, s: State, words: seq<string>, stack: seq<Ranked>)
    requires InRange(script, s.indices)
    ensures var a := ApplyStack(script, s, stack, words, []);
      KeywordsSay(script, s.indices, words, stack,
                  if a.response.Some? then a.response.value else ApplyNone(script, a.state, words).response)
  {
    var a := ApplyStack(script, s, stack, words, []);
    var path := StackTries(script, s, stack, words, []);
    assert Tries(script, s.indices, words, [], stack, path, a.response);
    if a.response.None? {
      NoneFallsBack(script, a.state, words);
      assert SameElsewhere(s.indices, a.state.indices, path);
    }
  }

  /** Every line is answered by what its keywords lead to, best first; without keywords, by the oldest memory if this is
      the fourth line and there is one, and by the fallback otherwise. Nothing is said to nothing. */
  lemma {:induction false} SaysWhatFollows(script: Script, s: State, input: Input)
    requires InRange(script, s.indices)
    ensures var said := Respond(script, s, input).response;
      if input.Blank? || input.words == [] then said == "Please tell me more."
      else
        var heard, stack := Repaired(script, input.words), HighestFirst(Keywords(script, input.words));
        if stack != [] then KeywordsSay(script, s.indices, heard, stack, said)
        else if s.limit % 4 == 3 && s.memories != [] then said == s.memories[0]
        else FallsBackOn(script, s.indices, heard, said)
  {
    if input.Line? && input.words != [] {
      var counted := s.(limit := s.limit % 4 + 1);
      LineIsProcessed(script, s, input.words);
      if HighestFirst(Keywords(script, input.words)) != [] {
        SaidOfStack(script, counted, input.words);
      } else {
        SaidWithout(script, counted, input.words);
      }
    }
  }

  lemma LineIsProcessed(script: Script, s: State, words: seq<string>)
    requires InRange(script, s.indices) && words != []
    ensures Respond(script, s, Line(words)) == ProcessInput(script, s.(limit := s.limit % 4 + 1), words)
  {
  }

  lemma SaidOfStack(script: Script, s: State, words: seq<string>)
    requires InRange(script, s.indices) && HighestFirst(Keywords(script, words)) != []
    ensures KeywordsSay(script, s.indices, Repaired(script, words), HighestFirst(Keywords(script, words)),
                        ProcessInput(script, s, words).response)
  {
    var heard, stack := Repaired(script, words), HighestFirst(Keywords(script, words));
    ProcessedByStack(script, s, words);
    StackSays(script, Remember(script, s, heard), heard, stack);
  }

  lemma SaidWithout(script: Script, s: State, words: seq<string>)
    requires InRange(script, s.indices) && HighestFirst(Keywords(script, words)) == []
    ensures var said := ProcessInput(script, s, words).response;
      if s.limit == 4 && s.memories != [] then said == s.memories[0]
      else FallsBackOn(script, s.indices, Repaired(script, words), said)
  {
    NoneFallsBack(script, s, Repaired(script, words));
  }

  lemma ProcessedByStack(script: Script, s: State, words: seq<string>)
    requires InRange(script, s.indices) && HighestFirst(Keywords(script, words)) != []
    ensures var heard, stack := Repaired(script, words), HighestFirst(Keywords(script, words));
      var a := ApplyStack(script, Remember(script, s, heard), stack, heard, []);
      && Remember(script, s, heard).indices == s.indices
      && ProcessInput(script, s, words)
         == if a.response.Some? then Reply(a.state, a.response.value) else ApplyNone(script, a.state, heard)
  {
  }

  // ---- What is heard -------------------------------------------------------------------------

  /** A word is heard in lower case, or as its keyword repairs it. */
  predicate HeardAs(script: Script, word: string, heard: string) {
    var lower := script.lex.lower(word);
    if lower in script.keywords && script.keywords[lower].repair.Some? then Some(heard) == script.keywords[lower].repair
    else heard == lower
  }

  /** Every word is heard, each in its place. */
  lemma {:induction false} EachWordIsHeard(script: Script, words: seq<string>)
    ensures |Repaired(script, words)| == |words|
    ensures forall i :: 0 <= i < |words| ==> HeardAs(script, words[i], Repaired(script, words)[i])
  {
    if words != [] {
      var k := |words| - 1;
      EachWordIsHeard(script, words[..k]);
      forall i | 0 <= i < |words| ensures HeardAs(script, words[i], Repaired(script, words)[i]) {
        assert i < k ==> words[..k][i] == words[i];
      }
    }
  }

  /** The word is a keyword that leads somewhere, of this rank. */
  predicate Counts(script: Script, word: string, x: Ranked) {
    && x.name == script.lex.lower(word) && x.name in script.keywords
    && (script.keywords[x.name].transforms != [] || script.keywords[x.name].link.Some?)
    && x.precedence == script.keywords[x.name].precedence
  }

  /** Keyword `k` is found at word `at[k]`. */
  ghost predicate FoundAt(script: Script, words: seq<string>, found: seq<Ranked>, at: seq<nat>) {
    && |at| == |found|
    && (forall k :: 0 <= k < |at| ==> at[k] < |words| && Counts(script, words[at[k]], found[k]))
    && (forall k, l :: 0 <= k < l < |at| ==> at[k] < at[l])
    && (forall i, x :: 0 <= i < |words| && Counts(script, words[i], x) ==> i in at)
  }

  /** All keywords of the text are found, once for each time they are there, in the order of the text. */
  lemma {:induction false} KeywordsAreFound(script: Script, words: seq<string>) returns (at: seq<nat>)
    ensures FoundAt(script, words, Keywords(script, words), at)
  {
    if words == [] {
      at := [];
    } else {
      var k := |words| - 1;
      at := KeywordsAreFound(script, words[..k]);
      LastKeyword(script, words);
      if x :| Counts(script, words[k], x) {
        FoundMore(script, words, Keywords(script, words[..k]), at, x);
        at := at + [k];
      } else {
        FoundSame(script, words, words[k], Keywords(script, words[..k]), at);
      }
    }
  }

  lemma FoundMore(script: Script, words: seq<string>, found: seq<Ranked>, at: seq<nat>, x: Ranked)
    requires words != [] && FoundAt(script, words[..|words| - 1], found, at) && Counts(script, words[|words| - 1], x)
    ensures FoundAt(script, words, found + [x], at + [|words| - 1])
  {
    var k := |words| - 1;
    var more, places := found + [x], at + [k];
    forall l | 0 <= l < |places| ensures places[l] < |words| && Counts(script, words[places[l]], more[l]) {
      assert l < |at| ==> words[..k][at[l]] == words[at[l]];
    }
    forall i, y | 0 <= i < |words| && Counts(script, words[i], y) ensures i in places {
      if i < k {
        assert Counts(script, words[..k][i], y);
      } else {
        assert places[|at|] == k;
      }
    }
  }

  lemma FoundSame(script: Script, words: seq<string>, last: string, found: seq<Ranked>, at: seq<nat>)
    requires words != [] && FoundAt(script, words[..|words| - 1], found, at)
    requires last == words[|words| - 1] && forall x :: !Counts(script, last, x)
    ensures FoundAt(script, words, found, at)
  {
    var k := |words| - 1;
    forall l | 0 <= l < |at| ensures at[l] < |words| && Counts(script, words[at[l]], found[l]) {
      assert words[..k][at[l]] == words[at[l]];
    }
    forall i, y | 0 <= i < |words| && Counts(script, words[i], y) ensures i in at {
      assert i < k && Counts(script, words[..k][i], y);
    }
  }

  lemma LastKeyword(script: Script, words: seq<string>)
    requires words != []
    ensures var k := |words| - 1;
      var before, found := Keywords(script, words[..k]), Keywords(script, words);
      && (forall x :: Counts(script, words[k], x) ==> found == before + [x])
      && (found == before || exists x :: Counts(script, words[k], x))
  {
    var k := |words| - 1;
    var before, found := Keywords(script, words[..k]), Keywords(script, words);
    assert before + [] == before;
    forall x | Counts(script, words[k], x) ensures found == before + [x] {
      assert x == Ranked(x.name, x.precedence);
    }
    if found != before {
      var lower := script.lex.lower(words[k]);
      assert Counts(script, words[k], Ranked(lower, script.keywords[lower].precedence));
    }
  }

  // ---- The best keyword ----------------------------------------------------------------------

  lemma {:induction false} DescendsFromFirst(stack: seq<Ranked>, i: nat)
    requires Descending(stack) && i < |stack|
    ensures stack[0].precedence >= stack[i].precedence
  {
    if i > 0 {
      DescendsFromFirst(stack, i - 1);
    }
  }

  lemma {:induction false} FirstOfPrecedence(stack: seq<Ranked>, p: nat, i: nat)
    requires i < |stack| && stack[i].precedence == p && forall j :: 0 <= j < i ==> stack[j].precedence != p
    ensures OfPrecedence(stack, p) != [] && OfPrecedence(stack, p)[0] == stack[i]
  {
    var k := |stack| - 1;
    if i < k {
      FirstOfPrecedence(stack[..k], p, i);
    } else {
      NoneOfPrecedence(stack[..k], p);
    }
  }

  lemma {:induction false} NoneOfPrecedence(stack: seq<Ranked>, p: nat)
    ensures OfPrecedence(stack, p) == [] <==> forall j :: 0 <= j < |stack| ==> stack[j].precedence != p
  {
    if stack != [] {
      var k := |stack| - 1;
      NoneOfPrecedence(stack[..k], p);
      if OfPrecedence(stack, p) == [] {
        forall j | 0 <= j < |stack| ensures stack[j].precedence != p {
          assert j < k ==> stack[..k][j] == stack[j];
        }
      }
    }
  }

  /** The first with this precedence, if there is any. */
  lemma {:induction false} SomeOfPrecedence(stack: seq<Ranked>, p: nat, n: nat) returns (i: nat)
    requires n < |stack| && stack[n].precedence == p
    ensures i <= n && stack[i].precedence == p && forall j :: 0 <= j < i ==> stack[j].precedence != p
  {
    if j: nat :| j < n && stack[j].precedence == p {
      i := SomeOfPrecedence(stack, p, j);
    } else {
      i := n;
    }
  }

  /** Sorting puts in front the first of the highest precedence. */
  lemma {:induction false} BestIsFirst(found: seq<Ranked>) returns (best: nat)
    requires found != []
    ensures var stack := HighestFirst(found); stack != [] && best < |found| && stack[0] == found[best]
    ensures forall i :: 0 <= i < |found| ==> found[i].precedence <= found[best].precedence
    ensures forall i :: 0 <= i < best ==> found[i].precedence < found[best].precedence
  {
    var stack := HighestFirst(found);
    SortKeepsAll(found);
    var p := stack[0].precedence;
    SortIsStable(found, p);
    FirstOfPrecedence(stack, p, 0);
    NoneOfPrecedence(found, p);
    var n: nat :| n < |found| && found[n].precedence == p;
    best := SomeOfPrecedence(found, p, n);
    FirstOfPrecedence(found, p, best);
    forall i | 0 <= i < |found| ensures found[i].precedence <= p {
      NoneHigher(found, i);
    }
  }

  lemma {:induction false} NoneHigher(found: seq<Ranked>, i: nat)
    requires i < |found|
    ensures var stack := HighestFirst(found); stack != [] && found[i].precedence <= stack[0].precedence
  {
    var stack, p := HighestFirst(found), found[i].precedence;
    SortKeepsAll(found);
    SortIsStable(found, p);
    NoneOfPrecedence(found, p);
    NoneOfPrecedence(stack, p);
    var j: nat :| j < |stack| && stack[j].precedence == p;
    DescendsFromFirst(stack, j);
  }

  /** The keyword tried first is the leftmost of those of the highest precedence in the text. */
  lemma {:induction false} LeftmostOfHighest(script: Script, words: seq<string>) returns (i: nat)
    requires HighestFirst(Keywords(script, words)) != []
    ensures i < |words| && Counts(script, words[i], HighestFirst(Keywords(script, words))[0])
    ensures var first := HighestFirst(Keywords(script, words))[0];
      forall j, x :: 0 <= j < |words| && Counts(script, words[j], x) ==>
        x.precedence < first.precedence || (x.precedence == first.precedence && i <= j)
  {
    var found := Keywords(script, words);
    SortKeepsAll(found);
    var at := KeywordsAreFound(script, words);
    var best := BestIsFirst(found);
    i := at[best];
    forall j, x | 0 <= j < |words| && Counts(script, words[j], x)
      ensures x.precedence < found[best].precedence || (x.precedence == found[best].precedence && i <= j)
    {
      NoneBetter(script, words, found, at, best, j, x);
    }
  }

  lemma NoneBetter(script: Script, words: seq<string>, found: seq<Ranked>, at: seq<nat>, best: nat, j: nat, x: Ranked)
    requires FoundAt(script, words, found, at) && best < |found| && j < |words| && Counts(script, words[j], x)
    requires forall i :: 0 <= i < |found| ==> found[i].precedence <= found[best].precedence
    requires forall i :: 0 <= i < best ==> found[i].precedence < found[best].precedence
    ensures x.precedence < found[best].precedence || (x.precedence == found[best].precedence && at[best] <= j)
  {
    var k :| 0 <= k < |at| && at[k] == j;
    assert Counts(script, words[at[k]], found[k]) && found[k] == x;
    assert k < best || at[best] <= at[k];
  }

  // ---- What is remembered and recalled -------------------------------------------------------

  /** What a text leaves in memory: it has the memory keyword, and it matches the transform that its last word picks. */
  ghost predicate Leaves(script: Script, words: seq<string>, memory: string) {
    && script.memory.Some? && script.memory.value.transforms != [] && words != []
    && (exists w :: w in words && script.lex.lower(w) == script.memory.value.keyword)
    && var transforms := script.memory.value.transforms;
       var transform := transforms[script.hash(words[|words| - 1]) % |transforms|];
       transform.rules != [] && transform.rules[0].Reassemble? && RuleGives(script, transform, words, transform.rules[0], Complete(memory))
  }

  /** A line with keywords leaves what it leaves, behind all earlier memories; one without leaves nothing. */
  lemma {:induction false} MemoryIsMade(script: Script, s: State, words: seq<string>)
    requires InRange(script, s.indices) && words != []
    ensures var heard, created := Repaired(script, words), Respond(script, s, Line(words)).state.created;
      if Keywords(script, words) != [] && exists memory :: Leaves(script, heard, memory) then
        exists memory :: Leaves(script, heard, memory) && created == s.created + [memory]
      else created == s.created
  {
    var heard, found := Repaired(script, words), Keywords(script, words);
    var stack, counted := HighestFirst(found), s.(limit := s.limit % 4 + 1);
    SortKeepsAll(found);
    EachWordIsHeard(script, words);
    LineIsProcessed(script, s, words);
    if found != [] {
      StackKeepsMemories(script, Remember(script, counted, heard), heard, stack);
      ProcessedByStack(script, counted, words);
      MemoryIs(script, heard);
    } else {
      var second := NoneApplies(script, counted, heard);
    }
  }

  lemma MemoryIs(script: Script, words: seq<string>)
    requires words != []
    ensures match MemoryOf(script, words)
      case None => forall memory :: !Leaves(script, words, memory)
      case Some(memory) => Leaves(script, words, memory)
  {
  }

  /** The oldest memory is recalled exactly on a fourth line without keywords, if there is one, and is then what is
      said; every line counts but a blank one. */
  lemma {:induction false} RecallsIff(script: Script, s: State, input: Input)
    requires InRange(script, s.indices)
    ensures var r := Respond(script, s, input);
      if input.Line? && input.words != [] && Keywords(script, input.words) == [] && s.limit % 4 == 3 && s.memories != [] then
        r.response == s.memories[0] && r.state.recalled == s.recalled + [s.memories[0]] && r.state.memories == s.memories[1..]
      else r.state.recalled == s.recalled
    ensures Respond(script, s, input).state.limit == if input.Blank? then s.limit else s.limit % 4 + 1
  {
    if input.Line? && input.words != [] {
      var heard, found := Repaired(script, input.words), Keywords(script, input.words);
      var counted := s.(limit := s.limit % 4 + 1);
      SortKeepsAll(found);
      LineIsProcessed(script, s, input.words);
      if found != [] {
        StackKeepsMemories(script, Remember(script, counted, heard), heard, HighestFirst(found));
        ProcessedByStack(script, counted, input.words);
      } else {
        var second := NoneApplies(script, counted, heard);
      }
    }
  }
}
