// How ELIZA comes to an answer: the words it looks at, the keywords it tries and in what order, the links it follows,
// and the rule that ends the search.

module ElizaAnswers {
  import opened Outcomes
  import opened ElizaMatcher
  import opened ElizaTemplate
  import opened ElizaEngine
  import opened ElizaRuns

  // ---- What a keyword comes to ---------------------------------------------------------------

  /** What a rule makes of words that match its transform. */
  ghost predicate RuleGives(script: Script, transform: Transform, words: seq<string>, rule: Action, result: TransformResult) {
    match rule
    case Reassemble(elements) =>
      exists components :: Answer(words, [], FirstSplit(script.lex, transform.decomposition, words)) == Some(components)
                           && result == Complete(Assemble(script, elements, components))
    case Goto(target) => result == Follow(target)
    case Newkey => result == TryNext
  }

  /** Of the transforms from `i` on, this is the first that matches and leads on, and it has rules. */
  ghost predicate Decides(script: Script, keyword: Keyword, words: seq<string>, i: nat, j: nat) {
    IsFirstToLead(script, keyword, words, i, j) && keyword.transforms[j].rules != []
  }

  /** Its current rule, and what that gives. */
  ghost predicate CurrentRuleGives(script: Script, indices: map<Key, nat>, name: string, words: seq<string>, j: nat, result: TransformResult)
    requires name in script.keywords && j < |script.keywords[name].transforms|
  {
    var transform, k := script.keywords[name].transforms[j], IndexOf(indices, Key(name, j));
    k < |transform.rules| && RuleGives(script, transform, words, transform.rules[k], result)
  }

  /** What a keyword comes to, given the rules whose turn it is: the current rule of the transform that decides, or else
      its link, if it has one. */
  ghost predicate ComesTo(script: Script, indices: map<Key, nat>, name: string, words: seq<string>, i: nat, result: TransformResult) {
    if name !in script.keywords then result == NoMatch else
    var keyword := script.keywords[name];
    if exists j: nat :: Decides(script, keyword, words, i, j) then
      exists j: nat :: Decides(script, keyword, words, i, j) && CurrentRuleGives(script, indices, name, words, j, result)
    else
      result == if keyword.link.Some? then Follow(keyword.link.value) else NoMatch
  }

  lemma FireGives(script: Script, s: State, name: string, words: seq<string>, j: nat, components: seq<string>)
    requires InRange(script, s.indices) && HasRules(script, Key(name, j))
    requires Answer(words, [], FirstSplit(script.lex, script.keywords[name].transforms[j].decomposition, words)) == Some(components)
    ensures CurrentRuleGives(script, s.indices, name, words, j, Fire(script, s, Key(name, j), components).result)
  {
  }

  lemma {:induction false} TriedComesTo(script: Script, s: State, name: string, words: seq<string>, i: nat)
    requires InRange(script, s.indices) && name in script.keywords && i <= |script.keywords[name].transforms|
    ensures ComesTo(script, s.indices, name, words, i, TryTransforms(script, s, name, words, i).result)
    decreases |script.keywords[name].transforms| - i
  {
    var keyword := script.keywords[name];
    if i < |keyword.transforms| {
      var transform := keyword.transforms[i];
      if LeadsOn(script, keyword, transform, words) {
        OnlyTheFirst(script, keyword, words, i);
        if transform.rules != [] {
          FireGives(script, s, name, words, i, Answer(words, [], FirstSplit(script.lex, transform.decomposition, words)).value);
        }
      } else {
        TriedComesTo(script, s, name, words, i + 1);
        ComesToSame(script, s.indices, name, words, i, TryTransforms(script, s, name, words, i + 1).result);
      }
    }
  }

  lemma ComesToSame(script: Script, indices: map<Key, nat>, name: string, words: seq<string>, i: nat, result: TransformResult)
    requires name in script.keywords && i < |script.keywords[name].transforms|
    requires !LeadsOn(script, script.keywords[name], script.keywords[name].transforms[i], words)
    requires ComesTo(script, indices, name, words, i + 1, result)
    ensures ComesTo(script, indices, name, words, i, result)
  {
    var keyword := script.keywords[name];
    NotTheFirst(script, keyword, words, i);
    if exists j: nat :: Decides(script, keyword, words, i, j) {
      var j: nat :| Decides(script, keyword, words, i, j);
      assert Decides(script, keyword, words, i + 1, j);
      var j': nat :| Decides(script, keyword, words, i + 1, j') && CurrentRuleGives(script, indices, name, words, j', result);
      assert Decides(script, keyword, words, i, j');
    }
  }

  lemma OnlyTheFirst(script: Script, keyword: Keyword, words: seq<string>, i: nat)
    requires i < |keyword.transforms| && LeadsOn(script, keyword, keyword.transforms[i], words)
    ensures forall j: nat :: Decides(script, keyword, words, i, j) <==> j == i && keyword.transforms[i].rules != []
  {
    assert IsFirstToLead(script, keyword, words, i, i);
  }

  lemma NotTheFirst(script: Script, keyword: Keyword, words: seq<string>, i: nat)
    requires i < |keyword.transforms| && !LeadsOn(script, keyword, keyword.transforms[i], words)
    ensures forall j: nat :: Decides(script, keyword, words, i, j) <==> Decides(script, keyword, words, i + 1, j)
  {
    forall j: nat ensures IsFirstToLead(script, keyword, words, i, j) <==> IsFirstToLead(script, keyword, words, i + 1, j) {
    }
  }

  /** Only rules of the keyword itself have moved on. */
  ghost predicate SameElsewhere(indices: map<Key, nat>, indices': map<Key, nat>, names: seq<string>) {
    forall key: Key :: key.keyword !in names ==> IndexOf(indices', key) == IndexOf(indices, key)
  }

  lemma {:induction false} TriedSameElsewhere(script: Script, s: State, name: string, words: seq<string>, i: nat)
    requires InRange(script, s.indices) && name in script.keywords && i <= |script.keywords[name].transforms|
    ensures SameElsewhere(s.indices, TryTransforms(script, s, name, words, i).state.indices, [name])
    decreases |script.keywords[name].transforms| - i
  {
    if i < |script.keywords[name].transforms| {
      TriedSameElsewhere(script, s, name, words, i + 1);
    }
  }

  lemma TransformComesTo(script: Script, s: State, name: string, words: seq<string>)
    requires InRange(script, s.indices)
    ensures var t := ApplyTransform(script, s, name, words);
      ComesTo(script, s.indices, name, words, 0, t.result) && SameElsewhere(s.indices, t.state.indices, [name])
  {
    if name in script.keywords {
      TriedComesTo(script, s, name, words, 0);
      TriedSameElsewhere(script, s, name, words, 0);
    }
  }

  /** What a keyword comes to depends on the rules whose turn it is at that keyword only. */
  lemma SameComesTo(script: Script, indices: map<Key, nat>, indices': map<Key, nat>, names: seq<string>, name: string,
                    words: seq<string>, result: TransformResult)
    requires SameElsewhere(indices, indices', names) && name !in names
    ensures ComesTo(script, indices, name, words, 0, result) <==> ComesTo(script, indices', name, words, 0, result)
  {
    if name in script.keywords {
      var keyword := script.keywords[name];
      forall j: nat | Decides(script, keyword, words, 0, j)
        ensures CurrentRuleGives(script, indices, name, words, j, result)
           <==> CurrentRuleGives(script, indices', name, words, j, result)
      {
        assert IndexOf(indices', Key(name, j)) == IndexOf(indices, Key(name, j));
      }
    }
  }

  // ---- Following links -----------------------------------------------------------------------

  /** Each keyword but the first is where the one before it leads. */
  ghost predicate IsPath(script: Script, indices: map<Key, nat>, words: seq<string>, path: seq<string>) {
    forall i :: 0 < i < |path| ==> ComesTo(script, indices, path[i - 1], words, 0, Follow(path[i]))
  }

  /** Applying a keyword leads along this path to this response: the last keyword gives it; without a response the last
      gives none or leads back to a keyword visited before, or it is the eleventh and is not applied any more. */
  ghost predicate Leads(script: Script, indices: map<Key, nat>, words: seq<string>, visited: seq<string>, name: string,
                        path: seq<string>, response: Option<string>) {
    if name in visited then path == [] && response == None else
    && path != [] && path[0] == name && NoRepeats(visited + path)
    && IsPath(script, indices, words, path)
    && EndsWith(script, indices, words, visited + path, path[|path| - 1], response)
  }

  ghost predicate EndsWith(script: Script, indices: map<Key, nat>, words: seq<string>, visited: seq<string>, last: string,
                           response: Option<string>) {
    if |visited| > MAX_DEPTH then response == None else
    match response
    case Some(text) => ComesTo(script, indices, last, words, 0, Complete(text))
    case None => exists result :: DeadEnd(visited, result) && ComesTo(script, indices, last, words, 0, result)
  }

  predicate DeadEnd(visited: seq<string>, result: TransformResult) {
    !result.Complete? && (result.Follow? ==> result.target in visited)
  }

  /** This came of applying a keyword: the path taken, the response, and no other keyword's rules moved on. */
  ghost predicate LedTo(script: Script, indices: map<Key, nat>, words: seq<string>, visited: seq<string>, name: string,
                        path: seq<string>, a: Applied) {
    && a.visited == visited + path && Leads(script, indices, words, visited, name, path, a.response)
    && SameElsewhere(indices, a.state.indices, path)
  }

  /** A keyword leads along links and gotos, as the rules stand before, to the response of the last keyword; only rules
      of the keywords on the path move on. */
  lemma {:induction false} KeywordLeads(script: Script, s: State, name: string, words: seq<string>, visited: seq<string>)
    returns (path: seq<string>)
    requires InRange(script, s.indices) && NoRepeats(visited)
    ensures LedTo(script, s.indices, words, visited, name, path, ApplyKeyword(script, s, name, words, visited))
    decreases if |visited| > MAX_DEPTH then 0 else MAX_DEPTH + 1 - |visited|
  {
    if name in visited || |visited| >= MAX_DEPTH {
      path := if name in visited then [] else [name];
      NotApplied(script, s, name, words, visited);
    } else {
      NoRepeatsAppend(visited, name);
      var t := ApplyTransform(script, s.(applied := s.applied + [name]), name, words);
      if t.result.Follow? {
        var rest := KeywordLeads(script, t.state, t.result.target, words, visited + [name]);
        path := [name] + rest;
        AppliedAndFollowed(script, s, name, words, visited, rest);
      } else {
        path := [name];
        AppliedLast(script, s, name, words, visited);
      }
    }
  }

  lemma NotApplied(script: Script, s: State, name: string, words: seq<string>, visited: seq<string>)
    requires InRange(script, s.indices) && NoRepeats(visited) && (name in visited || |visited| >= MAX_DEPTH)
    ensures LedTo(script, s.indices, words, visited, name, if name in visited then [] else [name],
                  ApplyKeyword(script, s, name, words, visited))
  {
    if name in visited {
      assert visited + [] == visited;
    } else {
      NoRepeatsAppend(visited, name);
    }
  }

  lemma AppliedLast(script: Script, s: State, name: string, words: seq<string>, visited: seq<string>)
    requires InRange(script, s.indices) && NoRepeats(visited) && name !in visited && |visited| < MAX_DEPTH
    requires !ApplyTransform(script, s.(applied := s.applied + [name]), name, words).result.Follow?
    ensures LedTo(script, s.indices, words, visited, name, [name], ApplyKeyword(script, s, name, words, visited))
  {
    NoRepeatsAppend(visited, name);
    var s' := s.(applied := s.applied + [name]);
    TransformComesTo(script, s', name, words);
    EndsAt(script, s.indices, words, visited, name, ApplyTransform(script, s', name, words).result);
  }

  lemma AppliedAndFollowed(script: Script, s: State, name: string, words: seq<string>, visited: seq<string>, rest: seq<string>)
    requires InRange(script, s.indices) && NoRepeats(visited) && name !in visited && |visited| < MAX_DEPTH
    requires var t := ApplyTransform(script, s.(applied := s.applied + [name]), name, words);
      t.result.Follow? && LedTo(script, t.state.indices, words, visited + [name], t.result.target, rest,
                                ApplyKeyword(script, t.state, t.result.target, words, visited + [name]))
    ensures LedTo(script, s.indices, words, visited, name, [name] + rest, ApplyKeyword(script, s, name, words, visited))
  {
    var s' := s.(applied := s.applied + [name]);
    TransformComesTo(script, s', name, words);
    var t := ApplyTransform(script, s', name, words);
    FollowedBy(script, s, name, words, visited);
    LedOn(script, s.indices, t.state.indices, words, visited, name, t.result.target, rest,
          ApplyKeyword(script, t.state, t.result.target, words, visited + [name]));
  }

  lemma FollowedBy(script: Script, s: State, name: string, words: seq<string>, visited: seq<string>)
    requires InRange(script, s.indices) && name !in visited && |visited| < MAX_DEPTH
    requires ApplyTransform(script, s.(applied := s.applied + [name]), name, words).result.Follow?
    ensures var t := ApplyTransform(script, s.(applied := s.applied + [name]), name, words);
      ApplyKeyword(script, s, name, words, visited) == ApplyKeyword(script, t.state, t.result.target, words, visited + [name])
  {
  }

  lemma LedOn(script: Script, indices: map<Key, nat>, mid: map<Key, nat>, words: seq<string>, visited: seq<string>,
              name: string, target: string, rest: seq<string>, a: Applied)
    requires NoRepeats(visited) && name !in visited && |visited| < MAX_DEPTH
    requires ComesTo(script, indices, name, words, 0, Follow(target)) && SameElsewhere(indices, mid, [name])
    requires LedTo(script, mid, words, visited + [name], target, rest, a)
    ensures LedTo(script, indices, words, visited, name, [name] + rest, a)
  {
    NoRepeatsAppend(visited, name);
    FollowedOn(script, indices, mid, words, visited, name, target, rest, a.response);
    SameBoth(indices, mid, a.state.indices, name, rest);
    assert visited + [name] + rest == visited + ([name] + rest);
  }

  lemma EndsAt(script: Script, indices: map<Key, nat>, words: seq<string>, visited: seq<string>, name: string, result: TransformResult)
    requires name !in visited && NoRepeats(visited + [name]) && |visited| < MAX_DEPTH && !result.Follow?
    requires ComesTo(script, indices, name, words, 0, result)
    ensures Leads(script, indices, words, visited, name, [name], if result.Complete? then Some(result.response) else None)
  {
    assert result.Complete? || DeadEnd(visited + [name], result);
  }

  lemma SameBoth(indices: map<Key, nat>, mid: map<Key, nat>, indices': map<Key, nat>, name: string, rest: seq<string>)
    requires SameElsewhere(indices, mid, [name]) && SameElsewhere(mid, indices', rest)
    ensures SameElsewhere(indices, indices', [name] + rest)
  {
  }

  lemma FollowedOn(script: Script, indices: map<Key, nat>, mid: map<Key, nat>, words: seq<string>, visited: seq<string>,
                   name: string, target: string, rest: seq<string>, response: Option<string>)
    requires name !in visited && NoRepeats(visited + [name]) && |visited| < MAX_DEPTH && SameElsewhere(indices, mid, [name])
    requires ComesTo(script, indices, name, words, 0, Follow(target))
    requires Leads(script, mid, words, visited + [name], target, rest, response)
    ensures Leads(script, indices, words, visited, name, [name] + rest, response)
  {
    assert visited + [name] + rest == visited + ([name] + rest);
    if rest == [] {
      LedBack(script, indices, words, visited, name, target);
    } else {
      PathGoesOn(script, indices, mid, words, visited, name, rest);
      NotName(visited, name, rest, |rest| - 1);
      SameEnd(script, indices, mid, words, visited + ([name] + rest), name, rest[|rest| - 1], response);
    }
  }

  lemma LedBack(script: Script, indices: map<Key, nat>, words: seq<string>, visited: seq<string>, name: string, target: string)
    requires name !in visited && NoRepeats(visited + [name]) && |visited| < MAX_DEPTH && target in visited + [name]
    requires ComesTo(script, indices, name, words, 0, Follow(target))
    ensures Leads(script, indices, words, visited, name, [name], None)
  {
    assert DeadEnd(visited + [name], Follow(target));
  }

  lemma PathGoesOn(script: Script, indices: map<Key, nat>, mid: map<Key, nat>, words: seq<string>, visited: seq<string>,
                   name: string, rest: seq<string>)
    requires rest != [] && NoRepeats(visited + [name] + rest) && SameElsewhere(indices, mid, [name])
    requires ComesTo(script, indices, name, words, 0, Follow(rest[0])) && IsPath(script, mid, words, rest)
    ensures IsPath(script, indices, words, [name] + rest)
  {
    var path := [name] + rest;
    forall i | 0 < i < |path| ensures ComesTo(script, indices, path[i - 1], words, 0, Follow(path[i])) {
      if i > 1 {
        assert ComesTo(script, mid, rest[i - 1 - 1], words, 0, Follow(rest[i - 1]));
        NotName(visited, name, rest, i - 2);
        SameComesTo(script, indices, mid, [name], rest[i - 2], words, Follow(rest[i - 1]));
      }
    }
  }

  lemma NotName(visited: seq<string>, name: string, rest: seq<string>, i: nat)
    requires NoRepeats(visited + [name] + rest) && i < |rest|
    ensures rest[i] != name
  {
    var all := visited + [name] + rest;
    assert all[|visited|] == name && all[|visited| + 1 + i] == rest[i];
  }

  lemma SameEnd(script: Script, indices: map<Key, nat>, mid: map<Key, nat>, words: seq<string>, visited: seq<string>,
                name: string, last: string, response: Option<string>)
    requires SameElsewhere(indices, mid, [name]) && last != name && EndsWith(script, mid, words, visited, last, response)
    ensures EndsWith(script, indices, words, visited, last, response)
  {
    if |visited| <= MAX_DEPTH {
      match response
      case Some(text) => SameComesTo(script, indices, mid, [name], last, words, Complete(text));
      case None =>
        var result :| DeadEnd(visited, result) && ComesTo(script, mid, last, words, 0, result);
        SameComesTo(script, indices, mid, [name], last, words, result);
    }
  }
}
