// ELIZA's engine: keywords and their links, rotating rules, and the queue of memories.

module ElizaEngine {
  import opened Outcomes
  import opened ElizaMatcher
  import opened ElizaTemplate

  datatype Transform = Transform(decomposition: seq<PatternElement>, rules: seq<Action>)

  datatype Keyword = Keyword(repair: Option<string>, precedence: nat, link: Option<string>, transforms: seq<Transform>)

  datatype MemoryRule = MemoryRule(keyword: string, transforms: seq<Transform>)

  /** `reflect` exchanges the pronouns of a text, `hash` adds up the bytes of a word. */
  datatype Script = Script(
    lex: Lexicon,
    keywords: map<string, Keyword>,
    memory: Option<MemoryRule>,
    reflect: string -> string,
    hash: string -> nat)

  /** A transform of a keyword. */
  datatype Key = Key(keyword: string, transform: nat)

  datatype Firing = Firing(key: Key, rule: nat)

  /** The engine's state, and what has happened so far: rules fired, keywords applied, memories made and recalled. */
  datatype State = State(
    limit: nat,
    indices: map<Key, nat>,
    memories: seq<string>,
    firings: seq<Firing>,
    applied: seq<string>,
    created: seq<string>,
    recalled: seq<string>)

  predicate HasRules(script: Script, key: Key) {
    && key.keyword in script.keywords
    && key.transform < |script.keywords[key.keyword].transforms|
    && RulesOf(script, key) != []
  }

  function RulesOf(script: Script, key: Key): seq<Action>
    requires key.keyword in script.keywords && key.transform < |script.keywords[key.keyword].transforms|
  {
    script.keywords[key.keyword].transforms[key.transform].rules
  }

  /** Every stored index is one of a rule. */
  ghost predicate InRange(script: Script, indices: map<Key, nat>) {
    forall key :: key in indices ==> HasRules(script, key) && indices[key] < |RulesOf(script, key)|
  }

  function IndexOf(indices: map<Key, nat>, key: Key): nat {
    if key in indices then indices[key] else 0
  }

  // ---- One keyword ---------------------------------------------------------------------------

  datatype TransformResult = Complete(response: string) | Follow(target: string) | TryNext | NoMatch

  datatype Transformed = Transformed(state: State, result: TransformResult)

  function Assemble(script: Script, elements: seq<Element>, components: seq<string>): string {
    if elements == [] then "" else
    Assemble(script, elements[..|elements| - 1], components) + Piece(script, elements[|elements| - 1], components)
  }

  function Piece(script: Script, e: Element, components: seq<string>): string {
    match e
    case Text(text) => text
    case Ref(n) => if 0 < n <= |components| then components[n - 1] else ""
    case RefReflect(n) => if 0 < n <= |components| then script.reflect(components[n - 1]) else ""
  }

  function FollowLink(keyword: Keyword): TransformResult {
    match keyword.link case Some(link) => Follow(link) case None => NoMatch
  }

  function ApplyTransform(script: Script, s: State, name: string, words: seq<string>): (r: Transformed)
    requires InRange(script, s.indices)
    ensures InRange(script, r.state.indices)
  {
    if name !in script.keywords then Transformed(s, NoMatch) else
    TryTransforms(script, s, name, words, 0)
  }

  /** The first transform from `i` on that matches and leads on. */
  function TryTransforms(script: Script, s: State, name: string, words: seq<string>, i: nat): (r: Transformed)
    requires name in script.keywords && i <= |script.keywords[name].transforms|
    requires InRange(script, s.indices)
    ensures InRange(script, r.state.indices)
    decreases |script.keywords[name].transforms| - i
  {
    var keyword := script.keywords[name];
    if i == |keyword.transforms| then Transformed(s, FollowLink(keyword)) else
    var transform := keyword.transforms[i];
    match Answer(words, [], FirstSplit(script.lex, transform.decomposition, words))
    case None => TryTransforms(script, s, name, words, i + 1)
    case Some(components) =>
      if transform.rules == [] then
        if keyword.link.Some? then Transformed(s, Follow(keyword.link.value)) else TryTransforms(script, s, name, words, i + 1)
      else Fire(script, s, Key(name, i), components)
  }

  /** Uses the transform's current rule and moves on to the next. */
  function Fire(script: Script, s: State, key: Key, components: seq<string>): (r: Transformed)
    requires HasRules(script, key) && InRange(script, s.indices)
    ensures InRange(script, r.state.indices)
  {
    var rules, index := RulesOf(script, key), IndexOf(s.indices, key);
    var s' := s.(indices := s.indices[key := (index + 1) % |rules|], firings := s.firings + [Firing(key, index)]);
    Transformed(s', match rules[index]
      case Reassemble(elements) => Complete(Assemble(script, elements, components))
      case Goto(target) => Follow(target)
      case Newkey => TryNext)
  }

  const MAX_DEPTH: nat := 10

  datatype Applied = Applied(state: State, visited: seq<string>, response: Option<string>)

  /** Applies a keyword and follows its links; no keyword twice, and none beyond the tenth. */
  function ApplyKeyword(script: Script, s: State, name: string, words: seq<string>, visited: seq<string>): (r: Applied)
    requires InRange(script, s.indices)
    ensures InRange(script, r.state.indices)
    decreases if |visited| > MAX_DEPTH then 0 else MAX_DEPTH + 1 - |visited|
  {
    if name in visited then Applied(s, visited, None) else
    var seen := visited + [name];
    if |seen| > MAX_DEPTH then Applied(s, seen, None) else
    var t := ApplyTransform(script, s.(applied := s.applied + [name]), name, words);
    match t.result
    case Complete(response) => Applied(t.state, seen, Some(response))
    case Follow(target) => ApplyKeyword(script, t.state, target, words, seen)
    case _ => Applied(t.state, seen, None)
  }

  // ---- One input -----------------------------------------------------------------------------

  /** The keywords of a stack in turn, until one responds. */
  function ApplyStack(script: Script, s: State, stack: seq<Ranked>, words: seq<string>, visited: seq<string>): (r: Applied)
    requires InRange(script, s.indices)
    ensures InRange(script, r.state.indices)
    decreases |stack|
  {
    if stack == [] then Applied(s, visited, None) else
    var a := ApplyKeyword(script, s, stack[0].name, words, visited);
    if a.response.Some? then a else ApplyStack(script, a.state, stack[1..], words, a.visited)
  }

  datatype Reply = Reply(state: State, response: string)

  const TELL_ME_MORE := "Please tell me more."
  const NOT_SURE := "I'm not sure I understand you fully."
  const NONE := "none"

  function ApplyNone(script: Script, s: State, words: seq<string>): (r: Reply)
    requires InRange(script, s.indices)
    ensures InRange(script, r.state.indices)
  {
    var a := ApplyKeyword(script, s, NONE, words, []);
    Reply(a.state, if a.response.Some? then a.response.value else NOT_SURE)
  }

  datatype Ranked = Ranked(name: string, precedence: nat)

  function Repaired(script: Script, words: seq<string>): seq<string> {
    if words == [] then [] else
    var lower := script.lex.lower(words[|words| - 1]);
    Repaired(script, words[..|words| - 1])
    + [if lower in script.keywords && script.keywords[lower].repair.Some? then script.keywords[lower].repair.value else lower]
  }

  /** The words that are keywords which lead somewhere, in the order of the text. */
  function Keywords(script: Script, words: seq<string>): seq<Ranked> {
    if words == [] then [] else
    var lower := script.lex.lower(words[|words| - 1]);
    Keywords(script, words[..|words| - 1])
    + if lower in script.keywords && (script.keywords[lower].transforms != [] || script.keywords[lower].link.Some?)
      then [Ranked(lower, script.keywords[lower].precedence)] else []
  }

  /** A stable sort, highest precedence first. */
  function HighestFirst(stack: seq<Ranked>): seq<Ranked> {
    if stack == [] then [] else Insert(HighestFirst(stack[..|stack| - 1]), stack[|stack| - 1])
  }

  /** Puts `x` behind everything that is not lower. */
  function Insert(stack: seq<Ranked>, x: Ranked): seq<Ranked> {
    if stack == [] || stack[|stack| - 1].precedence >= x.precedence then stack + [x]
    else Insert(stack[..|stack| - 1], x) + [stack[|stack| - 1]]
  }

  /** The memory an input leaves, if it has the memory keyword and the transform picked for it matches. */
  function MemoryOf(script: Script, words: seq<string>): Option<string> {
    match script.memory
    case None => None
    case Some(rule) =>
      if !(exists w :: w in words && script.lex.lower(w) == rule.keyword) || rule.transforms == [] then None else
      var transform := rule.transforms[script.hash(words[|words| - 1]) % |rule.transforms|];
      match Answer(words, [], FirstSplit(script.lex, transform.decomposition, words))
      case None => None
      case Some(components) =>
        if transform.rules != [] && transform.rules[0].Reassemble?
        then Some(Assemble(script, transform.rules[0].elements, components)) else None
  }

  function Remember(script: Script, s: State, words: seq<string>): State {
    match MemoryOf(script, words)
    case None => s
    case Some(memory) => s.(memories := s.memories + [memory], created := s.created + [memory])
  }

  function ProcessInput(script: Script, s: State, original: seq<string>): (r: Reply)
    requires InRange(script, s.indices)
    ensures InRange(script, r.state.indices)
  {
    var words, stack := Repaired(script, original), HighestFirst(Keywords(script, original));
    if stack == [] then
      if s.limit == 4 && s.memories != [] then
        Reply(s.(memories := s.memories[1..], recalled := s.recalled + [s.memories[0]]), s.memories[0])
      else ApplyNone(script, s, words)
    else
      var a := ApplyStack(script, Remember(script, s, words), stack, words, []);
      match a.response
      case Some(response) => Reply(a.state, response)
      case None => ApplyNone(script, a.state, words)
  }

  /** An input, and the words it is split into. */
  datatype Input = Blank | Line(words: seq<string>)

  function Respond(script: Script, s: State, input: Input): (r: Reply)
    requires InRange(script, s.indices)
    ensures InRange(script, r.state.indices)
  {
    match input
    case Blank => Reply(s, TELL_ME_MORE)
    case Line(words) =>
      var s' := s.(limit := s.limit % 4 + 1);
      if words == [] then Reply(s', TELL_ME_MORE) else ProcessInput(script, s', words)
  }

  // ---- The engine ----------------------------------------------------------------------------

  class Eliza {
    const script: Script
    var limit: nat
    var ruleIndices: map<Key, nat>
    var memories: seq<string>
    var firings: seq<Firing>
    var applied: seq<string>
    var created: seq<string>
    var recalled: seq<string>

    ghost function Value(): State
      reads this
    {
      State(limit, ruleIndices, memories, firings, applied, created, recalled)
    }

    ghost predicate Valid()
      reads this
    {
      InRange(script, ruleIndices)
    }

    /** The start positions are arbitrary indices of rules. */
    constructor (script: Script, start: map<Key, nat>)
      requires InRange(script, start)
      ensures Valid() && this.script == script && Value() == State(0, start, [], [], [], [], [])
    {
      this.script := script;
      limit, ruleIndices, memories := 0, start, [];
      firings, applied, created, recalled := [], [], [], [];
    }

    method GetResponse(input: Input) returns (response: string)
      requires Valid()
      modifies this
      ensures Valid() && Reply(Value(), response) == Respond(script, old(Value()), input)
    {
      if input.Blank? {
        return TELL_ME_MORE;
      }
      limit := limit % 4 + 1;
      if input.words == [] {
        return TELL_ME_MORE;
      }
      response := Process(input.words);
    }

    method Process(original: seq<string>) returns (response: string)
      requires Valid()
      modifies this
      ensures Valid() && Reply(Value(), response) == ProcessInput(script, old(Value()), original)
    {
      var words: seq<string>, keystack: seq<Ranked> := [], [];
      for i := 0 to |original|
        invariant words == Repaired(script, original[..i]) && keystack == Keywords(script, original[..i])
        invariant Value() == old(Value())
      {
        assert original[..i + 1][..i] == original[..i];
        var lower := script.lex.lower(original[i]);
        if lower in script.keywords {
          var keyword := script.keywords[lower];
          words := words + [if keyword.repair.Some? then keyword.repair.value else lower];
          if |keyword.transforms| > 0 || keyword.link.Some? {
            keystack := keystack + [Ranked(lower, keyword.precedence)];
          }
        } else {
          words := words + [lower];
        }
      }
      assert original[..|original|] == original;
      keystack := HighestFirst(keystack);
      if keystack == [] {
        if limit == 4 && memories != [] {
          response := memories[0];
          memories, recalled := memories[1..], recalled + [memories[0]];
        } else {
          response := FallBack(words);
        }
        return;
      }
      TryCreateMemory(words);
      response := RunStack(keystack, words);
    }

    method RunStack(keystack: seq<Ranked>, words: seq<string>) returns (response: string)
      requires Valid()
      modifies this
      ensures var a := ApplyStack(script, old(Value()), keystack, words, []);
        && Valid()
        && Reply(Value(), response)
           == if a.response.Some? then Reply(a.state, a.response.value) else ApplyNone(script, a.state, words)
    {
      var visited: seq<string> := [];
      for i := 0 to |keystack|
        invariant Valid()
        invariant ApplyStack(script, old(Value()), keystack, words, [])
               == ApplyStack(script, Value(), keystack[i..], words, visited)
      {
        assert keystack[i..][1..] == keystack[i + 1..];
        var r;
        r, visited := Apply(keystack[i].name, words, visited);
        if r.Some? {
          return r.value;
        }
      }
      response := FallBack(words);
    }

    method FallBack(words: seq<string>) returns (response: string)
      requires Valid()
      modifies this
      ensures Valid() && Reply(Value(), response) == ApplyNone(script, old(Value()), words)
    {
      var r, visited := Apply(NONE, words, []);
      response := if r.Some? then r.value else NOT_SURE;
    }

    method Apply(name: string, words: seq<string>, visited: seq<string>) returns (response: Option<string>, seen: seq<string>)
      requires Valid()
      modifies this
      ensures Valid() && Applied(Value(), seen, response) == ApplyKeyword(script, old(Value()), name, words, visited)
      decreases if |visited| > MAX_DEPTH then 0 else MAX_DEPTH + 1 - |visited|
    {
      if name in visited {
        return None, visited;
      }
      seen := visited + [name];
      if |seen| > MAX_DEPTH {
        return None, seen;
      }
      applied := applied + [name];
      var result := Transform(name, words);
      match result {
        case Complete(r) => response := Some(r);
        case Follow(target) => response, seen := Apply(target, words, seen);
        case TryNext => response := None;
        case NoMatch => response := None;
      }
    }

    method Transform(name: string, words: seq<string>) returns (result: TransformResult)
      requires Valid()
      modifies this`ruleIndices, this`firings
      ensures Valid() && Transformed(Value(), result) == ApplyTransform(script, old(Value()), name, words)
    {
      if name !in script.keywords {
        return NoMatch;
      }
      var keyword := script.keywords[name];
      if keyword.transforms == [] {
        return FollowLink(keyword);
      }
      for i := 0 to |keyword.transforms|
        invariant Value() == old(Value())
        invariant ApplyTransform(script, old(Value()), name, words) == TryTransforms(script, Value(), name, words, i)
      {
        var transform := keyword.transforms[i];
        var components := MatchPattern(script.lex, transform.decomposition, words);
        if components.Some? {
          if transform.rules == [] {
            if keyword.link.Some? {
              return Follow(keyword.link.value);
            }
          } else {
            result := FireRule(Key(name, i), components.value);
            return;
          }
        }
      }
      result := FollowLink(keyword);
    }

    method FireRule(key: Key, components: seq<string>) returns (result: TransformResult)
      requires Valid() && HasRules(script, key)
      modifies this`ruleIndices, this`firings
      ensures Valid() && Transformed(Value(), result) == Fire(script, old(Value()), key, components)
    {
      var rules, index := RulesOf(script, key), IndexOf(ruleIndices, key);
      ruleIndices := ruleIndices[key := (index + 1) % |rules|];
      firings := firings + [Firing(key, index)];
      match rules[index] {
        case Reassemble(elements) =>
          var response := PutTogether(elements, components);
          result := Complete(response);
        case Goto(target) => result := Follow(target);
        case Newkey => result := TryNext;
      }
    }

    method PutTogether(elements: seq<Element>, components: seq<string>) returns (result: string)
      ensures result == Assemble(script, elements, components)
    {
      result := "";
      for i := 0 to |elements|
        invariant result == Assemble(script, elements[..i], components)
      {
        assert elements[..i + 1][..i] == elements[..i];
        match elements[i] {
          case Text(text) => result := result + text;
          case Ref(n) =>
            if 0 < n <= |components| {
              result := result + components[n - 1];
            }
          case RefReflect(n) =>
            if 0 < n <= |components| {
              result := result + script.reflect(components[n - 1]);
            }
        }
      }
      assert elements[..|elements|] == elements;
    }

    method TryCreateMemory(words: seq<string>)
      modifies this`memories, this`created
      ensures Value() == Remember(script, old(Value()), words)
    {
      if script.memory.None? {
        return;
      }
      var rule := script.memory.value;
      if !(exists w :: w in words && script.lex.lower(w) == rule.keyword) {
        return;
      }
      var size := if |rule.transforms| > 1 then |rule.transforms| else 1;
      var index := if words != [] then script.hash(words[|words| - 1]) % size else 0;
      if index >= |rule.transforms| {
        return;
      }
      var transform := rule.transforms[index];
      var components := MatchPattern(script.lex, transform.decomposition, words);
      if components.Some? && |transform.rules| > 0 && transform.rules[0].Reassemble? {
        var memory := PutTogether(transform.rules[0].elements, components.value);
        memories, created := memories + [memory], created + [memory];
      }
    }
  }
}
