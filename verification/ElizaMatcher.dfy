// ELIZA's backtracking matcher, and what its answer is.

module ElizaMatcher {
  import opened Outcomes

  datatype PatternElement =
    | Exact(word: string)
    | Count(n: nat)
    | Between(min: nat, max: nat)
    | Wildcard
    | AnyOf(options: seq<string>)
    | Tag(name: string)

  /** What words mean to a script: their lower case, and which of them carry a tag. */
  datatype Lexicon = Lexicon(lower: string -> string, tags: map<string, seq<string>>)

  function JoinWords(words: seq<string>): string {
    if words == [] then "" else if |words| == 1 then words[0] else words[0] + " " + JoinWords(words[1..])
  }

  // ---- The specification ---------------------------------------------------------------------

  predicate Admits(lex: Lexicon, element: PatternElement, chunk: seq<string>) {
    match element
    case Exact(word) => |chunk| == 1 && lex.lower(chunk[0]) == word
    case Count(n) => |chunk| == n
    case Between(min, max) => min <= |chunk| <= max
    case Wildcard => true
    case AnyOf(options) => |chunk| == 1 && lex.lower(chunk[0]) in options
    case Tag(name) => |chunk| == 1 && name in lex.tags && lex.lower(chunk[0]) in lex.tags[name]
  }

  /** The lengths of consecutive chunks that use up all words, each admitted by its element. */
  predicate IsSplit(lex: Lexicon, pattern: seq<PatternElement>, words: seq<string>, lens: seq<nat>) {
    |lens| == |pattern|
    && if pattern == [] then words == [] else
      && lens[0] <= |words|
      && Admits(lex, pattern[0], words[..lens[0]])
      && IsSplit(lex, pattern[1..], words[lens[0]..], lens[1..])
  }

  /** Wildcards prefer short chunks, ranges long ones. */
  predicate Prefers(element: PatternElement, a: nat, b: nat) {
    match element
    case Wildcard => a < b
    case Between(_, _) => a > b
    case _ => false
  }

  /** The leftmost difference decides. */
  predicate Before(pattern: seq<PatternElement>, a: seq<nat>, b: seq<nat>)
    requires |pattern| == |a| == |b|
  {
    pattern != []
    && if a[0] == b[0] then Before(pattern[1..], a[1..], b[1..]) else Prefers(pattern[0], a[0], b[0])
  }

  /** The chunks, each joined by spaces. */
  function Pieces(words: seq<string>, lens: seq<nat>): seq<string> {
    if lens == [] || lens[0] > |words| then [] else
    [JoinWords(words[..lens[0]])] + Pieces(words[lens[0]..], lens[1..])
  }

  // ---- The search ----------------------------------------------------------------------------

  /** All lengths from `high` down to `low`. */
  function Down(high: nat, low: nat): seq<nat>
    decreases high
  {
    if high < low then [] else if high == 0 then [0] else [high] + Down(high - 1, low)
  }

  /** All lengths from `low` to `high`. */
  function Up(low: nat, high: nat): seq<nat>
    decreases high - low
  {
    if low > high then [] else [low] + Up(low + 1, high)
  }

  /** The lengths tried for an element, in order. */
  function Candidates(element: PatternElement, words: nat): seq<nat> {
    match element
    case Count(n) => [n]
    case Between(min, max) => Down(max, min)
    case Wildcard => Up(0, words)
    case _ => [1]
  }

  /** The first split found: by trying every length in turn, and everything behind it before the next. */
  function FirstSplit(lex: Lexicon, pattern: seq<PatternElement>, words: seq<string>): Option<seq<nat>>
    decreases |pattern|, 0
  {
    if pattern == [] then (if words == [] then Some([]) else None)
    else FirstFrom(lex, pattern, words, Candidates(pattern[0], |words|))
  }

  function FirstFrom(lex: Lexicon, pattern: seq<PatternElement>, words: seq<string>, lens: seq<nat>): Option<seq<nat>>
    requires pattern != []
    decreases |pattern| - 1, |lens| + 1
  {
    if lens == [] then None else
    match TryLength(lex, pattern, words, lens[0])
    case Some(split) => Some(split)
    case None => FirstFrom(lex, pattern, words, lens[1..])
  }

  function TryLength(lex: Lexicon, pattern: seq<PatternElement>, words: seq<string>, n: nat): Option<seq<nat>>
    requires pattern != []
    decreases |pattern| - 1, 1
  {
    if n > |words| || !Admits(lex, pattern[0], words[..n]) then None else
    match FirstSplit(lex, pattern[1..], words[n..])
    case None => None
    case Some(rest) => Some([n] + rest)
  }

  function Answer(words: seq<string>, components: seq<string>, split: Option<seq<nat>>): Option<seq<string>> {
    match split case None => None case Some(lens) => Some(components + Pieces(words, lens))
  }

  method MatchPattern(lex: Lexicon, pattern: seq<PatternElement>, words: seq<string>) returns (r: Option<seq<string>>)
    ensures r == Answer(words, [], FirstSplit(lex, pattern, words))
  {
    r := MatchPatternRecursive(lex, pattern, words, []);
  }

  method MatchPatternRecursive(lex: Lexicon, pattern: seq<PatternElement>, words: seq<string>, components: seq<string>)
    returns (r: Option<seq<string>>)
    ensures r == Answer(words, components, FirstSplit(lex, pattern, words))
    decreases |pattern|, 0
  {
    if pattern == [] {
      assert components + [] == components;
      return if words == [] then Some(components) else None;
    }
    match pattern[0] {
      case Exact(expected) =>
        OneCandidate(lex, pattern, words, 1);
        if words == [] || lex.lower(words[0]) != expected {
          return None;
        }
        r := MatchRest(lex, pattern, words, components, 1);
      case Count(n) =>
        OneCandidate(lex, pattern, words, n);
        if |words| < n {
          return None;
        }
        r := MatchRest(lex, pattern, words, components, n);
      case Between(min, max) =>
        var n := max + 1;
        while n > min
          invariant n <= max + 1
          invariant FirstSplit(lex, pattern, words) == FirstFrom(lex, pattern, words, if n == 0 then [] else Down(n - 1, min))
        {
          n := n - 1;
          if |words| >= n {
            r := MatchRest(lex, pattern, words, components, n);
            if r.Some? {
              return;
            }
          }
          assert Down(n, min)[1..] == if n == 0 then [] else Down(n - 1, min);
        }
        r := None;
      case Wildcard =>
        for n := 0 to |words| + 1
          invariant FirstSplit(lex, pattern, words) == FirstFrom(lex, pattern, words, Up(n, |words|))
        {
          assert Up(n, |words|)[1..] == Up(n + 1, |words|);
          r := MatchRest(lex, pattern, words, components, n);
          if r.Some? {
            return;
          }
        }
        r := None;
      case AnyOf(options) =>
        OneCandidate(lex, pattern, words, 1);
        if words == [] || lex.lower(words[0]) !in options {
          return None;
        }
        r := MatchRest(lex, pattern, words, components, 1);
      case Tag(name) =>
        OneCandidate(lex, pattern, words, 1);
        if words == [] || name !in lex.tags || lex.lower(words[0]) !in lex.tags[name] {
          return None;
        }
        r := MatchRest(lex, pattern, words, components, 1);
    }
  }

  /** Takes a chunk of `n` words as the next component and matches the rest of the pattern behind it. */
  method MatchRest(lex: Lexicon, pattern: seq<PatternElement>, words: seq<string>, components: seq<string>, n: nat)
    returns (r: Option<seq<string>>)
    requires pattern != [] && n <= |words| && Admits(lex, pattern[0], words[..n])
    ensures r == Answer(words, components, TryLength(lex, pattern, words, n))
    decreases |pattern| - 1, 1
  {
    r := MatchPatternRecursive(lex, pattern[1..], words[n..], components + [JoinWords(words[..n])]);
    var rest := FirstSplit(lex, pattern[1..], words[n..]);
    if rest.Some? {
      assert Pieces(words, [n] + rest.value) == [JoinWords(words[..n])] + Pieces(words[n..], rest.value);
      assert components + ([JoinWords(words[..n])] + Pieces(words[n..], rest.value))
          == components + [JoinWords(words[..n])] + Pieces(words[n..], rest.value);
    }
  }

  lemma OneCandidate(lex: Lexicon, pattern: seq<PatternElement>, words: seq<string>, n: nat)
    requires pattern != [] && Candidates(pattern[0], |words|) == [n]
    ensures FirstSplit(lex, pattern, words) == TryLength(lex, pattern, words, n)
  {
    assert [n][1..] == [] && FirstFrom(lex, pattern, words, []) == None;
  }

  // ---- The answer ----------------------------------------------------------------------------

  lemma {:induction false} DownTries(high: nat, low: nat)
    ensures forall n :: n in Down(high, low) <==> low <= n <= high
    ensures forall i, j :: 0 <= i < j < |Down(high, low)| ==> Down(high, low)[i] > Down(high, low)[j]
    decreases high
  {
    if high >= low && high > 0 {
      DownTries(high - 1, low);
      assert Down(high, low) == [high] + Down(high - 1, low);
      var rest := Down(high - 1, low);
      assert forall j :: 0 <= j < |rest| ==> rest[j] in rest;
    }
  }

  lemma {:induction false} UpTries(low: nat, high: nat)
    ensures forall n :: n in Up(low, high) <==> low <= n <= high
    ensures forall i, j :: 0 <= i < j < |Up(low, high)| ==> Up(low, high)[i] < Up(low, high)[j]
    decreases high - low
  {
    if low <= high {
      UpTries(low + 1, high);
      assert Up(low, high) == [low] + Up(low + 1, high);
      var rest := Up(low + 1, high);
      assert forall j :: 0 <= j < |rest| ==> rest[j] in rest;
    }
  }

  /** Every length an element admits is tried, preferred ones first. */
  lemma {:induction false} AllAreTried(lex: Lexicon, element: PatternElement, words: seq<string>)
    ensures var lens := Candidates(element, |words|);
      && (forall n :: 0 <= n <= |words| && Admits(lex, element, words[..n]) ==> n in lens)
      && (forall i, j :: 0 <= i < j < |lens| ==> Prefers(element, lens[i], lens[j]))
  {
    match element
    case Between(min, max) => DownTries(max, min);
    case Wildcard => UpTries(0, |words|);
    case _ =>
  }

  /** What is found is a split. */
  lemma {:induction false} FoundIsSplit(lex: Lexicon, pattern: seq<PatternElement>, words: seq<string>)
    ensures FirstSplit(lex, pattern, words).Some? ==> IsSplit(lex, pattern, words, FirstSplit(lex, pattern, words).value)
    decreases |pattern|
  {
    if pattern != [] && FirstSplit(lex, pattern, words).Some? {
      var n := FoundAt(lex, pattern, words, Candidates(pattern[0], |words|));
      FoundIsSplit(lex, pattern[1..], words[n..]);
    }
  }

  lemma {:induction false} FoundAt(lex: Lexicon, pattern: seq<PatternElement>, words: seq<string>, lens: seq<nat>) returns (n: nat)
    requires pattern != [] && FirstFrom(lex, pattern, words, lens).Some?
    ensures n in lens && FirstFrom(lex, pattern, words, lens) == TryLength(lex, pattern, words, n)
    decreases |lens|
  {
    if TryLength(lex, pattern, words, lens[0]).Some? {
      n := lens[0];
    } else {
      n := FoundAt(lex, pattern, words, lens[1..]);
    }
  }

  /** If there is a split at all one is found, and no other comes before it. */
  lemma {:induction false} FoundIsFirst(lex: Lexicon, pattern: seq<PatternElement>, words: seq<string>, other: seq<nat>)
    requires IsSplit(lex, pattern, words, other)
    ensures FirstSplit(lex, pattern, words).Some?
    ensures var found := FirstSplit(lex, pattern, words).value;
      |found| == |pattern| && (found == other || Before(pattern, found, other))
    decreases |pattern|
  {
    if pattern == [] {
      assert other == [];
    } else {
      var lens := Candidates(pattern[0], |words|);
      AllAreTried(lex, pattern[0], words);
      FoundIsFirst(lex, pattern[1..], words[other[0]..], other[1..]);
      FirstOfLengths(lex, pattern, words, lens, other);
      FoundIsSplit(lex, pattern, words);
    }
  }

  lemma {:induction false} FirstOfLengths(lex: Lexicon, pattern: seq<PatternElement>, words: seq<string>, lens: seq<nat>, other: seq<nat>)
    requires pattern != [] && IsSplit(lex, pattern, words, other) && other[0] in lens
    requires forall i, j :: 0 <= i < j < |lens| ==> Prefers(pattern[0], lens[i], lens[j])
    requires FirstSplit(lex, pattern[1..], words[other[0]..]).Some?
    requires var rest := FirstSplit(lex, pattern[1..], words[other[0]..]).value;
      |rest| == |pattern| - 1 && (rest == other[1..] || Before(pattern[1..], rest, other[1..]))
    ensures FirstFrom(lex, pattern, words, lens).Some?
    ensures var found := FirstFrom(lex, pattern, words, lens).value;
      |found| == |pattern| ==> found == other || Before(pattern, found, other)
    decreases |lens|
  {
    var n := lens[0];
    var tried := TryLength(lex, pattern, words, n);
    if n == other[0] {
      var rest := FirstSplit(lex, pattern[1..], words[n..]).value;
      assert tried == Some([n] + rest);
      assert ([n] + rest)[1..] == rest && other == [n] + other[1..];
    } else if tried.Some? {
      var k :| 0 <= k < |lens| && lens[k] == other[0];
      assert Prefers(pattern[0], lens[0], lens[k]);
      assert tried.value[0] == n;
    } else {
      assert other[0] in lens[1..];
      FirstOfLengths(lex, pattern, words, lens[1..], other);
    }
  }

  /** No other split comes before this one. */
  ghost predicate IsFirst(lex: Lexicon, pattern: seq<PatternElement>, words: seq<string>, split: seq<nat>) {
    && IsSplit(lex, pattern, words, split)
    && forall other :: IsSplit(lex, pattern, words, other) && other != split ==> Before(pattern, split, other)
  }

  /** The matcher answers if and only if the words can be split, with the pieces of the first split there is. */
  lemma {:induction false} MatchIsFirstSplit(lex: Lexicon, pattern: seq<PatternElement>, words: seq<string>, split: seq<nat>)
    ensures FirstSplit(lex, pattern, words) == Some(split) <==> IsFirst(lex, pattern, words, split)
  {
    FoundIsSplit(lex, pattern, words);
    var found := FirstSplit(lex, pattern, words);
    if found == Some(split) {
      forall other | IsSplit(lex, pattern, words, other) && other != split ensures Before(pattern, split, other) {
        FoundIsFirst(lex, pattern, words, other);
      }
    } else if IsFirst(lex, pattern, words, split) {
      FoundIsFirst(lex, pattern, words, split);
      NotBoth(pattern, found.value, split);
    }
  }

  lemma {:induction false} NotBoth(pattern: seq<PatternElement>, a: seq<nat>, b: seq<nat>)
    requires |pattern| == |a| == |b|
    ensures !(Before(pattern, a, b) && Before(pattern, b, a))
  {
    if pattern != [] && a[0] == b[0] {
      NotBoth(pattern[1..], a[1..], b[1..]);
    }
  }

  // ---- What elements mean --------------------------------------------------------------------

  /** Capitals do not matter: words that are the same in lower case are split the same way. */
  lemma {:induction false} CapitalsDoNotMatter(lex: Lexicon, pattern: seq<PatternElement>, words: seq<string>, words': seq<string>, lens: seq<nat>)
    requires |words| == |words'| && forall i :: 0 <= i < |words| ==> lex.lower(words[i]) == lex.lower(words'[i])
    ensures IsSplit(lex, pattern, words, lens) <==> IsSplit(lex, pattern, words', lens)
    decreases |pattern|
  {
    if |lens| == |pattern| && pattern != [] && lens[0] <= |words| {
      var rest, rest' := words[lens[0]..], words'[lens[0]..];
      forall i | 0 <= i < |rest| ensures lex.lower(rest[i]) == lex.lower(rest'[i]) {
        assert rest[i] == words[lens[0] + i] && rest'[i] == words'[lens[0] + i];
      }
      CapitalsDoNotMatter(lex, pattern[1..], rest, rest', lens[1..]);
    }
  }

  /** Two elements that say the same: a number and the range of that number alone, a word and the choice of that word
      alone, a tag and the choice of the words that carry it, a wildcard and a range without limits for the text. */
  predicate SaySame(lex: Lexicon, words: nat, e: PatternElement, e': PatternElement) {
    match (e, e')
    case (Count(n), Between(min, max)) => n == min == max
    case (Exact(word), AnyOf(options)) => options == [word]
    case (Tag(name), AnyOf(options)) => options == if name in lex.tags then lex.tags[name] else []
    case (Wildcard, Between(min, max)) => min == 0 && max >= words
    case _ => false
  }

  /** One may stand for the other anywhere in a pattern. */
  lemma {:induction false} SameSplits(lex: Lexicon, pattern: seq<PatternElement>, words: seq<string>, lens: seq<nat>,
                                      i: nat, e: PatternElement, e': PatternElement)
    requires i < |pattern| && SaySame(lex, |words|, e, e')
    ensures IsSplit(lex, pattern[i := e], words, lens) <==> IsSplit(lex, pattern[i := e'], words, lens)
    decreases |pattern|
  {
    if |lens| == |pattern| && lens[0] <= |words| {
      var n := lens[0];
      if i == 0 {
        assert pattern[0 := e][1..] == pattern[0 := e'][1..];
        assert Admits(lex, e, words[..n]) <==> Admits(lex, e', words[..n]);
      } else {
        assert pattern[i := e][1..] == pattern[1..][i - 1 := e] && pattern[i := e'][1..] == pattern[1..][i - 1 := e'];
        SameSplits(lex, pattern[1..], words[n..], lens[1..], i - 1, e, e');
      }
    }
  }
}
