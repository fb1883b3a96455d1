// What the components of a match are: the words of its chunks; and that a rule can put them together again.

module ElizaPieces {
  import opened Outcomes
  import opened ElizaMatcher
  import opened ElizaTemplate
  import opened ElizaEngine

  // ---- Cutting at spaces ---------------------------------------------------------------------

  predicate IsWord(word: string) { word != "" && ' ' !in word }

  predicate AreWords(words: seq<string>) { forall i :: 0 <= i < |words| ==> IsWord(words[i]) }

  function FirstSpace(text: string): (i: nat)
    ensures i <= |text| && ' ' !in text[..i] && (i < |text| ==> text[i] == ' ')
  {
    if text == "" || text[0] == ' ' then 0 else
    var i := FirstSpace(text[1..]);
    assert text[..i + 1] == [text[0]] + text[1..][..i];
    i + 1
  }

  /** What stands between the spaces of a text; nothing in an empty text. */
  function Cut(text: string): seq<string>
    decreases |text|
  {
    if text == "" then [] else
    var i := FirstSpace(text);
    if i == |text| then [text] else [text[..i]] + Cut(text[i + 1..])
  }

  lemma {:induction false} SpaceBehind(word: string, rest: string)
    requires ' ' !in word
    ensures FirstSpace(word + rest) == |word| + FirstSpace(rest)
  {
    if word == "" {
      assert word + rest == rest;
    } else {
      assert (word + rest)[1..] == word[1..] + rest;
      SpaceBehind(word[1..], rest);
    }
  }

  lemma CutWord(word: string, rest: string)
    requires IsWord(word)
    ensures Cut(word) == [word] && Cut(word + " " + rest) == [word] + Cut(rest)
  {
    SpaceBehind(word, "");
    assert word + "" == word;
    var text := word + " " + rest;
    assert text == word + (" " + rest) && text[..|word|] == word && text[|word| + 1..] == rest;
    SpaceBehind(word, " " + rest);
  }

  lemma {:induction false} CutJoined(words: seq<string>)
    requires AreWords(words)
    ensures Cut(JoinWords(words)) == words
  {
    if words != [] {
      assert IsWord(words[0]);
      CutWord(words[0], JoinWords(words[1..]));
      if |words| > 1 {
        assert forall i :: 0 <= i < |words[1..]| ==> words[1..][i] == words[i + 1];
        CutJoined(words[1..]);
        assert words == [words[0]] + words[1..];
      }
    }
  }

  // ---- The components of an answer -----------------------------------------------------------

  /** How many words the first `i` chunks have. */
  function Start(lens: seq<nat>, i: nat): nat
    requires i <= |lens|
  {
    if i == 0 then 0 else Start(lens, i - 1) + lens[i - 1]
  }

  lemma {:induction false} StartFirst(lens: seq<nat>, i: nat)
    requires 0 < i <= |lens|
    ensures Start(lens, i) == lens[0] + Start(lens[1..], i - 1)
  {
    if i > 1 {
      StartFirst(lens, i - 1);
    }
  }

  /** Component `i`, cut at its spaces, is the words of chunk `i`. */
  predicate IsChunk(words: seq<string>, lens: seq<nat>, components: seq<string>, i: nat)
    requires i < |lens| == |components|
  {
    Start(lens, i) + lens[i] <= |words| && Cut(components[i]) == words[Start(lens, i)..Start(lens, i) + lens[i]]
  }

  /** There is one component for each chunk, and the chunks use up the words. */
  predicate CutsInto(words: seq<string>, lens: seq<nat>, components: seq<string>) {
    && |components| == |lens| && Start(lens, |lens|) == |words|
    && forall i :: 0 <= i < |lens| ==> IsChunk(words, lens, components, i)
  }

  lemma {:induction false} PiecesCut(lex: Lexicon, pattern: seq<PatternElement>, words: seq<string>, lens: seq<nat>)
    requires AreWords(words) && IsSplit(lex, pattern, words, lens)
    ensures CutsInto(words, lens, Pieces(words, lens))
  {
    if pattern == [] {
    } else {
      var n := lens[0];
      assert AreWords(words[..n]) && AreWords(words[n..]);
      PiecesCut(lex, pattern[1..], words[n..], lens[1..]);
      CutJoined(words[..n]);
      OnePieceMore(words, lens, Pieces(words[n..], lens[1..]));
    }
  }

  lemma OnePieceMore(words: seq<string>, lens: seq<nat>, tail: seq<string>)
    requires lens != [] && lens[0] <= |words| && CutsInto(words[lens[0]..], lens[1..], tail)
    requires Cut(JoinWords(words[..lens[0]])) == words[..lens[0]]
    ensures CutsInto(words, lens, [JoinWords(words[..lens[0]])] + tail)
  {
    var n, pieces := lens[0], [JoinWords(words[..lens[0]])] + tail;
    StartFirst(lens, |lens|);
    forall i | 0 <= i < |lens| ensures IsChunk(words, lens, pieces, i) {
      if i == 0 {
        assert words[0..n] == words[..n];
      } else {
        LaterChunk(words, lens, tail, i);
        assert pieces[i] == tail[i - 1];
      }
    }
  }

  lemma LaterChunk(words: seq<string>, lens: seq<nat>, tail: seq<string>, i: nat)
    requires 0 < i < |lens| == |tail| + 1 && lens[0] <= |words| && IsChunk(words[lens[0]..], lens[1..], tail, i - 1)
    ensures Start(lens, i) + lens[i] <= |words|
    ensures Cut(tail[i - 1]) == words[Start(lens, i)..Start(lens, i) + lens[i]]
  {
    StartFirst(lens, i);
    ChunkBehind(words, lens[0], Start(lens[1..], i - 1), lens[i]);
  }

  lemma ChunkBehind(words: seq<string>, n: nat, start: nat, len: nat)
    requires n <= |words| && start + len <= |words| - n
    ensures words[n..][start..start + len] == words[n + start..n + start + len]
  {
  }

  /** The matcher answers if and only if there is a split; the answer has one component for each element, and each
      component, cut at its spaces, is the words of that chunk of the first split. */
  lemma {:induction false} AnswerCutsBack(lex: Lexicon, pattern: seq<PatternElement>, words: seq<string>)
    requires AreWords(words)
    ensures match Answer(words, [], FirstSplit(lex, pattern, words))
      case None => forall split :: !IsSplit(lex, pattern, words, split)
      case Some(components) => exists split :: IsFirst(lex, pattern, words, split) && CutsInto(words, split, components)
  {
    var found := FirstSplit(lex, pattern, words);
    if found.Some? {
      FoundIsSplit(lex, pattern, words);
      MatchIsFirstSplit(lex, pattern, words, found.value);
      PiecesCut(lex, pattern, words, found.value);
      assert [] + Pieces(words, found.value) == Pieces(words, found.value);
    } else {
      forall split ensures !IsSplit(lex, pattern, words, split) {
        if IsSplit(lex, pattern, words, split) {
          FoundIsFirst(lex, pattern, words, split);
        }
      }
    }
  }

  // ---- Putting them together again -----------------------------------------------------------

  function Flat(parts: seq<string>): string {
    if parts == [] then "" else parts[0] + Flat(parts[1..])
  }

  lemma {:induction false} FlatMore(parts: seq<string>, part: string)
    ensures Flat(parts + [part]) == Flat(parts) + part
  {
    if parts == [] {
      assert [part][1..] == [] && parts + [part] == [part];
      assert part + "" == part && "" + part == part;
    } else {
      assert (parts + [part])[1..] == parts[1..] + [part];
      FlatMore(parts[1..], part);
      assert parts[0] + (Flat(parts[1..]) + part) == parts[0] + Flat(parts[1..]) + part;
    }
  }

  /** What an element stands for; components are counted from 1, and a number that none has stands for nothing. */
  predicate StandsFor(script: Script, e: Element, components: seq<string>, part: string) {
    match e
    case Text(text) => part == text
    case Ref(n) => if IsNumbered(components, n) then part == components[n - 1] else part == ""
    case RefReflect(n) => if IsNumbered(components, n) then part == script.reflect(components[n - 1]) else part == ""
  }

  predicate IsNumbered(components: seq<string>, n: nat) { 1 <= n <= |components| }

  /** An answer is what its elements stand for, one behind the other. */
  lemma {:induction false} AnswerIsItsParts(script: Script, elements: seq<Element>, components: seq<string>) returns (parts: seq<string>)
    ensures |parts| == |elements| && Assemble(script, elements, components) == Flat(parts)
    ensures forall i :: 0 <= i < |elements| ==> StandsFor(script, elements[i], components, parts[i])
  {
    if elements == [] {
      parts := [];
    } else {
      var k := |elements| - 1;
      var init := AnswerIsItsParts(script, elements[..k], components);
      var last := Piece(script, elements[k], components);
      parts := init + [last];
      FlatMore(init, last);
      forall i | 0 <= i < |elements| ensures StandsFor(script, elements[i], components, parts[i]) {
        if i < k {
          assert StandsFor(script, elements[..k][i], components, init[i]);
        }
      }
    }
  }

  /** The rule that says all components again: `{1} {2} {3}` and so on. */
  function Echo(n: nat): seq<Element>
    requires n > 0
  {
    if n == 1 then [Ref(1)] else Echo(n - 1) + [Text(" ")] + [Ref(n)]
  }

  lemma {:induction false} JoinBoth(a: seq<string>, b: seq<string>)
    requires a != [] && b != []
    ensures JoinWords(a) + " " + JoinWords(b) == JoinWords(a + b)
  {
    if |a| == 1 {
      assert (a + b)[1..] == b && (a + b)[0] == a[0];
    } else {
      assert (a + b)[1..] == a[1..] + b && (a + b)[0] == a[0];
      JoinBoth(a[1..], b);
      assert a[0] + " " + (JoinWords(a[1..]) + " " + JoinWords(b)) == a[0] + " " + JoinWords(a[1..]) + " " + JoinWords(b);
    }
  }

  lemma AssembleMore(script: Script, elements: seq<Element>, components: seq<string>, e: Element)
    ensures Assemble(script, elements + [e], components) == Assemble(script, elements, components) + Piece(script, e, components)
  {
    assert (elements + [e])[..|elements|] == elements;
  }

  lemma {:induction false} StartGrows(lens: seq<nat>, i: nat)
    requires i <= |lens|
    ensures Start(lens, i) <= Start(lens, |lens|) && (i > 0 && lens[i - 1] > 0 ==> Start(lens, i) > 0)
    decreases |lens| - i
  {
    if i < |lens| {
      StartGrows(lens, i + 1);
    }
  }

  /** The words of chunk `i`, joined. */
  predicate IsPiece(words: seq<string>, lens: seq<nat>, i: nat, piece: string)
    requires i < |lens|
  {
    Start(lens, i) + lens[i] <= |words| && piece == JoinWords(words[Start(lens, i)..Start(lens, i) + lens[i]])
  }

  lemma {:induction false} PieceAt(words: seq<string>, lens: seq<nat>, i: nat)
    requires i < |lens| && Start(lens, |lens|) <= |words|
    ensures i < |Pieces(words, lens)| && IsPiece(words, lens, i, Pieces(words, lens)[i])
  {
    StartFirst(lens, |lens|);
    var n := lens[0];
    assert Pieces(words, lens) == [JoinWords(words[..n])] + Pieces(words[n..], lens[1..]);
    if i == 0 {
      FirstPiece(words, lens);
    } else {
      PieceAt(words[n..], lens[1..], i - 1);
      LaterPiece(words, lens, i, Pieces(words[n..], lens[1..])[i - 1]);
    }
  }

  lemma FirstPiece(words: seq<string>, lens: seq<nat>)
    requires lens != [] && lens[0] <= |words|
    ensures IsPiece(words, lens, 0, JoinWords(words[..lens[0]]))
  {
    assert words[0..lens[0]] == words[..lens[0]];
  }

  lemma LaterPiece(words: seq<string>, lens: seq<nat>, i: nat, piece: string)
    requires 0 < i < |lens| && lens[0] <= |words| && IsPiece(words[lens[0]..], lens[1..], i - 1, piece)
    ensures IsPiece(words, lens, i, piece)
  {
    StartFirst(lens, i);
    ChunkBehind(words, lens[0], Start(lens[1..], i - 1), lens[i]);
  }

  lemma {:induction false} EchoJoins(script: Script, words: seq<string>, lens: seq<nat>, n: nat)
    requires 0 < n <= |lens| && Start(lens, |lens|) <= |words| && forall j :: 0 <= j < |lens| ==> lens[j] > 0
    ensures Start(lens, n) <= |words|
    ensures Assemble(script, Echo(n), Pieces(words, lens)) == JoinWords(words[..Start(lens, n)])
  {
    StartGrows(lens, n);
    PieceAt(words, lens, n - 1);
    if n == 1 {
      EchoFirst(script, words, lens, Pieces(words, lens));
    } else {
      EchoJoins(script, words, lens, n - 1);
      StartGrows(lens, n - 1);
      EchoOn(script, words, lens, Pieces(words, lens), n);
    }
  }

  lemma EchoFirst(script: Script, words: seq<string>, lens: seq<nat>, pieces: seq<string>)
    requires lens != [] && pieces != [] && IsPiece(words, lens, 0, pieces[0])
    ensures Assemble(script, Echo(1), pieces) == JoinWords(words[..Start(lens, 1)])
  {
    AssembleMore(script, [], pieces, Ref(1));
    assert [] + [Ref(1)] == [Ref(1)] && "" + pieces[0] == pieces[0];
    assert words[0..lens[0]] == words[..lens[0]] && Start(lens, 1) == lens[0];
  }

  lemma EchoOn(script: Script, words: seq<string>, lens: seq<nat>, pieces: seq<string>, n: nat)
    requires 1 < n <= |lens| && n <= |pieces| && IsPiece(words, lens, n - 1, pieces[n - 1])
    requires Start(lens, n - 1) > 0 && lens[n - 1] > 0
    requires Assemble(script, Echo(n - 1), pieces) == JoinWords(words[..Start(lens, n - 1)])
    ensures Assemble(script, Echo(n), pieces) == JoinWords(words[..Start(lens, n)])
  {
    EchoStep(script, pieces, n);
    JoinUp(words, Start(lens, n - 1), Start(lens, n));
  }

  lemma JoinUp(words: seq<string>, i: nat, j: nat)
    requires 0 < i < j <= |words|
    ensures JoinWords(words[..i]) + " " + JoinWords(words[i..j]) == JoinWords(words[..j])
  {
    JoinBoth(words[..i], words[i..j]);
    assert words[..i] + words[i..j] == words[..j];
  }

  lemma EchoStep(script: Script, components: seq<string>, n: nat)
    requires 1 < n <= |components|
    ensures Assemble(script, Echo(n), components) == Assemble(script, Echo(n - 1), components) + " " + components[n - 1]
  {
    AssembleMore(script, Echo(n - 1), components, Text(" "));
    AssembleMore(script, Echo(n - 1) + [Text(" ")], components, Ref(n));
  }

  lemma {:induction false} PrintMore(elements: seq<Element>, e: Element)
    ensures Print(elements + [e]) == Print(elements) + PrintElement(e)
  {
    if elements == [] {
      assert elements + [e] == [e] && [e][1..] == [];
      assert PrintElement(e) + "" == PrintElement(e) && "" + PrintElement(e) == PrintElement(e);
    } else {
      assert (elements + [e])[1..] == elements[1..] + [e];
      PrintMore(elements[1..], e);
      assert PrintElement(elements[0]) + (Print(elements[1..]) + PrintElement(e))
          == PrintElement(elements[0]) + Print(elements[1..]) + PrintElement(e);
    }
  }

  lemma {:induction false} EchoIsCanonical(n: nat)
    requires 0 < n <= MAX_INDEX
    ensures Canonical(Echo(n)) && Echo(n)[|Echo(n)| - 1] == Ref(n)
    ensures var printed := Print(Echo(n)); printed != "" && printed[0] == '{' && printed[|printed| - 1] == '}'
  {
    if n == 1 {
      assert Print([Ref(1)]) == "{" + Decimal(1) + "}" + "" && [Ref(1)][1..] == [];
    } else {
      EchoIsCanonical(n - 1);
      CanonicalMore(Echo(n - 1), n);
      PrintMore(Echo(n - 1), Text(" "));
      PrintMore(Echo(n - 1) + [Text(" ")], Ref(n));
      Braced(Print(Echo(n - 1)), " ", Decimal(n));
    }
  }

  lemma CanonicalMore(elements: seq<Element>, n: nat)
    requires Canonical(elements) && elements != [] && !elements[|elements| - 1].Text? && n <= MAX_INDEX
    ensures Canonical(elements + [Text(" ")] + [Ref(n)])
  {
    var more := elements + [Text(" ")] + [Ref(n)];
    forall i | 0 <= i < |more| ensures CanonicalElement(more[i]) {
    }
    forall i | 0 < i < |more| ensures !(more[i - 1].Text? && more[i].Text?) {
    }
  }

  lemma Braced(a: string, b: string, c: string)
    requires a != "" && a[0] == '{'
    ensures var text := a + b + ("{" + c + "}"); text != "" && text[0] == '{' && text[|text| - 1] == '}'
  {
  }

  /** A rule that says all components again says the input's words again, each once and in order: from the text of the
      rule, through the match, to the answer. Only chunks without words would leave a trace, an extra space. */
  lemma {:induction false} EchoSaysAllWords(script: Script, chars: Chars, pattern: seq<PatternElement>, words: seq<string>)
    requires AreWords(words) && 0 < |pattern| <= MAX_INDEX && !chars.isSpace('{') && !chars.isSpace('}')
    requires FirstSplit(script.lex, pattern, words).Some?
    requires forall i :: 0 <= i < |FirstSplit(script.lex, pattern, words).value| ==> FirstSplit(script.lex, pattern, words).value[i] > 0
    ensures var rule := Read(chars, Print(Echo(|pattern|)));
      && rule.Reassemble?
      && Cut(Assemble(script, rule.elements, Answer(words, [], FirstSplit(script.lex, pattern, words)).value)) == words
  {
    var n, lens, printed := |pattern|, FirstSplit(script.lex, pattern, words).value, Print(Echo(|pattern|));
    EchoIsCanonical(n);
    assert Trim(chars, printed) == printed && !IsNewkey(printed);
    TemplateRoundTrip(chars, Echo(n));
    FoundIsSplit(script.lex, pattern, words);
    PiecesCut(script.lex, pattern, words, lens);
    EchoJoins(script, words, lens, n);
    assert [] + Pieces(words, lens) == Pieces(words, lens);
    assert words[..Start(lens, n)] == words;
    CutJoined(words);
  }
}
