// The templates of ELIZA's reassembly rules: reading one, and reading back what was printed.

module ElizaTemplate {
  import opened Outcomes

  datatype Element = Text(text: string) | Ref(n: nat) | RefReflect(n: nat)

  datatype Action = Reassemble(elements: seq<Element>) | Goto(target: string) | Newkey

  const MAX_INDEX: nat := 0xFFFF_FFFF_FFFF_FFFF

  /** What Unicode contributes: which characters are white space, and lower case. */
  datatype Chars = Chars(isSpace: char -> bool, lower: string -> string)

  // ---- Numbers -------------------------------------------------------------------------------

  predicate IsDigit(c: char) { '0' <= c <= '9' }

  predicate AllDigits(s: string) { forall i :: 0 <= i < |s| ==> IsDigit(s[i]) }

  function Value(s: string): nat
    requires AllDigits(s)
  {
    if s == "" then 0 else 10 * Value(s[..|s| - 1]) + (s[|s| - 1] - '0') as nat
  }

  /** A machine index, unless the digits overflow it. */
  function ParseIndex(s: string): Option<nat>
    requires AllDigits(s)
  {
    if s != "" && Value(s) <= MAX_INDEX then Some(Value(s)) else None
  }

  function Digit(d: nat): (c: char)
    requires d < 10
    ensures IsDigit(c) && (c - '0') as nat == d
  {
    '0' + d as char
  }

  function Decimal(n: nat): (s: string)
    ensures s != "" && AllDigits(s)
  {
    if n < 10 then [Digit(n)] else Decimal(n / 10) + [Digit(n % 10)]
  }

  lemma {:induction false} DecimalReadsBack(n: nat)
    ensures Value(Decimal(n)) == n
  {
    if n < 10 {
      assert [Digit(n)][..0] == "";
    } else {
      DecimalReadsBack(n / 10);
      var s := Decimal(n);
      assert s[..|s| - 1] == Decimal(n / 10) && s[|s| - 1] == Digit(n % 10);
    }
  }

  // ---- Reading -------------------------------------------------------------------------------

  /** Where reading a possible reference ends: the digits, empty if it is not one; the text with anything that
      turned out to be literal; and what is left to read. */
  datatype Reference = Reference(digits: string, reflect: bool, text: string, rest: string)

  /** Reads on behind a brace and `digits`. */
  function ReadReference(chars: string, digits: string, reflect: bool, text: string): (r: Reference)
    requires AllDigits(digits)
    ensures AllDigits(r.digits) && |r.rest| <= |chars|
    decreases |chars|
  {
    if chars == "" then Reference(digits, reflect, text, chars)
    else if chars[0] == '}' then Reference(digits, reflect, text, chars[1..])
    else if IsDigit(chars[0]) then ReadReference(chars[1..], digits + [chars[0]], reflect, text)
    else if chars[0] == ':' && digits != "" then
      if |chars| > 1 && chars[1] == 'r' then ReadReference(chars[2..], digits, true, text)
      else ReadReference(chars[1..], digits, reflect, text)
    else Reference("", reflect, text + "{" + digits, chars)
  }

  function Flush(elements: seq<Element>, text: string): seq<Element> {
    if text == "" then elements else elements + [Text(text)]
  }

  function ReadElements(chars: string, elements: seq<Element>, text: string): seq<Element>
    decreases |chars|
  {
    if chars == "" then Flush(elements, text)
    else if chars[0] != '{' then ReadElements(chars[1..], elements, text + [chars[0]])
    else
      var reference := ReadReference(chars[1..], "", false, text);
      match ParseIndex(reference.digits)
      case None => ReadElements(reference.rest, elements, reference.text)
      case Some(n) =>
        var element := if reference.reflect then RefReflect(n) else Ref(n);
        ReadElements(reference.rest, Flush(elements, reference.text) + [element], "")
  }

  function TrimStart(chars: Chars, s: string): string {
    if s != "" && chars.isSpace(s[0]) then TrimStart(chars, s[1..]) else s
  }

  function TrimEnd(chars: Chars, s: string): string {
    if s != "" && chars.isSpace(s[|s| - 1]) then TrimEnd(chars, s[..|s| - 1]) else s
  }

  function Trim(chars: Chars, s: string): string {
    TrimEnd(chars, TrimStart(chars, s))
  }

  predicate SameLetter(c: char, upper: char) {
    c == upper || ('a' <= c <= 'z' && 'A' <= upper <= 'Z' && c - 'a' == upper - 'A')
  }

  predicate IsNewkey(s: string) {
    |s| == 6 && forall i :: 0 <= i < 6 ==> SameLetter(s[i], "NEWKEY"[i])
  }

  function Read(chars: Chars, s: string): Action {
    var trimmed := Trim(chars, s);
    if trimmed != "" && trimmed[0] == '=' then Goto(chars.lower(trimmed[1..]))
    else if IsNewkey(trimmed) then Newkey
    else Reassemble(ReadElements(trimmed, [], ""))
  }

  method Parse(chars: Chars, s: string) returns (action: Action)
    ensures action == Read(chars, s)
  {
    var trimmed := Trim(chars, s);
    if |trimmed| > 0 && trimmed[0] == '=' {
      return Goto(chars.lower(trimmed[1..]));
    }
    if IsNewkey(trimmed) {
      return Newkey;
    }
    var elements, text, i := [], "", 0;
    while i < |trimmed|
      invariant i <= |trimmed|
      invariant ReadElements(trimmed, [], "") == ReadElements(trimmed[i..], elements, text)
      decreases |trimmed| - i
    {
      var c := trimmed[i];
      assert trimmed[i..][1..] == trimmed[i + 1..];
      i := i + 1;
      if c == '{' {
        var digits, reflect;
        digits, reflect, text, i := ParseReference(trimmed, i, text);
        var index := ParseIndex(digits);
        if index.Some? {
          if text != "" {
            elements := elements + [Text(text)];
            text := "";
          }
          elements := elements + [if reflect then RefReflect(index.value) else Ref(index.value)];
        }
      } else {
        text := text + [c];
      }
    }
    if text != "" {
      elements := elements + [Text(text)];
    }
    action := Reassemble(elements);
  }

  /** The inner loop, from behind an opening brace. */
  method ParseReference(chars: string, start: nat, before: string) returns (digits: string, reflect: bool, text: string, i: nat)
    requires start <= |chars|
    ensures start <= i <= |chars| && Reference(digits, reflect, text, chars[i..]) == ReadReference(chars[start..], "", false, before)
  {
    digits, reflect, text, i := "", false, before, start;
    while i < |chars|
      invariant start <= i <= |chars| && AllDigits(digits) && text == before
      invariant ReadReference(chars[start..], "", false, before) == ReadReference(chars[i..], digits, reflect, before)
      decreases |chars| - i
    {
      var next := chars[i];
      assert chars[i..][1..] == chars[i + 1..];
      if next == '}' {
        i := i + 1;
        return;
      }
      if IsDigit(next) {
        digits := digits + [next];
        i := i + 1;
      } else if next == ':' && digits != "" {
        i := i + 1;
        if i < |chars| && chars[i] == 'r' {
          assert chars[i - 1..][2..] == chars[i + 1..];
          i := i + 1;
          reflect := true;
        }
      } else {
        text := text + "{" + digits;
        digits := "";
        return;
      }
    }
  }

  // ---- Printing ------------------------------------------------------------------------------

  function PrintElement(e: Element): string {
    match e
    case Text(text) => text
    case Ref(n) => "{" + Decimal(n) + "}"
    case RefReflect(n) => "{" + Decimal(n) + ":r}"
  }

  function Print(elements: seq<Element>): string {
    if elements == [] then "" else PrintElement(elements[0]) + Print(elements[1..])
  }

  /** Texts are not empty, not next to each other and without an opening brace; indices fit the machine. */
  predicate Canonical(elements: seq<Element>) {
    && (forall i :: 0 <= i < |elements| ==> CanonicalElement(elements[i]))
    && (forall i :: 0 < i < |elements| ==> !(elements[i - 1].Text? && elements[i].Text?))
  }

  predicate CanonicalElement(e: Element) {
    match e
    case Text(text) => text != "" && '{' !in text
    case Ref(n) => n <= MAX_INDEX
    case RefReflect(n) => n <= MAX_INDEX
  }

  lemma {:induction false} ReadText(text: string, rest: string, elements: seq<Element>, before: string)
    requires '{' !in text
    ensures ReadElements(text + rest, elements, before) == ReadElements(rest, elements, before + text)
  {
    if text == "" {
      assert text + rest == rest && before + text == before;
    } else {
      assert (text + rest)[1..] == text[1..] + rest;
      ReadText(text[1..], rest, elements, before + [text[0]]);
      assert before + [text[0]] + text[1..] == before + text;
    }
  }

  lemma {:induction false} ReadDigits(digits: string, rest: string, before: string, text: string)
    requires AllDigits(digits) && AllDigits(before)
    ensures AllDigits(before + digits)
    ensures ReadReference(digits + rest, before, false, text) == ReadReference(rest, before + digits, false, text)
  {
    if digits == "" {
      assert digits + rest == rest && before + digits == before;
    } else {
      assert (digits + rest)[1..] == digits[1..] + rest;
      ReadDigits(digits[1..], rest, before + [digits[0]], text);
      assert before + [digits[0]] + digits[1..] == before + digits;
    }
  }

  lemma ReadTail(digits: string, reflect: bool, rest: string, text: string)
    requires AllDigits(digits) && digits != ""
    ensures ReadReference((if reflect then ":r}" else "}") + rest, digits, false, text) == Reference(digits, reflect, text, rest)
  {
    var tail := (if reflect then ":r}" else "}") + rest;
    if reflect {
      assert tail[2..] == "}" + rest && ("}" + rest)[1..] == rest;
    } else {
      assert tail[1..] == rest;
    }
  }

  lemma ReadPrintedDigits(digits: string, reflect: bool, rest: string, text: string)
    requires AllDigits(digits) && digits != ""
    ensures ReadReference(digits + ((if reflect then ":r}" else "}") + rest), "", false, text) == Reference(digits, reflect, text, rest)
  {
    ReadDigits(digits, (if reflect then ":r}" else "}") + rest, "", text);
    assert "" + digits == digits;
    ReadTail(digits, reflect, rest, text);
  }

  lemma {:induction false} ReadPrintedReference(e: Element, rest: string, elements: seq<Element>, text: string)
    requires !e.Text? && CanonicalElement(e)
    ensures ReadElements(PrintElement(e) + rest, elements, text) == ReadElements(rest, Flush(elements, text) + [e], "")
  {
    var digits, tail := Decimal(e.n), (if e.RefReflect? then ":r}" else "}") + rest;
    DecimalReadsBack(e.n);
    PrintedReference(e, digits, rest);
    ReadPrintedDigits(digits, e.RefReflect?, rest, text);
  }

  lemma PrintedReference(e: Element, digits: string, rest: string)
    requires !e.Text? && digits == Decimal(e.n)
    ensures var tail := (if e.RefReflect? then ":r}" else "}") + rest;
      PrintElement(e) + rest == "{" + (digits + tail) && ("{" + (digits + tail))[1..] == digits + tail
  {
  }

  lemma CanonicalTail(elements: seq<Element>)
    requires Canonical(elements) && elements != []
    ensures Canonical(elements[1..]) && CanonicalElement(elements[0])
    ensures elements[0].Text? && |elements| > 1 ==> !elements[1].Text?
  {
    var rest := elements[1..];
    assert forall i :: 0 <= i < |rest| ==> rest[i] == elements[i + 1];
    assert |elements| > 1 ==> !(elements[1 - 1].Text? && elements[1].Text?);
  }

  lemma {:induction false} ReadPrinted(todo: seq<Element>, elements: seq<Element>, text: string)
    requires Canonical(todo) && (text != "" ==> todo == [] || !todo[0].Text?)
    ensures ReadElements(Print(todo), elements, text) == Flush(elements, text) + todo
  {
    if todo == [] {
      assert Flush(elements, text) + [] == Flush(elements, text);
    } else {
      var e, rest := todo[0], todo[1..];
      CanonicalTail(todo);
      if e.Text? {
        ReadText(e.text, Print(rest), elements, text);
        assert text + e.text == e.text;
        ReadPrinted(rest, elements, e.text);
        PutBefore(elements, todo);
      } else {
        ReadPrintedReference(e, Print(rest), elements, text);
        ReadPrinted(rest, Flush(elements, text) + [e], "");
        PutBefore(Flush(elements, text), todo);
      }
    }
  }

  lemma PutBefore(elements: seq<Element>, todo: seq<Element>)
    requires todo != []
    ensures (elements + [todo[0]]) + todo[1..] == elements + todo
  {
  }

  /** Printing a canonical list and reading it returns the list, unless the text would be taken for something else. */
  lemma {:induction false} TemplateRoundTrip(chars: Chars, elements: seq<Element>)
    requires Canonical(elements)
    requires var printed := Print(elements);
      Trim(chars, printed) == printed && !(printed != "" && printed[0] == '=') && !IsNewkey(printed)
    ensures Read(chars, Print(elements)) == Reassemble(elements)
  {
    ReadPrinted(elements, [], "");
    assert [] + elements == elements;
  }

  /** Whatever is read, no text is empty or next to another, and every index fits the machine. */
  predicate Normal(elements: seq<Element>) {
    && (forall i :: 0 <= i < |elements| ==> NormalElement(elements[i]))
    && (forall i :: 0 < i < |elements| ==> !(elements[i - 1].Text? && elements[i].Text?))
  }

  predicate NormalElement(e: Element) {
    match e case Text(text) => text != "" case Ref(n) => n <= MAX_INDEX case RefReflect(n) => n <= MAX_INDEX
  }

  lemma {:induction false} ReadIsNormal(chars: string, elements: seq<Element>, text: string)
    requires Normal(elements) && (elements != [] ==> !elements[|elements| - 1].Text?)
    ensures Normal(ReadElements(chars, elements, text))
    decreases |chars|
  {
    if chars != "" {
      if chars[0] != '{' {
        ReadIsNormal(chars[1..], elements, text + [chars[0]]);
      } else {
        var reference := ReadReference(chars[1..], "", false, text);
        match ParseIndex(reference.digits)
        case None => ReadIsNormal(reference.rest, elements, reference.text);
        case Some(n) =>
          var element := if reference.reflect then RefReflect(n) else Ref(n);
          ReadIsNormal(reference.rest, Flush(elements, reference.text) + [element], "");
      }
    }
  }

  // ---- What is not a reference ---------------------------------------------------------------

  /** A brace with digits that are not closed but followed by something else is text, and is read on from there; of a
      colon behind the digits nothing remains. */
  lemma BrokenIsText(digits: string, colon: bool, c: char, tail: string, elements: seq<Element>, text: string)
    requires AllDigits(digits) && !IsDigit(c) && c != '}'
    requires if colon then digits != "" && c != 'r' && c != ':' else c == ':' ==> digits == ""
    ensures ReadElements("{" + digits + (if colon then ":" else "") + [c] + tail, elements, text)
         == ReadElements([c] + tail, elements, text + "{" + digits)
  {
    var rest := (if colon then ":" else "") + ([c] + tail);
    assert ("{" + digits + (if colon then ":" else "") + [c] + tail)[1..] == digits + rest;
    ReadDigits(digits, rest, "", text);
    assert "" + digits == digits;
    if colon {
      assert rest[1..] == [c] + tail;
    } else {
      assert rest == [c] + tail;
    }
    assert ReadReference([c] + tail, digits, false, text) == Reference("", false, text + "{" + digits, [c] + tail);
  }

  /** Digits in braces, with or without the mark to reflect, refer to the component of that number; without digits, or
      with more than the machine can count, nothing remains of them. At the end of a text the brace may be missing. */
  lemma ReferenceOrNothing(digits: string, reflect: bool, tail: string, elements: seq<Element>, text: string)
    requires AllDigits(digits) && (reflect ==> digits != "")
    ensures ReadElements("{" + digits + (if reflect then ":r}" else "}") + tail, elements, text)
         == if digits != "" && Value(digits) <= MAX_INDEX
            then ReadElements(tail, Flush(elements, text) + [if reflect then RefReflect(Value(digits)) else Ref(Value(digits))], "")
            else ReadElements(tail, elements, text)
    ensures tail == "" && !reflect ==>
      ReadElements("{" + digits, elements, text) == ReadElements("{" + digits + "}", elements, text)
  {
    var end := (if reflect then ":r}" else "}") + tail;
    assert ("{" + digits + (if reflect then ":r}" else "}") + tail)[1..] == digits + end;
    if digits == "" {
      assert digits + end == end && end[1..] == tail;
    } else {
      ReadPrintedDigits(digits, reflect, tail, text);
    }
    if tail == "" && !reflect {
      assert ("{" + digits)[1..] == digits && digits + "" == digits && "" + digits == digits;
      ReadDigits(digits, "", "", text);
      assert "{" + digits + "}" + tail == "{" + digits + "}";
    }
  }

  /** What kind of rule a text is: behind an equals sign the keyword to go to, in lower case; the word that says to go
      on; or a template. */
  lemma RuleIsRead(chars: Chars, s: string, name: string)
    ensures Read(chars, s).Goto? <==> exists rest :: Trim(chars, s) == "=" + rest
    ensures Trim(chars, s) == "=" + name ==> Read(chars, s) == Goto(chars.lower(name))
    ensures Read(chars, s).Newkey? <==> InCapitals(Trim(chars, s)) == "NEWKEY"
  {
    var trimmed := Trim(chars, s);
    if trimmed != "" && trimmed[0] == '=' {
      assert trimmed == "=" + trimmed[1..];
      assert InCapitals(trimmed)[0] == '=';
    }
    if trimmed == "=" + name {
      assert trimmed[1..] == name;
    }
    NewkeyInCapitals(trimmed);
  }

  /** The letters from a to z as capitals. */
  function InCapitals(s: string): (r: string)
    ensures |r| == |s|
  {
    seq(|s|, i requires 0 <= i < |s| => if 'a' <= s[i] <= 'z' then 'A' + (s[i] - 'a') else s[i])
  }

  lemma NewkeyInCapitals(s: string)
    ensures IsNewkey(s) <==> InCapitals(s) == "NEWKEY"
  {
    var capitals := InCapitals(s);
    if IsNewkey(s) {
      forall i | 0 <= i < 6 ensures capitals[i] == "NEWKEY"[i] {
        assert SameLetter(s[i], "NEWKEY"[i]);
      }
    }
    if capitals == "NEWKEY" {
      forall i | 0 <= i < 6 ensures SameLetter(s[i], "NEWKEY"[i]) {
        assert capitals[i] == "NEWKEY"[i];
      }
    }
  }

  predicate AllSpace(chars: Chars, s: string) { forall i :: 0 <= i < |s| ==> chars.isSpace(s[i]) }

  lemma {:induction false} TrimsFront(chars: Chars, s: string) returns (front: string)
    ensures var r := TrimStart(chars, s);
      s == front + r && AllSpace(chars, front) && (r != "" ==> !chars.isSpace(r[0]))
  {
    if s != "" && chars.isSpace(s[0]) {
      var rest := TrimsFront(chars, s[1..]);
      front := [s[0]] + rest;
      assert s == [s[0]] + s[1..];
    } else {
      front := "";
    }
  }

  lemma {:induction false} TrimsBack(chars: Chars, s: string) returns (back: string)
    ensures var r := TrimEnd(chars, s);
      s == r + back && AllSpace(chars, back) && (r != "" ==> r[0] == s[0] && !chars.isSpace(r[|r| - 1]))
  {
    if s != "" && chars.isSpace(s[|s| - 1]) {
      var rest := TrimsBack(chars, s[..|s| - 1]);
      back := rest + [s[|s| - 1]];
      assert s == s[..|s| - 1] + [s[|s| - 1]];
    } else {
      back := "";
    }
  }

  /** Trimming takes away white space at both ends, all of it and nothing else. */
  lemma TrimsBothEnds(chars: Chars, s: string) returns (front: string, back: string)
    ensures var r := Trim(chars, s);
      && s == front + r + back && AllSpace(chars, front) && AllSpace(chars, back)
      && (r != "" ==> !chars.isSpace(r[0]) && !chars.isSpace(r[|r| - 1]))
  {
    front := TrimsFront(chars, s);
    back := TrimsBack(chars, TrimStart(chars, s));
  }
}
