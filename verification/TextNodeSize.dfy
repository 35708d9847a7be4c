/**
 The size of a text row as JSON, kept up to date while text is appended, without serialising the row again.
 Strings are sequences of UTF-16 code units.
 */
module TextNodeSize {
  import opened Options

  type Unit = u: int | 0 <= u < 0x1_0000

  type Units = seq<Unit>

  const QUOTE: Unit := 0x22
  const BACKSLASH: Unit := 0x5C
  const LETTER_U: Unit := 0x75

  predicate IsHigh(u: Unit) { 0xD800 <= u <= 0xDBFF }

  predicate IsLow(u: Unit) { 0xDC00 <= u <= 0xDFFF }

  // ---- QuoteJSONString, section 25.5.2.3 of ECMA-262 (2023) ----

  // The letter of a two-character escape.
  function ShortEscape(u: Unit): Option<Unit> {
    if u == 0x08 then Some(0x62)
    else if u == 0x09 then Some(0x74)
    else if u == 0x0A then Some(0x6E)
    else if u == 0x0C then Some(0x66)
    else if u == 0x0D then Some(0x72)
    else if u == QUOTE || u == BACKSLASH then Some(u)
    else None
  }

  function HexDigit(d: int): Unit
    requires 0 <= d < 16
  {
    if d < 10 then 0x30 + d else 0x61 + d - 10
  }

  function LongEscape(u: Unit): Units {
    [BACKSLASH, LETTER_U, HexDigit(u / 0x1000), HexDigit(u / 0x100 % 16), HexDigit(u / 0x10 % 16), HexDigit(u % 16)]
  }

  // One unit that is not half of a pair.
  function Escape(u: Unit): Units {
    match ShortEscape(u)
    case Some(letter) => [BACKSLASH, letter]
    case None =>
      if u < 0x20 || IsHigh(u) || IsLow(u) then LongEscape(u) else [u]
  }

  predicate StartsWithPair(s: Units) {
    |s| >= 2 && IsHigh(s[0]) && IsLow(s[1])
  }

  function QuotedBody(s: Units): Units {
    if s == [] then []
    else if StartsWithPair(s) then s[..2] + QuotedBody(s[2..])
    else Escape(s[0]) + QuotedBody(s[1..])
  }

  function Quote(s: Units): Units {
    [QUOTE] + QuotedBody(s) + [QUOTE]
  }

  // ---- reading it back ----

  function DigitValue(u: Unit): int {
    if 0x30 <= u <= 0x39 then u - 0x30 else u - 0x61 + 10
  }

  function LongValue(s: Units): int
    requires |s| >= 6
  {
    0x1000 * DigitValue(s[2]) + 0x100 * DigitValue(s[3]) + 0x10 * DigitValue(s[4]) + DigitValue(s[5])
  }

  function ShortValue(letter: Unit): Unit {
    if letter == 0x62 then 0x08
    else if letter == 0x74 then 0x09
    else if letter == 0x6E then 0x0A
    else if letter == 0x66 then 0x0C
    else if letter == 0x72 then 0x0D
    else letter
  }

  function Unquoted(s: Units): Units {
    if s == [] then []
    else if s[0] == BACKSLASH && |s| >= 6 && s[1] == LETTER_U && 0 <= LongValue(s) < 0x1_0000 then
      [LongValue(s)] + Unquoted(s[6..])
    else if s[0] == BACKSLASH && |s| >= 2 then [ShortValue(s[1])] + Unquoted(s[2..])
    else [s[0]] + Unquoted(s[1..])
  }

  lemma DigitIsRead(d: int)
    requires 0 <= d < 16
    ensures DigitValue(HexDigit(d)) == d
  {
  }

  lemma DigitsAddUp(u: Unit)
    ensures 0 <= u / 0x1000 < 16
    ensures u == 0x1000 * (u / 0x1000) + 0x100 * (u / 0x100 % 16) + 0x10 * (u / 0x10 % 16) + u % 16
  {
  }

  lemma LongEscapeIsRead(u: Unit, rest: Units)
    ensures Unquoted(LongEscape(u) + rest) == [u] + Unquoted(rest)
  {
    var text := LongEscape(u) + rest;
    assert text[6..] == rest;
    DigitsAddUp(u);
    DigitIsRead(u / 0x1000);
    DigitIsRead(u / 0x100 % 16);
    DigitIsRead(u / 0x10 % 16);
    DigitIsRead(u % 16);
    assert LongValue(text) == u;
  }

  lemma ShortEscapeIsRead(u: Unit, letter: Unit, rest: Units)
    requires ShortEscape(u) == Some(letter)
    ensures Unquoted([BACKSLASH, letter] + rest) == [u] + Unquoted(rest)
  {
    assert ([BACKSLASH, letter] + rest)[2..] == rest;
  }

  lemma EscapeIsRead(u: Unit, rest: Units)
    ensures Unquoted(Escape(u) + rest) == [u] + Unquoted(rest)
  {
    match ShortEscape(u)
    case Some(letter) =>
      ShortEscapeIsRead(u, letter, rest);
    case None =>
      if u < 0x20 || IsHigh(u) || IsLow(u) {
        LongEscapeIsRead(u, rest);
      } else {
        assert ([u] + rest)[1..] == rest;
      }
  }

  // Quoting loses nothing: reading the text back gives the string, lone surrogates and all.
  lemma {:induction false} QuotedIsRead(s: Units)
    ensures Unquoted(QuotedBody(s)) == s
    decreases |s|
  {
    if s != [] {
      if StartsWithPair(s) {
        QuotedIsRead(s[2..]);
        var rest := QuotedBody(s[2..]);
        assert s[..2] + rest == [s[0]] + ([s[1]] + rest);
        assert ([s[0]] + ([s[1]] + rest))[1..] == [s[1]] + rest;
        assert ([s[1]] + rest)[1..] == rest;
        assert s == [s[0]] + ([s[1]] + s[2..]);
      } else {
        QuotedIsRead(s[1..]);
        EscapeIsRead(s[0], QuotedBody(s[1..]));
      }
    }
  }

  // ---- appending ----

  // Two lone surrogates of six characters each become one pair of two.
  function JoinedSurrogateChars(prefix: Units, suffix: Units): int {
    if prefix != [] && suffix != [] && IsHigh(prefix[|prefix| - 1]) && IsLow(suffix[0]) then 10 else 0
  }

  function Width(u: Unit): nat {
    if ShortEscape(u).Some? then 2 else if u < 0x20 || IsHigh(u) || IsLow(u) then 6 else 1
  }

  function BodyLength(s: Units): nat {
    if s == [] then 0
    else if StartsWithPair(s) then 2 + BodyLength(s[2..])
    else Width(s[0]) + BodyLength(s[1..])
  }

  lemma {:induction false} QuotedHasLength(s: Units)
    ensures |QuotedBody(s)| == BodyLength(s)
    decreases |s|
  {
    if s != [] {
      QuotedHasLength(s[1..]);
      if StartsWithPair(s) {
        QuotedHasLength(s[2..]);
      }
    }
  }

  lemma PairIsShorter(high: Unit, b: Units)
    requires IsHigh(high) && b != [] && IsLow(b[0])
    ensures BodyLength([high] + b) == BodyLength([high]) + BodyLength(b) - 10
  {
    assert ([high] + b)[2..] == b[1..];
  }

  lemma PairHead(high: Unit, low: Unit, rest: Units)
    requires IsHigh(high) && IsLow(low)
    ensures BodyLength([high, low] + rest) == 2 + BodyLength(rest)
  {
    assert ([high, low] + rest)[2..] == rest;
  }

  lemma UnitHead(u: Unit, rest: Units)
    requires !(IsHigh(u) && rest != [] && IsLow(rest[0]))
    ensures BodyLength([u] + rest) == Width(u) + BodyLength(rest)
  {
    assert ([u] + rest)[1..] == rest;
  }

  lemma {:induction false} LengthsAdd(a: Units, b: Units)
    ensures BodyLength(a + b) == BodyLength(a) + BodyLength(b) - JoinedSurrogateChars(a, b)
    decreases |a|
  {
    if a == [] {
      assert a + b == b;
    } else if StartsWithPair(a) {
      LengthsAdd(a[2..], b);
      PairHead(a[0], a[1], a[2..] + b);
      assert a + b == [a[0], a[1]] + (a[2..] + b);
    } else if |a| == 1 && b != [] && IsHigh(a[0]) && IsLow(b[0]) {
      PairIsShorter(a[0], b);
      assert a == [a[0]];
    } else {
      LengthsAdd(a[1..], b);
      UnitHead(a[0], a[1..] + b);
      assert a + b == [a[0]] + (a[1..] + b);
    }
  }

  // Quoted lengths add up, but for a pair that the seam splits.
  lemma QuotedLengthsAdd(a: Units, b: Units)
    ensures |QuotedBody(a + b)| == |QuotedBody(a)| + |QuotedBody(b)| - JoinedSurrogateChars(a, b)
  {
    QuotedHasLength(a);
    QuotedHasLength(b);
    QuotedHasLength(a + b);
    LengthsAdd(a, b);
  }

  // ---- rows ----

  // A property of an object, with the JSON text of its value.
  datatype Property = Property(name: Units, json: Units)

  // `markdown` stands between the other properties of its object; which ones these are does not matter.
  datatype Prose = Prose(before: seq<Property>, markdown: Units, after: seq<Property>)

  // An assistant message, or standalone reasoning without the nested block.
  datatype TextNode = TextNode(text: Prose, reasoning: Option<Prose>)

  const MARKDOWN: Units := [0x6D, 0x61, 0x72, 0x6B, 0x64, 0x6F, 0x77, 0x6E]
  const REASONING: Units := [0x72, 0x65, 0x61, 0x73, 0x6F, 0x6E, 0x69, 0x6E, 0x67]

  function Members(properties: seq<Property>): Units {
    if properties == [] then []
    else
      var last := properties[|properties| - 1];
      Members(properties[..|properties| - 1]) + (if |properties| == 1 then [] else [0x2C])
      + Quote(last.name) + [0x3A] + last.json
  }

  function Object(properties: seq<Property>): Units {
    [0x7B] + Members(properties) + [0x7D]
  }

  function ProseProperties(p: Prose): seq<Property> {
    p.before + [Property(MARKDOWN, Quote(p.markdown))] + p.after
  }

  function Stringify(node: TextNode): Units {
    Object(ProseProperties(node.text)
           + (if node.reasoning.Some? then [Property(REASONING, Object(ProseProperties(node.reasoning.value)))]
              else []))
  }

  // The row after the append: the suffix's properties, the text of both.
  function Appended(previous: TextNode, suffix: TextNode): TextNode {
    TextNode(suffix.text.(markdown := previous.text.markdown + suffix.text.markdown),
             if suffix.reasoning.None? then None
             else Some(suffix.reasoning.value.(markdown := ReasoningText(previous) + suffix.reasoning.value.markdown)))
  }

  function ReasoningText(node: TextNode): Units {
    if node.reasoning.Some? then node.reasoning.value.markdown else []
  }

  function Emptied(node: TextNode): TextNode {
    TextNode(node.text.(markdown := []),
             if node.reasoning.None? then None else Some(node.reasoning.value.(markdown := [])))
  }

  function AppendedTextNodeChars(previous: TextNode, suffix: TextNode, previousChars: int): int {
    previousChars
    + |Stringify(suffix)|
    - |Stringify(Emptied(previous))|
    - JoinedSurrogateChars(previous.text.markdown, suffix.text.markdown)
    - (if suffix.reasoning.None?
       then if previous.reasoning.None? then 0 else |Quote(previous.reasoning.value.markdown)| - 2
       else JoinedSurrogateChars(ReasoningText(previous), suffix.reasoning.value.markdown))
  }

  // ---- the size is exact ----

  function MembersLength(properties: seq<Property>): int {
    if properties == [] then 0
    else
      var last := properties[|properties| - 1];
      MembersLength(properties[..|properties| - 1]) + (if |properties| == 1 then 0 else 1) + |Quote(last.name)| + 1
        + |last.json|
  }

  lemma {:induction false} MembersHaveLength(properties: seq<Property>)
    ensures |Members(properties)| == MembersLength(properties)
    decreases |properties|
  {
    if properties != [] {
      MembersHaveLength(properties[..|properties| - 1]);
    }
  }

  lemma MembersGrow(properties: seq<Property>, last: Property)
    ensures MembersLength(properties + [last])
         == MembersLength(properties) + (if properties == [] then 0 else 1) + |Quote(last.name)| + 1 + |last.json|
  {
    assert (properties + [last])[..|properties|] == properties;
  }

  // Replacing one value changes the length by the difference of the values.
  lemma {:induction false} OneValueLonger(before: seq<Property>, p: Property, q: Property, after: seq<Property>)
    requires p.name == q.name
    ensures MembersLength(before + [q] + after) - MembersLength(before + [p] + after) == |q.json| - |p.json|
    decreases |after|
  {
    if after == [] {
      assert before + [p] + after == before + [p] && before + [q] + after == before + [q];
      MembersGrow(before, p);
      MembersGrow(before, q);
    } else {
      var init, last := after[..|after| - 1], after[|after| - 1];
      OneValueLonger(before, p, q, init);
      assert before + [p] + after == (before + [p] + init) + [last];
      assert before + [q] + after == (before + [q] + init) + [last];
      MembersGrow(before + [p] + init, last);
      MembersGrow(before + [q] + init, last);
    }
  }

  // A row is as long as the row without its text, and its text.
  lemma StringifyLength(node: TextNode)
    ensures |Stringify(node)|
            == |Stringify(Emptied(node))| + |QuotedBody(node.text.markdown)| + |QuotedBody(ReasoningText(node))|
  {
    var bare := node.(text := node.text.(markdown := []));
    TextLength(node, bare.text);
    if node.reasoning.Some? {
      ReasoningLength(bare, Emptied(node).reasoning.value);
    }
  }

  lemma TextLength(node: TextNode, text: Prose)
    requires text.before == node.text.before && text.after == node.text.after
    ensures |Stringify(node)| - |Stringify(node.(text := text))|
            == |QuotedBody(node.text.markdown)| - |QuotedBody(text.markdown)|
  {
    var tail :=
      if node.reasoning.Some? then [Property(REASONING, Object(ProseProperties(node.reasoning.value)))] else [];
    var p, q := Property(MARKDOWN, Quote(text.markdown)), Property(MARKDOWN, Quote(node.text.markdown));
    OneValueLonger(text.before, p, q, text.after + tail);
    assert ProseProperties(text) + tail == text.before + [p] + (text.after + tail);
    assert ProseProperties(node.text) + tail == text.before + [q] + (text.after + tail);
    MembersHaveLength(ProseProperties(text) + tail);
    MembersHaveLength(ProseProperties(node.text) + tail);
  }

  lemma ReasoningLength(node: TextNode, reasoning: Prose)
    requires node.reasoning.Some?
    requires reasoning.before == node.reasoning.value.before && reasoning.after == node.reasoning.value.after
    ensures |Stringify(node)| - |Stringify(node.(reasoning := Some(reasoning)))|
         == |QuotedBody(node.reasoning.value.markdown)| - |QuotedBody(reasoning.markdown)|
  {
    var was := node.reasoning.value;
    OneValueLonger(was.before, Property(MARKDOWN, Quote(reasoning.markdown)), Property(MARKDOWN, Quote(was.markdown)),
                   was.after);
    MembersHaveLength(ProseProperties(reasoning));
    MembersHaveLength(ProseProperties(was));
    var head := ProseProperties(node.text);
    var p, q :=
      Property(REASONING, Object(ProseProperties(reasoning))), Property(REASONING, Object(ProseProperties(was)));
    OneValueLonger(head, p, q, []);
    assert head + [p] + [] == head + [p] && head + [q] + [] == head + [q];
    MembersHaveLength(head + [p]);
    MembersHaveLength(head + [q]);
  }

  // For every row, every suffix and every text, the size computed is the size of the new row.
  lemma AppendedSizeIsExact(previous: TextNode, suffix: TextNode)
    ensures AppendedTextNodeChars(previous, suffix, |Stringify(previous)|) == |Stringify(Appended(previous, suffix))|
  {
    var next := Appended(previous, suffix);
    StringifyLength(previous);
    StringifyLength(suffix);
    StringifyLength(next);
    assert Emptied(next) == Emptied(suffix);
    QuotedLengthsAdd(previous.text.markdown, suffix.text.markdown);
    QuotedLengthsAdd(ReasoningText(previous), ReasoningText(suffix));
  }

  function AppendedAll(node: TextNode, suffixes: seq<TextNode>): TextNode {
    if suffixes == [] then node
    else Appended(AppendedAll(node, suffixes[..|suffixes| - 1]), suffixes[|suffixes| - 1])
  }

  function CharsOfAll(node: TextNode, suffixes: seq<TextNode>, chars: int): int {
    if suffixes == [] then chars
    else
      var before := suffixes[..|suffixes| - 1];
      AppendedTextNodeChars(AppendedAll(node, before), suffixes[|suffixes| - 1], CharsOfAll(node, before, chars))
  }

  // So a size carried along any run of appends never drifts.
  lemma {:induction false} SizeNeverDrifts(node: TextNode, suffixes: seq<TextNode>)
    ensures CharsOfAll(node, suffixes, |Stringify(node)|) == |Stringify(AppendedAll(node, suffixes))|
    decreases |suffixes|
  {
    if suffixes != [] {
      SizeNeverDrifts(node, suffixes[..|suffixes| - 1]);
      AppendedSizeIsExact(AppendedAll(node, suffixes[..|suffixes| - 1]), suffixes[|suffixes| - 1]);
    }
  }
}
