// Rendering an id or name locator as a CSS attribute selector
// (internal/browser/replay.go:349-372), and a reference parser for such
// selectors after CSS Syntax Module Level 3: input preprocessing (section 3.3),
// consuming a string token (4.3.5), an escaped code point (4.3.7) and a name (4.3.11).
module Selector {
  import opened Models

  datatype Locator = Locator(strategy: string, value: string)

  const NUL: char := '\U{0}'

  const CSS := "css"
  const ID := "id"
  const NAME := "name"

  // ---- The printer -------------------------------------------------------------

  // strings.ReplaceAll with a one-character pattern.
  function ReplaceAll(s: string, c: char, sub: string): string {
    if s == "" then "" else (if s[0] == c then sub else [s[0]]) + ReplaceAll(s[1..], c, sub)
  }

  function EscapeCSSAttrValue(v: string): string {
    ReplaceAll(ReplaceAll(v, '\\', ['\\', '\\']), '"', ['\\', '"'])
  }

  function AttributeSelector(name: string, v: string): string {
    ['['] + name + ['=', '"'] + EscapeCSSAttrValue(v) + ['"', ']']
  }

  // The empty selector stands for the nil locator.
  function CSSSelector(loc: Option<Locator>): string {
    match loc
    case None => ""
    case Some(l) =>
      if l.strategy == ID then AttributeSelector(ID, l.value)
      else if l.strategy == NAME then AttributeSelector(NAME, l.value)
      else l.value
  }

  // ---- The two replacements are one pass ------------------------------------------

  function EscapeChar(c: char): string {
    if c == '\\' || c == '"' then ['\\', c] else [c]
  }

  function EscapeOnePass(v: string): string {
    if v == "" then "" else EscapeChar(v[0]) + EscapeOnePass(v[1..])
  }

  lemma {:induction false} ReplaceAllConcat(s: string, t: string, c: char, sub: string)
    ensures ReplaceAll(s + t, c, sub) == ReplaceAll(s, c, sub) + ReplaceAll(t, c, sub)
    decreases |s|
  {
    if s == "" {
      assert s + t == t;
    } else {
      assert (s + t)[1..] == s[1..] + t;
      ReplaceAllConcat(s[1..], t, c, sub);
    }
  }

  lemma EscapeCharTwice(c: char)
    ensures ReplaceAll(if c == '\\' then ['\\', '\\'] else [c], '"', ['\\', '"']) == EscapeChar(c)
  {
    if c == '\\' {
      var s: string := ['\\', '\\'];
      assert s[1..] == ['\\'] && s[1..][1..] == "";
    } else {
      assert [c][1..] == "";
    }
  }

  // Replacing backslashes first and quotes second escapes each character once.
  lemma {:induction false} EscapeIsOnePass(v: string)
    ensures EscapeCSSAttrValue(v) == EscapeOnePass(v)
    decreases |v|
  {
    if v != "" {
      var head: string := if v[0] == '\\' then ['\\', '\\'] else [v[0]];
      ReplaceAllConcat(head, ReplaceAll(v[1..], '\\', ['\\', '\\']), '"', ['\\', '"']);
      EscapeCharTwice(v[0]);
      EscapeIsOnePass(v[1..]);
    }
  }

  // ---- The reference parser ----------------------------------------------------------

  function Preprocess(s: string): string {
    if s == "" then ""
    else if s[0] == '\r' && |s| > 1 && s[1] == '\n' then ['\n'] + Preprocess(s[2..])
    else [PreprocessChar(s[0])] + Preprocess(s[1..])
  }

  function PreprocessChar(c: char): char {
    if c == '\r' || c == '\U{0C}' then '\n' else if c == NUL then '\U{FFFD}' else c
  }

  predicate IsHex(c: char) { '0' <= c <= '9' || 'a' <= c <= 'f' || 'A' <= c <= 'F' }

  function HexValue(c: char): nat
    requires IsHex(c)
  {
    if c <= '9' then c as int - '0' as int
    else if c <= 'F' then c as int - 'A' as int + 10
    else c as int - 'a' as int + 10
  }

  // The leading hex digits of s, at most n of them.
  function HexRun(s: string, n: nat): (k: nat)
    ensures k <= |s| && k <= n && (forall i :: 0 <= i < k ==> IsHex(s[i]))
  {
    if n == 0 || s == "" || !IsHex(s[0]) then 0 else 1 + HexRun(s[1..], n - 1)
  }

  function HexNumber(s: string, acc: nat): nat
    requires forall i :: 0 <= i < |s| ==> IsHex(s[i])
  {
    if s == "" then acc else HexNumber(s[1..], 16 * acc + HexValue(s[0]))
  }

  function CodePoint(n: nat): char {
    if n == 0 || 0xD800 <= n < 0xE000 || n >= 0x110000 then '\U{FFFD}' else n as char
  }

  predicate IsSpace(c: char) { c == ' ' || c == '\t' || c == '\n' }

  // Section 4.3.7; s starts after the backslash. Returns the code point and the
  // number of characters consumed.
  function ConsumeEscape(s: string): (r: (char, nat))
    requires s != ""
    ensures 1 <= r.1 <= |s|
  {
    var k := HexRun(s, 6);
    if k == 0 then (s[0], 1)
    else (CodePoint(HexNumber(s[..k], 0)), if k < |s| && IsSpace(s[k]) then k + 1 else k)
  }

  // Section 4.3.5; s starts after the opening quotation mark. The result is the
  // value and the rest of the input; None stands for a bad string.
  function ConsumeString(s: string, acc: string): Option<(string, string)>
    decreases |s|
  {
    if s == "" then Some((acc, ""))
    else if s[0] == '"' then Some((acc, s[1..]))
    else if s[0] == '\n' then None
    else if s[0] != '\\' then ConsumeString(s[1..], acc + [s[0]])
    else if |s| == 1 then ConsumeString(s[1..], acc)
    else if s[1] == '\n' then ConsumeString(s[2..], acc)
    else var e := ConsumeEscape(s[1..]); ConsumeString(s[1 + e.1..], acc + [e.0])
  }

  predicate IsNameChar(c: char) {
    'a' <= c <= 'z' || 'A' <= c <= 'Z' || '0' <= c <= '9' || c == '-' || c == '_' || c >= '\U{80}'
  }

  function NameRun(s: string): (k: nat)
    ensures k <= |s|
  {
    if s == "" || !IsNameChar(s[0]) then 0 else 1 + NameRun(s[1..])
  }

  // [ name = "value" ] and nothing else.
  function ParseAttribute(text: string): Option<(string, string)> { ParseInput(Preprocess(text)) }

  function ParseInput(s: string): Option<(string, string)> {
    if s == "" || s[0] != '[' then None
    else
      var k := NameRun(s[1..]);
      var after := s[1 + k..];
      if k == 0 || |after| < 2 || after[0] != '=' || after[1] != '"' then None
      else match ConsumeString(after[2..], "")
           case None => None
           case Some((value, rest)) => if rest == [']'] then Some((s[1..1 + k], value)) else None
  }

  // ---- Printing and parsing ------------------------------------------------------------

  // Preprocessing goes through the escapes: they stand next to no line break.
  lemma {:induction false} PreprocessEscaped(v: string, tail: string)
    requires tail != "" && tail[0] != '\n'
    ensures Preprocess(EscapeOnePass(v) + tail) == EscapeOnePass(Preprocess(v)) + Preprocess(tail)
    decreases |v|
  {
    if v == "" {
      assert EscapeOnePass(v) + tail == tail;
    } else if v[0] == '\r' && |v| > 1 && v[1] == '\n' {
      PreprocessEscaped(v[2..], tail);
      PreprocessReturn(v, tail);
      Regroup(['\n'], EscapeOnePass(Preprocess(v[2..])), Preprocess(tail));
    } else {
      PreprocessEscaped(v[1..], tail);
      PreprocessOneEscaped(v, tail);
      EscapePreprocessed(v);
      Regroup(EscapeChar(PreprocessChar(v[0])), EscapeOnePass(Preprocess(v[1..])), Preprocess(tail));
    }
  }

  lemma Regroup(a: string, b: string, c: string)
    ensures a + (b + c) == a + b + c
  {
  }

  // A carriage return and a line feed become one line feed.
  lemma PreprocessReturn(v: string, tail: string)
    requires |v| > 1 && v[0] == '\r' && v[1] == '\n'
    ensures Preprocess(EscapeOnePass(v) + tail) == ['\n'] + Preprocess(EscapeOnePass(v[2..]) + tail)
    ensures EscapeOnePass(Preprocess(v)) == ['\n'] + EscapeOnePass(Preprocess(v[2..]))
  {
    var s := EscapeOnePass(v) + tail;
    assert EscapeOnePass(v) == ['\r'] + (['\n'] + EscapeOnePass(v[1..][1..]));
    assert v[1..][1..] == v[2..];
    assert s[2..] == EscapeOnePass(v[2..]) + tail;
    assert (['\n'] + Preprocess(v[2..]))[1..] == Preprocess(v[2..]);
  }

  lemma PreprocessCons(c: char, t: string)
    requires c == '\r' && t != "" ==> t[0] != '\n'
    ensures Preprocess([c] + t) == [PreprocessChar(c)] + Preprocess(t)
  {
    assert ([c] + t)[1..] == t;
  }

  lemma PreprocessEscapePair(c: char, rest: string)
    requires c == '\\' || c == '"'
    ensures Preprocess(['\\', c] + rest) == ['\\', c] + Preprocess(rest)
  {
    PreprocessCons(c, rest);
    PreprocessCons('\\', [c] + rest);
    assert ['\\', c] + rest == ['\\'] + ([c] + rest);
  }

  lemma EscapePreprocessed(v: string)
    requires v != "" && !(v[0] == '\r' && |v| > 1 && v[1] == '\n')
    ensures EscapeOnePass(Preprocess(v)) == EscapeChar(PreprocessChar(v[0])) + EscapeOnePass(Preprocess(v[1..]))
  {
    assert Preprocess(v) == [PreprocessChar(v[0])] + Preprocess(v[1..]);
  }

  lemma EscapeCons(v: string, tail: string)
    requires v != ""
    ensures EscapeOnePass(v) + tail == EscapeChar(v[0]) + (EscapeOnePass(v[1..]) + tail)
  {
  }

  lemma PreprocessOneEscaped(v: string, tail: string)
    requires v != "" && !(v[0] == '\r' && |v| > 1 && v[1] == '\n') && tail != "" && tail[0] != '\n'
    ensures Preprocess(EscapeOnePass(v) + tail) == EscapeChar(PreprocessChar(v[0]))
      + Preprocess(EscapeOnePass(v[1..]) + tail)
  {
    EscapeCons(v, tail);
    if v[0] == '\\' || v[0] == '"' {
      PreprocessEscapePair(v[0], EscapeOnePass(v[1..]) + tail);
    } else {
      EscapedStart(v, tail);
      PreprocessCons(v[0], EscapeOnePass(v[1..]) + tail);
    }
  }

  // Escaping the rest of v does not bring a line feed next to its first character.
  lemma EscapedStart(v: string, tail: string)
    requires v != "" && tail != "" && tail[0] != '\n'
    requires v[0] == '\r' && |v| > 1 ==> v[1] != '\n'
    ensures v[0] == '\r' ==> (EscapeOnePass(v[1..]) + tail)[0] != '\n'
  {
  }

  lemma {:induction false} StringRoundTrip(w: string, acc: string, tail: string)
    ensures ConsumeString(EscapeOnePass(w) + ['"'] + tail, acc) == if '\n' in w then None else Some((acc + w, tail))
    decreases |w|
  {
    var s := EscapeOnePass(w) + ['"'] + tail;
    if w == "" {
      assert s[0] == '"' && s[1..] == tail && acc + w == acc;
    } else {
      var rest := EscapeOnePass(w[1..]) + ['"'] + tail;
      assert w == [w[0]] + w[1..];
      if w[0] == '\\' || w[0] == '"' {
        assert s == ['\\', w[0]] + rest;
        assert s[1..][0] == w[0] && HexRun(s[1..], 6) == 0;
        assert s[2..] == rest;
      } else {
        assert s == [w[0]] + rest && s[1..] == rest;
      }
      StringRoundTrip(w[1..], acc + [w[0]], tail);
      assert acc + [w[0]] + w[1..] == acc + w;
    }
  }

  predicate PlainName(name: string) {
    name != "" && forall i :: 0 <= i < |name| ==> IsNameChar(name[i]) && name[i] != NUL
  }

  lemma {:induction false} PreprocessPlain(name: string, tail: string)
    requires forall i :: 0 <= i < |name| ==> IsNameChar(name[i])
    ensures Preprocess(name + tail) == name + Preprocess(tail)
    decreases |name|
  {
    if name == "" {
      assert name + tail == tail;
    } else {
      assert (name + tail)[1..] == name[1..] + tail;
      PreprocessPlain(name[1..], tail);
    }
  }

  lemma {:induction false} NameRunPlain(name: string, tail: string)
    requires (forall i :: 0 <= i < |name| ==> IsNameChar(name[i])) && tail != "" && !IsNameChar(tail[0])
    ensures NameRun(name + tail) == |name|
    decreases |name|
  {
    if name == "" {
      assert name + tail == tail;
    } else {
      assert (name + tail)[1..] == name[1..] + tail;
      NameRunPlain(name[1..], tail);
    }
  }

  lemma PreprocessTail()
    ensures Preprocess(['"', ']']) == ['"', ']']
  {
    assert ['"', ']'][1..] == [']'] && [']'][1..] == "";
  }

  // name="body" behind the opening bracket.
  function Attribute(name: string, body: string): string {
    ['['] + (name + (['='] + (['"'] + body)))
  }

  lemma PreprocessAttribute(name: string, body: string)
    requires PlainName(name)
    ensures Preprocess(Attribute(name, body)) == Attribute(name, Preprocess(body))
  {
    PreprocessCons('"', body);
    PreprocessCons('=', ['"'] + body);
    PreprocessPlain(name, ['='] + (['"'] + body));
    PreprocessCons('[', name + (['='] + (['"'] + body)));
  }

  lemma PreprocessSelector(name: string, v: string)
    requires PlainName(name)
    ensures Preprocess(AttributeSelector(name, v)) == Attribute(name, EscapeOnePass(Preprocess(v)) + ['"', ']'])
  {
    PreprocessTail();
    PreprocessEscaped(v, ['"', ']']);
    PreprocessAttribute(name, EscapeOnePass(v) + ['"', ']']);
    SelectorIsAttribute(name, v);
  }

  lemma SelectorIsAttribute(name: string, v: string)
    ensures AttributeSelector(name, v) == Attribute(name, EscapeOnePass(v) + ['"', ']'])
  {
    EscapeIsOnePass(v);
  }

  // Parsing a preprocessed selector whose string token is the escaped w.
  lemma ParsePreprocessed(name: string, w: string, s: string)
    requires PlainName(name)
    requires s == Attribute(name, EscapeOnePass(w) + ['"', ']'])
    ensures ParseInput(s) == if '\n' in w then None else Some((name, w))
  {
    ParseParts(name, w, s);
    assert s[0] == '[' && s[1 + |name|..][..2] == ['=', '"'];
  }

  lemma ParseParts(name: string, w: string, s: string)
    requires PlainName(name)
    requires s == Attribute(name, EscapeOnePass(w) + ['"', ']'])
    ensures NameRun(s[1..]) == |name| && s[1..1 + |name|] == name
    ensures s[1 + |name|..] == ['=', '"'] + (EscapeOnePass(w) + ['"', ']'])
    ensures ConsumeString(s[1 + |name|..][2..], "") == if '\n' in w then None else Some((w, [']']))
  {
    var value := EscapeOnePass(w) + ['"', ']'];
    var after := ['='] + (['"'] + value);
    NameRunPlain(name, after);
    assert s[1..] == name + after;
    assert s[1 + |name|..] == after;
    assert after[2..] == value;
    assert value == EscapeOnePass(w) + ['"'] + [']'];
    StringRoundTrip(w, "", [']']);
    assert "" + w == w;
  }

  // What a CSS parser makes of a rendered locator, for every value.
  lemma SelectorMeaning(name: string, v: string)
    requires PlainName(name)
    ensures ParseAttribute(AttributeSelector(name, v)) ==
      if '\n' in Preprocess(v) then None else Some((name, Preprocess(v)))
  {
    PreprocessSelector(name, v);
    ParsePreprocessed(name, Preprocess(v), Preprocess(AttributeSelector(name, v)));
  }

  predicate Unchanged(c: char) { c != '\n' && c != '\r' && c != '\U{0C}' && c != NUL }

  // No newline, carriage return, form feed or NUL.
  predicate Clean(v: string) { forall i :: 0 <= i < |v| ==> Unchanged(v[i]) }

  lemma CleanCons(v: string)
    requires v != ""
    ensures Clean(v) <==> Unchanged(v[0]) && Clean(v[1..])
  {
    if Unchanged(v[0]) && Clean(v[1..]) {
      forall i | 0 <= i < |v| ensures Unchanged(v[i]) {
        assert i > 0 ==> v[i] == v[1..][i - 1];
      }
    }
  }

  lemma {:induction false} PreprocessUnchanged(v: string)
    ensures Preprocess(v) == v && '\n' !in v <==> Clean(v)
    decreases |v|
  {
    if v != "" {
      assert v == [v[0]] + v[1..];
      CleanCons(v);
      PreprocessUnchanged(v[1..]);
      if v[0] == '\r' && |v| > 1 && v[1] == '\n' {
        assert Preprocess(v)[0] == '\n';
      }
    }
  }

  // A rendered id or name locator parses back to the same attribute name and
  // value exactly when the value has no newline, carriage return, form feed or NUL.
  lemma SelectorRoundTrip(name: string, v: string)
    requires PlainName(name)
    ensures ParseAttribute(AttributeSelector(name, v)) == Some((name, v)) <==> Clean(v)
  {
    SelectorMeaning(name, v);
    PreprocessUnchanged(v);
  }

  // The locators the runner renders.
  lemma LocatorRoundTrip(loc: Locator)
    requires loc.strategy == ID || loc.strategy == NAME
    ensures ParseAttribute(CSSSelector(Some(loc))) == Some((loc.strategy, loc.value)) <==> Clean(loc.value)
  {
    SelectorRoundTrip(loc.strategy, loc.value);
  }
}
