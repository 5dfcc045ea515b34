/** The text form of key paths: the scanner behind the `KeyPath` constructor, and the printer
    `componentsToString`. Paths are the names-and-indexes subset of JSONPath (RFC 9535,
    sections 2.3.1, 2.3.3 and 2.5.1). */
module KeyPathSyntax {
  import opened Wrappers

  datatype Component = Key(name: string) | Index(n: int)

  const MAX_SAFE_INTEGER := 9007199254740991

  predicate IsSafeInteger(n: int) {
    -MAX_SAFE_INTEGER <= n <= MAX_SAFE_INTEGER
  }

  // ---------------------------------------------------------------- decimal numerals

  predicate IsDigit(c: char) { '0' <= c <= '9' }

  predicate AllDigits(s: string) { forall i | 0 <= i < |s| :: IsDigit(s[i]) }

  function DigitValue(c: char): (d: nat)
    requires IsDigit(c)
    ensures d < 10
  {
    c as int - '0' as int
  }

  function DigitChar(d: nat): (c: char)
    requires d < 10
    ensures IsDigit(c) && DigitValue(c) == d
  {
    ('0' as int + d) as char
  }

  /** The value of a run of decimal digits; leading zeros are allowed. */
  function ParseNat(s: string): nat
    requires AllDigits(s)
  {
    if s == "" then 0 else 10 * ParseNat(s[..|s| - 1]) + DigitValue(s[|s| - 1])
  }

  function NatToString(n: nat): (s: string)
    ensures s != "" && AllDigits(s)
  {
    if n < 10 then [DigitChar(n)] else NatToString(n / 10) + [DigitChar(n % 10)]
  }

  function IntToString(n: int): string {
    if n < 0 then "-" + NatToString(-n) else NatToString(n)
  }

  lemma {:induction false} NatRoundTrip(n: nat)
    ensures ParseNat(NatToString(n)) == n
  {
    var s := NatToString(n);
    if n < 10 {
      assert s[..0] == "";
    } else {
      NatRoundTrip(n / 10);
      assert s[..|s| - 1] == NatToString(n / 10);
    }
  }

  // ---------------------------------------------------------------- trimming

  /** The characters `String.prototype.trim` removes: WhiteSpace and LineTerminator. */
  predicate IsSpace(c: char) {
    || '\U{9}' <= c <= '\U{D}' || c == ' ' || c == '\U{A0}' || c == '\U{1680}'
    || '\U{2000}' <= c <= '\U{200A}' || c == '\U{2028}' || c == '\U{2029}'
    || c == '\U{202F}' || c == '\U{205F}' || c == '\U{3000}' || c == '\U{FEFF}'
  }

  function TrimStart(s: string): string {
    if s != "" && IsSpace(s[0]) then TrimStart(s[1..]) else s
  }

  function TrimEnd(s: string): string {
    if s != "" && IsSpace(s[|s| - 1]) then TrimEnd(s[..|s| - 1]) else s
  }

  function Trim(s: string): string { TrimEnd(TrimStart(s)) }

  predicate EndsBlank(s: string) { s != "" && IsSpace(s[|s| - 1]) }

  // ---------------------------------------------------------------- the scanner

  predicate IsDelimiter(c: char) { c == '.' || c == '[' }

  /** Length of the longest prefix of `s` free of delimiters: what `[^.[]*` matches. */
  function NameSpan(s: string): (n: nat)
    ensures n <= |s|
    ensures forall i | 0 <= i < n :: !IsDelimiter(s[i])
    ensures n < |s| ==> IsDelimiter(s[n])
  {
    if s == "" || IsDelimiter(s[0]) then 0 else 1 + NameSpan(s[1..])
  }

  /** Length of the longest run of digits starting `s`: what `\d*` matches. */
  function DigitSpan(s: string): (n: nat)
    ensures n <= |s|
    ensures AllDigits(s[..n])
    ensures n < |s| ==> !IsDigit(s[n])
  {
    if s == "" || !IsDigit(s[0]) then 0
    else
      var n := 1 + DigitSpan(s[1..]);
      assert forall i | 1 <= i < n :: s[..n][i] == s[1..][..n - 1][i - 1];
      n
  }

  /** One match of the scanner's regular expression: the component it denotes, and its length. */
  datatype Token = Token(component: Component, length: nat)

  function Signed(negative: bool, magnitude: int): int {
    if negative then -magnitude else magnitude
  }

  /** The digits and the closing bracket of an index, after "[" or "[-". */
  function MatchIndex(s: string, negative: bool): (m: Option<Token>)
    ensures m.Some? ==> 0 < m.value.length <= |s| + if negative then 2 else 1
  {
    var n := DigitSpan(s);
    if 0 < n < |s| && s[n] == ']' then
      Some(Token(Index(Signed(negative, ParseNat(s[..n]))), n + if negative then 3 else 2))
    else None
  }

  /** A match of the regular expression at the very start of `s`. */
  function MatchHere(s: string): (m: Option<Token>)
    ensures m.Some? ==> 0 < m.value.length <= |s|
  {
    if s == "" then None
    else if s[0] == '.' then
      var n := NameSpan(s[1..]);
      Some(Token(Key(s[1..1 + n]), 1 + n))
    else if s[0] == '[' then
      if 1 < |s| && s[1] == '-' then MatchIndex(s[2..], true) else MatchIndex(s[1..], false)
    else None
  }

  /** The leftmost match in `s`. The expression is not anchored, so text before it is skipped. */
  function Match(s: string): (m: Option<Token>)
    ensures m.Some? ==> 0 < m.value.length <= |s|
  {
    if s == "" then None
    else if MatchHere(s).Some? then MatchHere(s)
    else Match(s[1..])
  }

  /** The checks made on one component before it is accepted. */
  predicate Acceptable(c: Component) {
    match c
    case Key(name) => name != ""
    case Index(n) => IsSafeInteger(n)
  }

  function Prepend(cs: seq<Component>, rest: Option<seq<Component>>): Option<seq<Component>> {
    if rest.None? then None else Some(cs + rest.value)
  }

  /** The components scanned from `s`, or None where the constructor throws. */
  function Scan(s: string): Option<seq<Component>>
    decreases |s|
  {
    if s == "" then Some([])
    else
      match Match(s)
      case None => None
      case Some(token) =>
        if !Acceptable(token.component) then None
        else Prepend([token.component], Scan(s[token.length..]))
  }

  /** The text the scanner runs on: blanks trimmed, a leading "$" dropped or a "." supplied. */
  function Normalize(path: string): string {
    var s := Trim(path);
    if s != "" && s[0] == '$' then s[1..]
    else if s != "" && s[0] == '[' then s
    else "." + s
  }

  /** The components of the key path `path`, or None where the constructor throws. */
  function Parse(path: string): Option<seq<Component>> {
    Scan(Normalize(path))
  }

  /** One step of the cursor loop: a match moves from the text ahead to the components behind. */
  lemma ScanStep(components: seq<Component>, ahead: string, token: Token)
    requires Match(ahead) == Some(token) && Acceptable(token.component)
    ensures Prepend(components, Scan(ahead)) == Prepend(components + [token.component], Scan(ahead[token.length..]))
  {
    var rest := Scan(ahead[token.length..]);
    assert Scan(ahead) == Prepend([token.component], rest);
    if rest.Some? {
      assert components + ([token.component] + rest.value) == components + [token.component] + rest.value;
    }
  }

  /** What the constructor does; its cursor `i` advances by the length of each match. */
  method ParseComponents(path: string) returns (str: string, r: Option<seq<Component>>)
    ensures str == Normalize(path)
    ensures r == Parse(path)
  {
    str := NormalizePath(path);
    r := ScanComponents(str);
  }

  method NormalizePath(path: string) returns (str: string)
    ensures str == Normalize(path)
  {
    str := Trim(path);
    if str != "" && str[0] == '$' {
      str := str[1..];
    } else if !(str != "" && str[0] == '[') {
      str := "." + str;
    }
  }

  method ScanComponents(str: string) returns (r: Option<seq<Component>>)
    ensures r == Scan(str)
  {
    var components: seq<Component> := [];
    var i := 0;
    ghost var ahead := str;
    assert Scan(str).Some? ==> [] + Scan(str).value == Scan(str).value;
    while i < |str|
      invariant 0 <= i <= |str| && ahead == str[i..]
      invariant Scan(str) == Prepend(components, Scan(ahead))
    {
      var m := Match(str[i..]);
      if m.None? || !Acceptable(m.value.component) {
        return None;
      }
      ScanStep(components, ahead, m.value);
      components := components + [m.value.component];
      i := i + m.value.length;
      ahead := ahead[m.value.length..];
    }
    assert components + [] == components;
    r := Some(components);
  }

  // ---------------------------------------------------------------- the printer

  function PrintComponent(c: Component): string {
    match c
    case Key(name) => "." + name
    case Index(n) => "[" + IntToString(n) + "]"
  }

  function PrintAll(cs: seq<Component>): string {
    if cs == [] then "" else PrintComponent(cs[0]) + PrintAll(cs[1..])
  }

  function ComponentsToString(cs: seq<Component>): string {
    if cs == [] then "." else PrintAll(cs)
  }

  // ---------------------------------------------------------------- laws

  /** A component the scanner can produce. */
  predicate WellFormed(c: Component) {
    match c
    case Key(name) => name != "" && forall i | 0 <= i < |name| :: !IsDelimiter(name[i])
    case Index(n) => IsSafeInteger(n)
  }

  /** The component lists that have a text form. */
  predicate Printable(cs: seq<Component>) {
    && cs != []
    && (forall i | 0 <= i < |cs| :: WellFormed(cs[i]))
    && (cs[|cs| - 1].Key? ==> !EndsBlank(cs[|cs| - 1].name))
  }

  lemma {:induction false} NameSpanOf(name: string, tail: string)
    requires forall i | 0 <= i < |name| :: !IsDelimiter(name[i])
    requires tail == "" || IsDelimiter(tail[0])
    ensures NameSpan(name + tail) == |name|
  {
    if name != "" {
      assert (name + tail)[1..] == name[1..] + tail;
      NameSpanOf(name[1..], tail);
    } else {
      assert name + tail == tail;
    }
  }

  lemma {:induction false} DigitSpanOf(digits: string, tail: string)
    requires AllDigits(digits)
    requires tail == "" || !IsDigit(tail[0])
    ensures DigitSpan(digits + tail) == |digits|
  {
    if digits != "" {
      assert (digits + tail)[1..] == digits[1..] + tail;
      DigitSpanOf(digits[1..], tail);
    } else {
      assert digits + tail == tail;
    }
  }

  lemma KeyMatched(name: string, tail: string)
    requires WellFormed(Key(name))
    requires tail == "" || IsDelimiter(tail[0])
    ensures MatchHere("." + name + tail) == Some(Token(Key(name), 1 + |name|))
  {
    var s := "." + name + tail;
    assert s[1..] == name + tail;
    NameSpanOf(name, tail);
    assert s[1..1 + |name|] == name;
  }

  lemma DigitsMatched(magnitude: nat, negative: bool, tail: string)
    ensures var ds := NatToString(magnitude);
            MatchIndex(ds + ("]" + tail), negative)
            == Some(Token(Index(Signed(negative, magnitude)), |ds| + if negative then 3 else 2))
  {
    var ds := NatToString(magnitude);
    var s := ds + ("]" + tail);
    DigitSpanOf(ds, "]" + tail);
    assert s[..|ds|] == ds && s[|ds|] == ']';
    NatRoundTrip(magnitude);
  }

  lemma Bracketed(rest: string, negative: bool)
    requires !negative ==> rest != "" && rest[0] != '-'
    ensures MatchHere((if negative then "[-" else "[") + rest) == MatchIndex(rest, negative)
  {
    if negative {
      assert ("[-" + rest)[2..] == rest;
    } else {
      assert ("[" + rest)[1..] == rest;
    }
  }

  /** The text of an index: the sign and the digits of its magnitude between brackets. */
  lemma IndexPrinted(n: int, negative: bool, magnitude: nat, tail: string)
    requires n == Signed(negative, magnitude) && (negative ==> magnitude > 0)
    ensures var text := "[" + IntToString(n) + "]";
            && |text| == |NatToString(magnitude)| + (if negative then 3 else 2)
            && text + tail == (if negative then "[-" else "[") + (NatToString(magnitude) + ("]" + tail))
  {
    IndexText(negative, NatToString(magnitude), tail);
  }

  lemma IndexText(negative: bool, ds: string, tail: string)
    ensures "[" + ((if negative then "-" else "") + ds) + "]" + tail == (if negative then "[-" else "[") + (ds + ("]" + tail))
    ensures |"[" + ((if negative then "-" else "") + ds) + "]"| == |ds| + if negative then 3 else 2
    ensures (if negative then "-" + ds else ds) == (if negative then "-" else "") + ds
  {
  }

  lemma IndexMatched(n: int, tail: string)
    ensures var text := "[" + IntToString(n) + "]";
            MatchHere(text + tail) == Some(Token(Index(n), |text|))
  {
    var negative, magnitude := n < 0, if n < 0 then -n else n;
    var rest := NatToString(magnitude) + ("]" + tail);
    assert IsDigit(rest[0]) by {
      assert rest[0] == NatToString(magnitude)[0];
    }
    DigitsMatched(magnitude, negative, tail);
    Bracketed(rest, negative);
    IndexPrinted(n, negative, magnitude, tail);
  }

  /** What one component prints is matched back, whole, to that component. */
  lemma MatchPrinted(c: Component, tail: string)
    requires WellFormed(c)
    requires tail == "" || IsDelimiter(tail[0])
    ensures Match(PrintComponent(c) + tail) == Some(Token(c, |PrintComponent(c)|))
  {
    match c
    case Key(name) => KeyMatched(name, tail);
    case Index(n) => IndexMatched(n, tail);
  }

  lemma {:induction false} ScanPrinted(cs: seq<Component>)
    requires forall i | 0 <= i < |cs| :: WellFormed(cs[i])
    ensures Scan(PrintAll(cs)) == Some(cs)
    ensures PrintAll(cs) == "" || IsDelimiter(PrintAll(cs)[0])
  {
    if cs != [] {
      ScanPrinted(cs[1..]);
      var head, tail := PrintComponent(cs[0]), PrintAll(cs[1..]);
      MatchPrinted(cs[0], tail);
      assert (head + tail)[|head|..] == tail;
      assert [cs[0]] + cs[1..] == cs;
    }
  }

  lemma {:induction false} PrintLast(cs: seq<Component>)
    requires cs != []
    ensures PrintAll(cs) == PrintAll(cs[..|cs| - 1]) + PrintComponent(cs[|cs| - 1])
  {
    if |cs| > 1 {
      PrintLast(cs[1..]);
      assert cs[1..][..|cs| - 2] == cs[..|cs| - 1][1..];
    }
  }

  /** The last character printed is "]" or the end of the final key. */
  lemma PrintedEnd(cs: seq<Component>)
    requires cs != [] && forall i | 0 <= i < |cs| :: WellFormed(cs[i])
    ensures PrintAll(cs) != ""
    ensures EndsBlank(PrintAll(cs)) <==> cs[|cs| - 1].Key? && EndsBlank(cs[|cs| - 1].name)
  {
    PrintLast(cs);
    ComponentEnd(cs[|cs| - 1]);
    AppendedEnd(PrintAll(cs[..|cs| - 1]), PrintComponent(cs[|cs| - 1]));
  }

  lemma AppendedEnd(a: string, b: string)
    requires b != ""
    ensures EndsBlank(a + b) <==> EndsBlank(b)
  {
    assert (a + b)[|a + b| - 1] == b[|b| - 1];
  }

  lemma ComponentEnd(c: Component)
    requires WellFormed(c)
    ensures PrintComponent(c) != ""
    ensures EndsBlank(PrintComponent(c)) <==> c.Key? && EndsBlank(c.name)
  {
    match c
    case Key(name) => AppendedEnd(".", name);
    case Index(n) => AppendedEnd("[" + IntToString(n), "]");
  }

  /** Every component the scanner yields is well formed; a match at the end of the text ends it. */
  lemma {:induction false} MatchWellFormed(s: string)
    requires Match(s).Some? && Acceptable(Match(s).value.component)
    ensures WellFormed(Match(s).value.component)
    ensures Match(s).value.length == |s| && !EndsBlank(s) ==>
              (Match(s).value.component.Key? ==> !EndsBlank(Match(s).value.component.name))
  {
    if MatchHere(s).None? {
      MatchWellFormed(s[1..]);
    } else {
      var token := Match(s).value;
      if token.component.Key? && token.length == |s| {
        var name := token.component.name;
        assert name[|name| - 1] == s[|s| - 1];
      }
    }
  }

  lemma {:induction false} ScanWellFormed(s: string)
    requires Scan(s).Some?
    ensures var cs := Scan(s).value; forall i | 0 <= i < |cs| :: WellFormed(cs[i])
    ensures var cs := Scan(s).value; s != "" && !EndsBlank(s) ==> Printable(cs)
    decreases |s|
  {
    if s != "" {
      var token := Match(s).value;
      var rest := s[token.length..];
      MatchWellFormed(s);
      ScanWellFormed(rest);
      if rest != "" {
        assert rest[|rest| - 1] == s[|s| - 1];
      }
    }
  }

  lemma {:induction false} TrimEndEnds(s: string)
    ensures !EndsBlank(TrimEnd(s))
  {
    if EndsBlank(s) {
      TrimEndEnds(s[..|s| - 1]);
    }
  }

  /** Whatever string is accepted, its components are printable, save for the root path "$". */
  lemma AcceptedIsPrintable(path: string)
    requires Parse(path).Some? && Parse(path).value != []
    ensures Printable(Parse(path).value)
  {
    var s, str := Trim(path), Normalize(path);
    TrimEndEnds(TrimStart(path));
    assert str != "" && !EndsBlank(str) by {
      if s != "" {
        assert str != "" ==> str[|str| - 1] == s[|s| - 1];
      }
    }
    ScanWellFormed(str);
  }

  lemma TrimNothing(s: string)
    requires s != "" && !IsSpace(s[0]) && !EndsBlank(s)
    ensures Trim(s) == s
  {
  }

  /** Print then parse is the identity on exactly the printable component lists. */
  lemma PrintThenParse(cs: seq<Component>)
    ensures Parse("$" + ComponentsToString(cs)) == Some(cs) <==> Printable(cs)
  {
    var s := "$" + ComponentsToString(cs);
    if Printable(cs) {
      ScanPrinted(cs);
      PrintedEnd(cs);
      assert s[|s| - 1] == PrintAll(cs)[|PrintAll(cs)| - 1];
      TrimNothing(s);
      assert s[1..] == PrintAll(cs);
    } else if cs == [] {
      TrimNothing(s);
      assert s[1..] == "." && "."[1..] == "";
      assert MatchHere(".").value.component == Key("");
    } else if Parse(s) == Some(cs) {
      AcceptedIsPrintable(s);
    }
  }

  /** Printing an accepted path gives a canonical spelling of it: the same components again. */
  lemma ParseThenPrint(path: string)
    requires Parse(path).Some? && Parse(path).value != []
    ensures Parse("$" + ComponentsToString(Parse(path).value)) == Parse(path)
  {
    AcceptedIsPrintable(path);
    PrintThenParse(Parse(path).value);
  }

  // ---------------------------------------------------------------- spellings of a path

  predicate AllBlank(s: string) { forall i | 0 <= i < |s| :: IsSpace(s[i]) }

  /** The blanks, one by one: they are what ECMAScript calls white space and line terminators. */
  lemma Blanks(c: char)
    ensures IsSpace(c) <==>
            c as int in {0x9, 0xA, 0xB, 0xC, 0xD, 0x20, 0xA0, 0x1680, 0x2000, 0x2001, 0x2002, 0x2003, 0x2004, 0x2005, 0x2006,
                         0x2007, 0x2008, 0x2009, 0x200A, 0x2028, 0x2029, 0x202F, 0x205F, 0x3000, 0xFEFF}
  {
  }

  lemma {:induction false} TrimStartBlank(b: string, s: string)
    requires AllBlank(b)
    ensures TrimStart(b + s) == TrimStart(s)
  {
    if b == "" {
      assert b + s == s;
    } else {
      assert (b + s)[1..] == b[1..] + s;
      TrimStartBlank(b[1..], s);
    }
  }

  lemma {:induction false} TrimEndBlank(s: string, c: string)
    requires AllBlank(c)
    ensures TrimEnd(s + c) == TrimEnd(s)
  {
    if c == "" {
      assert s + c == s;
    } else {
      assert (s + c)[..|s + c| - 1] == s + c[..|c| - 1];
      TrimEndBlank(s, c[..|c| - 1]);
    }
  }

  lemma {:induction false} TrimStartBefore(s: string, c: string)
    requires AllBlank(c)
    ensures TrimEnd(TrimStart(s + c)) == TrimEnd(TrimStart(s))
  {
    if s != "" && IsSpace(s[0]) {
      assert (s + c)[1..] == s[1..] + c;
      TrimStartBefore(s[1..], c);
    } else if s == "" {
      assert s + c == c + "";
      TrimStartBlank(c, "");
    } else {
      TrimEndBlank(s, c);
    }
  }

  /** Blanks around a path make no difference. */
  lemma BlanksAround(b: string, s: string, c: string)
    requires AllBlank(b) && AllBlank(c)
    ensures Parse(b + s + c) == Parse(s)
  {
    assert b + s + c == b + (s + c);
    TrimStartBlank(b, s + c);
    TrimStartBefore(s, c);
  }

  /** A path may be written without "$", and a key at its start without ".": the short spelling
      reads as the full one. The empty path is refused. */
  lemma ShortSpelling(s: string)
    requires s == "" || (!IsSpace(s[0]) && !EndsBlank(s))
    ensures s != "" && s[0] != '$' && s[0] != '[' ==> Parse(s) == Parse("$." + s)
    ensures s != "" && s[0] == '[' ==> Parse(s) == Parse("$" + s)
    ensures s == "" ==> Parse(s) == None
  {
    if s == "" {
      LoneDot();
      assert Normalize(s) == ".";
    } else {
      var full := if s[0] == '[' then "$" + s else "$." + s;
      TrimNothing(s);
      assert full[|full| - 1] == s[|s| - 1];
      TrimNothing(full);
      assert full[1..] == if s[0] == '[' then s else "." + s;
    }
  }

  lemma LoneDot()
    ensures Scan(".") == None
  {
    var s := ".";
    assert NameSpan(s[1..]) == 0 && s[1..1] == "";
    assert MatchHere(s) == Some(Token(Key(""), 1));
  }

  /** The root alone is the empty list of components. */
  lemma RootAlone()
    ensures Parse("$") == Some([]) && Parse("$.") == None
  {
    TrimNothing("$");
    TrimNothing("$.");
    LoneDot();
    assert "$"[1..] == "" && "$."[1..] == ".";
  }

  /** An index is accepted exactly if it is a safe integer. */
  lemma SafeIndexes(n: int)
    ensures Parse("$[" + IntToString(n) + "]") == if -9007199254740991 <= n <= 9007199254740991 then Some([Index(n)]) else None
  {
    var s, text := "$[" + IntToString(n) + "]", "[" + IntToString(n) + "]";
    TrimNothing(s);
    assert s[1..] == text;
    IndexMatched(n, "");
    assert text + "" == text;
    ScanOnly(text, Index(n));
  }

  lemma ScanOnly(text: string, c: Component)
    requires text != "" && MatchHere(text) == Some(Token(c, |text|))
    ensures Scan(text) == if Acceptable(c) then Some([c]) else None
  {
    if Acceptable(c) {
      ScanNext(text, Token(c, |text|));
      assert text[|text|..] == "" && Scan("") == Some([]) && [c] + [] == [c];
    }
  }

  // ---------------------------------------------------------------- strings outside the grammar

  /** The grammar proper: like Scan, but every match must start where the previous one ended. */
  function ScanAnchored(s: string): Option<seq<Component>>
    decreases |s|
  {
    if s == "" then Some([])
    else
      match MatchHere(s)
      case None => None
      case Some(token) =>
        if !Acceptable(token.component) then None
        else Prepend([token.component], ScanAnchored(s[token.length..]))
  }

  /** On strings of the grammar the unanchored scanner reads exactly what the grammar says. */
  lemma {:induction false} GrammarIsRespected(s: string)
    requires ScanAnchored(s).Some?
    ensures Scan(s) == ScanAnchored(s)
    decreases |s|
  {
    if s != "" {
      GrammarIsRespected(s[MatchHere(s).value.length..]);
    }
  }

  /** Text that starts no component is skipped, but the cursor advances by the length of the match
      alone: as many characters as were skipped are read again, from the skipped text itself if it
      is longer than the match. */
  lemma SkippedText(junk: string, text: string)
    requires forall i | 0 <= i < |junk| :: MatchHere((junk + text)[i..]).None?
    requires text != "" && MatchHere(text).Some? && Acceptable(MatchHere(text).value.component)
    ensures var token := MatchHere(text).value;
            Scan(junk + text) == Prepend([token.component], Scan(Leftover(junk, text, token.length)))
  {
    var token := MatchHere(text).value;
    MatchAfter(junk, text);
    DropFrom(junk, text, token.length);
    ScanNext(junk + text, token);
  }

  lemma ScanNext(s: string, token: Token)
    requires s != "" && Match(s) == Some(token) && Acceptable(token.component)
    ensures Scan(s) == Prepend([token.component], Scan(s[token.length..]))
  {
  }

  function Leftover(junk: string, text: string, n: nat): string
    requires n <= |text|
  {
    if n <= |junk| then junk[n..] + text else text[n - |junk|..]
  }

  lemma DropFrom(junk: string, text: string, n: nat)
    requires n <= |text|
    ensures (junk + text)[n..] == Leftover(junk, text, n)
  {
  }

  lemma {:induction false} MatchAfter(junk: string, text: string)
    requires forall i | 0 <= i < |junk| :: MatchHere((junk + text)[i..]).None?
    requires text != "" && MatchHere(text).Some?
    ensures Match(junk + text) == MatchHere(text)
  {
    if junk == "" {
      assert junk + text == text;
    } else {
      var all, rest := junk + text, junk[1..];
      assert all[0..] == all && all[1..] == rest + text;
      forall i | 0 <= i < |rest| ensures MatchHere((rest + text)[i..]).None? {
        assert all[i + 1..] == (rest + text)[i..];
      }
      MatchAfter(rest, text);
    }
  }

  /** Outside the grammar it may accept: this string yields the key "a" twice. */
  lemma JunkIsAccepted()
    ensures Parse("$xx.a.b") == Some([Key("a"), Key("a"), Key("b")])
    ensures ScanAnchored(Normalize("$xx.a.b")) == None
  {
    TrimNothing("$xx.a.b");
    assert Normalize("$xx.a.b") == "xx.a.b";
    JunkMatches();
    var cs := [Key("a"), Key("a"), Key("b")];
    assert cs[2..] == [Key("b")] && cs[1..][1..] == cs[2..] && cs[2..][1..] == [];
    assert ".b"[2..] == "" && ".a.b"[2..] == ".b" && "xx.a.b"[2..] == ".a.b";
    ScanOne(Key("b"), ".b", "", cs[2..]);
    ScanOne(Key("a"), ".a.b", ".b", cs[1..]);
    ScanOne(Key("a"), "xx.a.b", ".a.b", cs);
  }

  lemma JunkMatches()
    ensures MatchHere("xx.a.b").None?
    ensures Match(".b") == Some(Token(Key("b"), 2))
    ensures Match(".a.b") == Match("xx.a.b") == Some(Token(Key("a"), 2))
  {
    KeyMatched("a", ".b");
    KeyMatched("b", "");
    assert "." + "a" + ".b" == ".a.b" && "." + "b" + "" == ".b";
    assert "xx.a.b"[1..] == "x.a.b" && "x.a.b"[1..] == ".a.b";
    assert Match("x.a.b") == Match(".a.b");
  }

  lemma ScanOne(c: Component, s: string, rest: string, cs: seq<Component>)
    requires cs != [] && cs[0] == c
    requires s != "" && Acceptable(c)
    requires Match(s).Some? && Match(s).value.component == c && s[Match(s).value.length..] == rest
    requires Scan(rest) == Some(cs[1..])
    ensures Scan(s) == Some(cs)
  {
    assert [c] + cs[1..] == cs;
  }
}
