/** Placeholders for pasted content: printing them, finding them in an input, and
    replacing them by what was pasted. */
module References {
  import opened Prelude

  // ---- Decimal numbers ----

  predicate IsDigit(c: char) { '0' <= c <= '9' }

  predicate AllDigits(s: string) { forall i :: 0 <= i < |s| ==> IsDigit(s[i]) }

  function DigitValue(c: char): (v: nat)
    requires IsDigit(c)
    ensures v < 10
  {
    c as int - '0' as int
  }

  function Decimal(n: nat): string {
    if n < 10 then ["0123456789"[n]] else Decimal(n / 10) + ["0123456789"[n % 10]]
  }

  function ParseInt(digits: string): nat
    requires AllDigits(digits)
  {
    if digits == [] then 0 else ParseInt(digits[..|digits| - 1]) * 10 + DigitValue(digits[|digits| - 1])
  }

  lemma {:induction false} DecimalRoundTrip(n: nat)
    ensures Decimal(n) != [] && AllDigits(Decimal(n)) && ParseInt(Decimal(n)) == n
  {
    if n >= 10 {
      DecimalRoundTrip(n / 10);
      var high := Decimal(n / 10);
      assert Decimal(n)[..|high|] == high;
    } else {
      assert Decimal(n)[..0] == [];
    }
  }

  // ---- The pattern ----

  /** How many digits `s` starts with. */
  function Digits(s: string): (n: nat)
    ensures n <= |s| && AllDigits(s[..n])
    ensures n < |s| ==> !IsDigit(s[n])
  {
    if s == [] || !IsDigit(s[0]) then 0
    else
      var n := 1 + Digits(s[1..]);
      assert s[..n] == [s[0]] + s[1..][..n - 1];
      n
  }

  function Dots(s: string): (n: nat)
    ensures n <= |s| && (forall i :: 0 <= i < n ==> s[i] == '.')
    ensures n < |s| ==> s[n] != '.'
  {
    if s == [] || s[0] != '.' then 0 else 1 + Dots(s[1..])
  }

  const PASTED := "[Pasted text #"
  const IMAGE := "[Image #"
  const TRUNCATED := "[...Truncated text #"

  function LabelLength(s: string): (n: nat)
    ensures n <= |s|
  {
    if PASTED <= s then |PASTED| else if IMAGE <= s then |IMAGE| else if TRUNCATED <= s then |TRUNCATED| else 0
  }

  const PLUS := " +"
  const LINES := " lines"

  /** The optional line count. */
  function LinesLength(s: string): (n: nat)
    ensures n <= |s|
  {
    if PLUS <= s then
      var d := Digits(s[2..]);
      if d > 0 && LINES <= s[2 + d..] then 2 + d + |LINES| else 0
    else 0
  }

  /** After the number: the line count, dots, and the closing bracket; how long they are. */
  function MatchEnd(s: string): (n: Option<nat>)
    ensures n.Some? ==> 0 < n.value <= |s|
  {
    var l := LinesLength(s);
    var dots := Dots(s[l..]);
    if l + dots < |s| && s[l + dots] == ']' then Some(l + dots + 1) else None
  }

  datatype Found = Found(digits: string, length: nat)

  /** After the label: the number and the rest. */
  function MatchNumber(s: string): (f: Option<Found>)
    ensures f.Some? ==> 0 < f.value.length <= |s| && AllDigits(f.value.digits)
  {
    var d := Digits(s);
    var end := MatchEnd(s[d..]);
    if d == 0 || end.None? then None else Some(Found(s[..d], d + end.value))
  }

  /** The pattern at the start of `s`. No part of it can give back characters to the
      next one, so there is nothing to backtrack over. */
  function Match(s: string): (f: Option<Found>)
    ensures f.Some? ==> 1 < f.value.length <= |s| && AllDigits(f.value.digits)
  {
    var k := LabelLength(s);
    var number := MatchNumber(s[k..]);
    if k == 0 || number.None? then None else Some(Found(number.value.digits, k + number.value.length))
  }

  datatype Ref = Ref(id: nat, text: string, index: nat)

  /** All matches from the left, none overlapping; `at` is the offset of `s` in the input. */
  function MatchAll(s: string, at: nat): seq<Ref>
    decreases |s|
  {
    if s == [] then []
    else
      match Match(s)
      case Some(f) => [Ref(ParseInt(f.digits), s[..f.length], at)] + MatchAll(s[f.length..], at + f.length)
      case None => MatchAll(s[1..], at + 1)
  }

  function PositiveIds(refs: seq<Ref>): seq<Ref> {
    if refs == [] then [] else (if refs[0].id > 0 then [refs[0]] else []) + PositiveIds(refs[1..])
  }

  function ParseFrom(s: string, at: nat): seq<Ref> { PositiveIds(MatchAll(s, at)) }

  function ParseReferences(input: string): seq<Ref> { ParseFrom(input, 0) }

  // ---- A match lies where it lies whatever surrounds it ----

  lemma {:induction false} DigitsLocal(u: string, v: string, n: nat)
    requires n <= |u| && n <= |v| && u[..n] == v[..n] && Digits(u) < n
    ensures Digits(v) == Digits(u)
  {
    assert u[0] == u[..n][0] && v[0] == v[..n][0];
    if IsDigit(u[0]) {
      assert u[1..][..n - 1] == u[..n][1..] && v[1..][..n - 1] == v[..n][1..];
      DigitsLocal(u[1..], v[1..], n - 1);
    }
  }

  lemma {:induction false} DotsLocal(u: string, v: string, n: nat)
    requires n <= |u| && n <= |v| && u[..n] == v[..n] && Dots(u) < n
    ensures Dots(v) == Dots(u)
  {
    assert u[0] == u[..n][0] && v[0] == v[..n][0];
    if u[0] == '.' {
      assert u[1..][..n - 1] == u[..n][1..] && v[1..][..n - 1] == v[..n][1..];
      DotsLocal(u[1..], v[1..], n - 1);
    }
  }

  lemma PrefixLocal(p: string, u: string, v: string, n: nat)
    requires |p| <= n <= |u| && n <= |v| && u[..n] == v[..n]
    ensures p <= u <==> p <= v
  {
    assert u[..|p|] == u[..n][..|p|] && v[..|p|] == v[..n][..|p|];
  }

  lemma TailLocal(u: string, v: string, n: nat, k: nat)
    requires k <= n <= |u| && n <= |v| && u[..n] == v[..n]
    ensures u[k..][..n - k] == v[k..][..n - k]
  {
    assert u[k..][..n - k] == u[..n][k..] && v[k..][..n - k] == v[..n][k..];
  }

  lemma LabelLocal(u: string, v: string, n: nat)
    requires LabelLength(u) < n <= |u| && n <= |v| && u[..n] == v[..n] && LabelLength(u) > 0
    ensures LabelLength(v) == LabelLength(u)
  {
    assert u[..n][1] == u[1] && v[..n][1] == v[1];
    if PASTED <= u {
      PrefixLocal(PASTED, u, v, n);
    } else if IMAGE <= u {
      PrefixLocal(IMAGE, u, v, n);
      assert IMAGE[1] == 'I' && PASTED[1] == 'P';
    } else {
      PrefixLocal(TRUNCATED, u, v, n);
      assert TRUNCATED[1] == '.' && IMAGE[1] == 'I' && PASTED[1] == 'P';
    }
  }

  lemma LinesLocal(u: string, v: string, n: nat)
    requires LinesLength(u) < n <= |u| && n <= |v| && u[..n] == v[..n]
    requires LinesLength(u) == 0 ==> u[0] != ' '
    ensures LinesLength(v) == LinesLength(u)
  {
    assert u[0] == u[..n][0] && v[0] == v[..n][0];
    if LinesLength(u) > 0 {
      var d := Digits(u[2..]);
      PrefixLocal(PLUS, u, v, n);
      TailLocal(u, v, n, 2);
      DigitsLocal(u[2..], v[2..], n - 2);
      TailLocal(u, v, n, 2 + d);
      PrefixLocal(LINES, u[2 + d..], v[2 + d..], n - 2 - d);
    } else {
      assert PLUS[0] == ' ';
    }
  }

  lemma EndLocal(u: string, v: string)
    requires MatchEnd(u).Some? && MatchEnd(u).value <= |v| && u[..MatchEnd(u).value] == v[..MatchEnd(u).value]
    ensures MatchEnd(v) == MatchEnd(u)
  {
    hide LinesLength;
    var n := MatchEnd(u).value;
    var l := LinesLength(u);
    LinesLocal(u, v, n);
    TailLocal(u, v, n, l);
    DotsLocal(u[l..], v[l..], n - l);
    assert u[n - 1] == u[..n][n - 1] && v[n - 1] == v[..n][n - 1];
  }

  lemma NumberLocal(u: string, v: string)
    requires MatchNumber(u).Some? && MatchNumber(u).value.length <= |v|
    requires u[..MatchNumber(u).value.length] == v[..MatchNumber(u).value.length]
    ensures MatchNumber(v) == MatchNumber(u)
  {
    hide MatchEnd;
    var n := MatchNumber(u).value.length;
    var d := Digits(u);
    DigitsLocal(u, v, n);
    TailLocal(u, v, n, d);
    EndLocal(u[d..], v[d..]);
    assert u[..d] == u[..n][..d] && v[..d] == v[..n][..d];
  }

  /** What follows a match has no say in it. */
  lemma MatchLocal(u: string, v: string)
    requires Match(u).Some? && Match(u).value.length <= |v| && u[..Match(u).value.length] == v[..Match(u).value.length]
    ensures Match(v) == Match(u)
  {
    hide MatchNumber, LabelLength;
    var n := Match(u).value.length;
    var k := LabelLength(u);
    LabelLocal(u, v, n);
    TailLocal(u, v, n, k);
    NumberLocal(u[k..], v[k..]);
  }

  lemma LabelShape(s: string, i: nat)
    requires i < LabelLength(s)
    ensures s[i] == '[' <==> i == 0
  {
    var opening := if PASTED <= s then PASTED else if IMAGE <= s then IMAGE else TRUNCATED;
    assert s[i] == opening[i];
  }

  lemma LinesShape(s: string, i: nat)
    requires i < LinesLength(s)
    ensures s[i] != '['
  {
    var d := Digits(s[2..]);
    if i < 2 {
      assert s[i] == PLUS[i];
    } else if i < 2 + d {
      assert s[i] == s[2..][..d][i - 2];
    } else {
      assert s[i] == s[2 + d..][i - 2 - d] == LINES[i - 2 - d];
    }
  }

  lemma EndShape(s: string, i: nat)
    requires MatchEnd(s).Some? && i < MatchEnd(s).value
    ensures s[i] != '['
  {
    var l := LinesLength(s);
    if i < l {
      LinesShape(s, i);
    } else if i < MatchEnd(s).value - 1 {
      assert s[i] == s[l..][i - l];
    }
  }

  lemma NumberShape(s: string, i: nat)
    requires MatchNumber(s).Some? && i < MatchNumber(s).value.length
    ensures s[i] != '['
  {
    hide MatchEnd;
    var d := Digits(s);
    if i < d {
      assert s[i] == s[..d][i];
    } else {
      EndShape(s[d..], i - d);
    }
  }

  /** A match opens with its only opening bracket. */
  lemma MatchShape(s: string, i: nat)
    requires Match(s).Some? && i < Match(s).value.length
    ensures s[i] == '[' <==> i == 0
  {
    hide MatchNumber, LabelLength;
    var k := LabelLength(s);
    if i < k {
      LabelShape(s, i);
    } else {
      NumberShape(s[k..], i - k);
    }
  }

  /** So no match can start in a text and reach into a placeholder behind it. */
  lemma MatchStopsAtBracket(text: string, t: string)
    requires text != [] && (t == [] || t[0] == '[')
    ensures Match(text + t) == Match(text)
  {
    hide Match;
    var all := text + t;
    if Match(all).Some? {
      var n := Match(all).value.length;
      if n > |text| {
        MatchShape(all, |text|);
      } else {
        assert all[..n] == text[..n];
        MatchLocal(all, text);
      }
    } else if Match(text).Some? {
      var n := Match(text).value.length;
      assert all[..n] == text[..n];
      MatchLocal(text, all);
    }
  }

  lemma MatchAllStep(s: string, at: nat)
    requires s != []
    ensures Match(s).Some? ==>
              var f := Match(s).value;
              MatchAll(s, at) == [Ref(ParseInt(f.digits), s[..f.length], at)] + MatchAll(s[f.length..], at + f.length)
    ensures Match(s).None? ==> MatchAll(s, at) == MatchAll(s[1..], at + 1)
  {
  }

  lemma MatchAllFirst(text: string, t: string, at: nat)
    requires text != [] && Match(text + t) == Match(text)
    ensures var n := if Match(text).Some? then Match(text).value.length else 1;
            && n <= |text|
            && MatchAll(text, at) == MatchAll(text[..n], at) + MatchAll(text[n..], at + n)
            && MatchAll(text + t, at) == MatchAll(text[..n], at) + MatchAll(text[n..] + t, at + n)
  {
    hide Match, MatchAll, ParseInt;
    var n := if Match(text).Some? then Match(text).value.length else 1;
    MatchAllNothing(at + n);
    assert (text + t)[n..] == text[n..] + t && (text + t)[..n] == text[..n];
    MatchAllStep(text, at);
    MatchAllStep(text + t, at);
    MatchAllStep(text[..n], at);
    if Match(text).Some? {
      MatchLocal(text, text[..n]);
      assert text[..n][n..] == [] && text[..n][..n] == text[..n];
    } else {
      OneCharacterNoMatch(text[..n]);
      assert text[..n][1..] == [];
    }
  }

  lemma OneCharacterNoMatch(s: string)
    requires |s| == 1
    ensures Match(s).None?
  {
  }

  lemma {:induction false} MatchAllConcat(text: string, t: string, at: nat)
    requires t == [] || t[0] == '['
    ensures MatchAll(text + t, at) == MatchAll(text, at) + MatchAll(t, at + |text|)
    decreases |text|
  {
    hide Match, ParseInt, MatchAll;
    if text == [] {
      assert text + t == t;
      MatchAllNothing(at);
    } else {
      MatchStopsAtBracket(text, t);
      MatchAllFirst(text, t, at);
      var n := if Match(text).Some? then Match(text).value.length else 1;
      MatchAllConcat(text[n..], t, at + n);
    }
  }

  lemma MatchAllNothing(at: nat)
    ensures MatchAll([], at) == []
  {
  }

  lemma {:induction false} PositiveConcat(a: seq<Ref>, b: seq<Ref>)
    ensures PositiveIds(a + b) == PositiveIds(a) + PositiveIds(b)
  {
    if a == [] {
      assert a + b == b;
    } else {
      assert (a + b)[1..] == a[1..] + b;
      PositiveConcat(a[1..], b);
    }
  }

  lemma {:induction false} NoBracketNoMatch(text: string, at: nat)
    requires '[' !in text
    ensures MatchAll(text, at) == []
    decreases |text|
  {
    if text != [] {
      if Match(text).Some? {
        MatchShape(text, 0);
      }
      NoBracketNoMatch(text[1..], at + 1);
    }
  }

  // ---- The pattern as it is written ----

  function Repeat(c: char, n: nat): string { seq(n, _ => c) }

  function LinesText(lines: Option<string>): string { if lines.Some? then " +" + lines.value + " lines" else "" }

  /** The parts of a reference: one of three labels, a number, perhaps a line count, any dots, and the bracket. */
  datatype Parts = Parts(opening: string, digits: string, lines: Option<string>, dots: nat) {
    predicate Valid() {
      && opening in {"[Pasted text #", "[Image #", "[...Truncated text #"}
      && digits != [] && AllDigits(digits)
      && (lines.Some? ==> lines.value != [] && AllDigits(lines.value))
    }

    function Tail(): string { LinesText(lines) + (Repeat('.', dots) + "]") }

    function Text(): string { opening + (digits + Tail()) }
  }

  lemma {:induction false} DigitsOf(digits: string, t: string)
    requires AllDigits(digits) && (t == [] || !IsDigit(t[0]))
    ensures Digits(digits + t) == |digits|
  {
    if digits == [] {
      assert digits + t == t;
    } else {
      assert (digits + t)[1..] == digits[1..] + t;
      DigitsOf(digits[1..], t);
    }
  }

  lemma {:induction false} DotsOf(n: nat, t: string)
    requires t != [] && t[0] != '.'
    ensures Dots(Repeat('.', n) + t) == n
  {
    if n == 0 {
      assert Repeat('.', n) + t == t;
    } else {
      assert (Repeat('.', n) + t)[1..] == Repeat('.', n - 1) + t;
      DotsOf(n - 1, t);
    }
  }

  lemma CountedLength(d: string, end: string)
    requires d != [] && AllDigits(d)
    ensures LinesLength(PLUS + (d + (LINES + end))) == 2 + |d| + |LINES|
  {
    hide Digits, AllDigits;
    var rest := LINES + end;
    var s := PLUS + (d + rest);
    assert s[2..] == d + rest;
    DigitsOf(d, rest);
    assert s[2 + |d|..] == rest;
  }

  lemma NoLines(end: string)
    requires end != [] && end[0] != ' '
    ensures LinesLength(end) == 0
  {
    assert PLUS[0] == ' ';
  }

  lemma LinesTextIs(lines: Option<string>, end: string)
    ensures lines.None? ==> LinesText(lines) + end == end && |LinesText(lines)| == 0
    ensures lines.Some? ==> LinesText(lines) + end == PLUS + (lines.value + (LINES + end))
    ensures lines.Some? ==> |LinesText(lines)| == 2 + |lines.value| + |LINES|
  {
    if lines.Some? {
      assert " +" + lines.value + " lines" + end == " +" + (lines.value + (" lines" + end));
    }
  }

  lemma LinesTextLength(lines: Option<string>, end: string)
    requires lines.Some? ==> lines.value != [] && AllDigits(lines.value)
    requires end != [] && end[0] != ' '
    ensures LinesLength(LinesText(lines) + end) == |LinesText(lines)|
  {
    hide LinesText, LinesLength, AllDigits;
    LinesTextIs(lines, end);
    if lines.Some? { CountedLength(lines.value, end); } else { NoLines(end); }
  }

  /** A line count, dots and the bracket, wherever the three are found. */
  lemma EndsThere(c: string, dots: string, end: string)
    requires LinesLength(c + (dots + end)) == |c| && Dots(dots + end) == |dots|
    requires end != [] && end[0] == ']'
    ensures MatchEnd(c + (dots + end)) == Some(|c| + |dots| + 1)
  {
    hide LinesLength, Dots;
    assert (c + (dots + end))[|c|..] == dots + end;
  }

  lemma TailMatches(p: Parts, t: string)
    requires p.Valid()
    ensures MatchEnd(p.Tail() + t) == Some(|p.Tail()|) && !IsDigit(p.Tail()[0])
  {
    hide LinesLength, LinesText, Dots, MatchEnd;
    var c, dots, end := LinesText(p.lines), Repeat('.', p.dots), "]" + t;
    assert p.Tail() + t == c + (dots + end);
    LinesTextLength(p.lines, dots + end);
    DotsOf(p.dots, end);
    EndsThere(c, dots, end);
    LinesTextStart(p.lines);
  }

  lemma LinesTextStart(lines: Option<string>)
    ensures LinesText(lines) != [] ==> LinesText(lines)[0] == ' '
  {
  }

  lemma NumberMatches(digits: string, tail: string, t: string)
    requires AllDigits(digits) && digits != [] && tail != [] && !IsDigit(tail[0])
    requires MatchEnd(tail + t) == Some(|tail|)
    ensures MatchNumber(digits + tail + t) == Some(Found(digits, |digits + tail|))
  {
    hide MatchEnd;
    assert digits + tail + t == digits + (tail + t);
    DigitsOf(digits, tail + t);
    assert (digits + (tail + t))[|digits|..] == tail + t;
  }

  lemma LabelMatches(opening: string, t: string)
    requires opening in {"[Pasted text #", "[Image #", "[...Truncated text #"}
    ensures LabelLength(opening + t) == |opening| > 0
  {
    var s := opening + t;
    assert s[..|opening|] == opening;
    assert s[1] == opening[1];
    assert PASTED[1] == 'P' && IMAGE[1] == 'I' && TRUNCATED[1] == '.';
  }

  /** Whatever is written by the pattern is matched whole, whatever follows it. */
  lemma WrittenIsMatched(p: Parts, t: string)
    requires p.Valid()
    ensures Match(p.Text() + t) == Some(Found(p.digits, |p.Text()|))
  {
    hide MatchEnd, MatchNumber, LabelLength;
    var rest := p.digits + p.Tail() + t;
    TailMatches(p, t);
    NumberMatches(p.digits, p.Tail(), t);
    assert p.Text() + t == p.opening + rest;
    LabelMatches(p.opening, rest);
    assert (p.opening + rest)[|p.opening|..] == rest;
  }

  lemma LinesIsWritten(s: string) returns (lines: Option<string>)
    ensures lines.Some? ==> lines.value != [] && AllDigits(lines.value)
    ensures s[..LinesLength(s)] == LinesText(lines)
  {
    lines := None;
    if LinesLength(s) > 0 {
      var d := Digits(s[2..]);
      var digits := s[2..][..d];
      lines := Some(digits);
      assert s[..2] == " +" && s[2 + d..][..6] == " lines";
      assert s[..2 + d + 6] == s[..2] + s[2..][..d] + s[2 + d..][..6];
    }
  }

  lemma EndIsWritten(s: string) returns (lines: Option<string>, dots: nat)
    requires MatchEnd(s).Some?
    ensures lines.Some? ==> lines.value != [] && AllDigits(lines.value)
    ensures s[..MatchEnd(s).value] == LinesText(lines) + (Repeat('.', dots) + "]")
  {
    hide LinesLength, LinesText;
    var l := LinesLength(s);
    dots := Dots(s[l..]);
    lines := LinesIsWritten(s);
    assert s[l..][..dots] == Repeat('.', dots);
    assert s[..l + dots + 1] == s[..l] + (s[l..][..dots] + [s[l + dots]]);
  }

  lemma NumberIsWritten(s: string) returns (digits: string, lines: Option<string>, dots: nat)
    requires MatchNumber(s).Some?
    ensures digits != [] && AllDigits(digits) && digits == MatchNumber(s).value.digits
    ensures lines.Some? ==> lines.value != [] && AllDigits(lines.value)
    ensures s[..MatchNumber(s).value.length] == digits + (LinesText(lines) + (Repeat('.', dots) + "]"))
  {
    hide MatchEnd, LinesText;
    var d := Digits(s);
    digits := s[..d];
    lines, dots := EndIsWritten(s[d..]);
    var n := MatchEnd(s[d..]).value;
    assert s[..d + n] == s[..d] + s[d..][..n];
  }

  /** And whatever is matched is written by the pattern. */
  lemma MatchedIsWritten(s: string) returns (p: Parts)
    requires Match(s).Some?
    ensures p.Valid() && p.digits == Match(s).value.digits && p.Text() == s[..Match(s).value.length]
  {
    hide MatchNumber, LabelLength, LinesText;
    var k := LabelLength(s);
    var digits, lines, dots := NumberIsWritten(s[k..]);
    p := Parts(s[..k], digits, lines, dots);
    LabelIsWritten(s);
    var n := MatchNumber(s[k..]).value.length;
    assert s[..k + n] == s[..k] + s[k..][..n];
  }

  lemma LabelIsWritten(s: string)
    requires LabelLength(s) > 0
    ensures s[..LabelLength(s)] in {"[Pasted text #", "[Image #", "[...Truncated text #"}
  {
    if PASTED <= s {
      assert s[..|PASTED|] == PASTED;
    } else if IMAGE <= s {
      assert s[..|IMAGE|] == IMAGE;
    } else {
      assert s[..|TRUNCATED|] == TRUNCATED;
    }
  }

  // ---- Every reference is found ----

  /** The reference `text` stands at `index` of the input, with number `id`. */
  ghost predicate StandsAt(input: string, ref: Ref) {
    && ref.index + |ref.text| <= |input| && input[ref.index..ref.index + |ref.text|] == ref.text
    && exists p: Parts :: p.Valid() && p.Text() == ref.text && ParseInt(p.digits) == ref.id
  }

  /** What the pattern matches at a position of the input. */
  predicate MatchedAt(input: string, ref: Ref) {
    && ref.index <= |input| && Match(input[ref.index..]).Some?
    && var f := Match(input[ref.index..]).value;
       ref.text == input[ref.index..][..f.length] && ref.id == ParseInt(f.digits)
  }

  lemma MatchedStands(input: string, ref: Ref)
    requires MatchedAt(input, ref)
    ensures StandsAt(input, ref)
  {
    hide Match, ParseInt, Parts.Text, Parts.Valid;
    var s := input[ref.index..];
    var p := MatchedIsWritten(s);
    assert p.Text() == ref.text && |ref.text| <= |s|;
    assert input[ref.index..ref.index + |ref.text|] == s[..|ref.text|];
  }

  lemma StandingMatches(input: string, ref: Ref, p: Parts)
    requires ref.index + |ref.text| <= |input| && input[ref.index..ref.index + |ref.text|] == ref.text
    requires p.Valid() && p.Text() == ref.text && ParseInt(p.digits) == ref.id
    ensures MatchedAt(input, ref)
  {
    hide Match, ParseInt, Parts.Text, Parts.Valid;
    var rest := input[ref.index + |ref.text|..];
    assert input[ref.index..] == ref.text + rest;
    WrittenIsMatched(p, rest);
    assert (ref.text + rest)[..|ref.text|] == ref.text;
  }

  lemma MatchedIffStands(input: string, ref: Ref)
    ensures MatchedAt(input, ref) <==> StandsAt(input, ref)
  {
    hide MatchedAt, ParseInt, Parts.Text;
    if MatchedAt(input, ref) { MatchedStands(input, ref); }
    if StandsAt(input, ref) {
      var p: Parts :| p.Valid() && p.Text() == ref.text && ParseInt(p.digits) == ref.id;
      StandingMatches(input, ref, p);
    }
  }

  /** No match begins inside another. */
  lemma NoMatchInside(s: string, i: nat)
    requires Match(s).Some? && 0 < i < Match(s).value.length
    ensures Match(s[i..]).None?
  {
    hide Match;
    MatchShape(s, i);
    if Match(s[i..]).Some? { MatchShape(s[i..], 0); }
  }

  lemma {:induction false} MatchAllFindsAll(input: string, from: nat, ref: Ref)
    requires from <= |input|
    ensures ref in MatchAll(input[from..], from) <==> from <= ref.index && MatchedAt(input, ref)
    decreases |input| - from
  {
    hide Match, ParseInt;
    var s := input[from..];
    if s == [] {
      NoEmptyMatch();
      assert ref.index == |input| ==> input[ref.index..] == [];
    } else {
      MatchAllStep(s, from);
      var n := if Match(s).Some? then Match(s).value.length else 1;
      assert s[n..] == input[from + n..];
      MatchAllFindsAll(input, from + n, ref);
      if from < ref.index < from + n {
        assert input[ref.index..] == s[ref.index - from..];
        NoMatchInside(s, ref.index - from);
      }
    }
  }

  lemma NoEmptyMatch()
    ensures Match([]).None?
  {
  }

  lemma {:induction false} PositiveMembers(refs: seq<Ref>, ref: Ref)
    ensures ref in PositiveIds(refs) <==> ref in refs && ref.id > 0
  {
    if refs != [] {
      PositiveMembers(refs[1..], ref);
    }
  }

  /** Parsing finds exactly the references there are: every stretch of the input that the pattern can write, with a
      positive number, at its place and with its number, and nothing else. */
  lemma FindsExactly(input: string, ref: Ref)
    ensures ref in ParseReferences(input) <==> ref.id > 0 && StandsAt(input, ref)
  {
    hide Match, ParseInt, StandsAt, MatchedAt;
    assert input[0..] == input;
    MatchAllFindsAll(input, 0, ref);
    PositiveMembers(MatchAll(input, 0), ref);
    MatchedIffStands(input, ref);
  }

  // ---- Printing ----

  datatype Placeholder = PastedText(id: nat, numLines: nat) | Image(id: nat) | TruncatedText(id: nat, numLines: nat)

  function LabelOf(p: Placeholder): string {
    if p.PastedText? then PASTED else if p.Image? then IMAGE else TRUNCATED
  }

  /** A pasted text without line breaks shows no line count. */
  function LineCount(p: Placeholder): string {
    if p.Image? || (p.PastedText? && p.numLines == 0) then "" else PLUS + Decimal(p.numLines) + LINES
  }

  function Close(p: Placeholder): string { if p.TruncatedText? then "...]" else "]" }

  function Format(p: Placeholder): string { LabelOf(p) + (Decimal(p.id) + (LineCount(p) + Close(p))) }

  lemma FormatOpens(p: Placeholder)
    ensures Format(p) != [] && Format(p)[0] == '['
  {
  }

  function PartsOf(p: Placeholder): Parts {
    Parts(if p.PastedText? then "[Pasted text #" else if p.Image? then "[Image #" else "[...Truncated text #",
          Decimal(p.id),
          if p.Image? || (p.PastedText? && p.numLines == 0) then None else Some(Decimal(p.numLines)),
          if p.TruncatedText? then 3 else 0)
  }

  /** What is printed is written by the pattern, with the number and the line count it should tell. */
  lemma FormatIsWritten(p: Placeholder)
    ensures PartsOf(p).Valid() && Format(p) == PartsOf(p).Text()
    ensures ParseInt(PartsOf(p).digits) == p.id
    ensures PartsOf(p).lines.Some? ==> AllDigits(PartsOf(p).lines.value) && ParseInt(PartsOf(p).lines.value) == p.numLines
  {
    hide Decimal;
    DecimalRoundTrip(p.id);
    if !p.Image? { DecimalRoundTrip(p.numLines); }
    assert Repeat('.', 3) == "..." && Repeat('.', 0) == "";
  }

  /** The parts of a written reference can be told from its text. */
  lemma PartsTold(p: Parts, q: Parts)
    requires p.Valid() && q.Valid() && p.Text() == q.Text()
    ensures p == q
  {
    WrittenIsMatched(p, []);
    WrittenIsMatched(q, []);
    assert p.Text() + [] == p.Text();
    LabelMatches(p.opening, p.digits + p.Tail());
    LabelMatches(q.opening, q.digits + q.Tail());
    hide Match, LabelLength;
    assert p.opening == p.Text()[..|p.opening|] == q.opening;
    assert p.Tail() == p.Text()[|p.opening| + |p.digits|..] == q.Tail();
    TailsTold(p, q);
  }

  lemma TailsTold(p: Parts, q: Parts)
    requires p.Valid() && q.Valid() && p.Tail() == q.Tail()
    ensures p.lines == q.lines && p.dots == q.dots
  {
    hide LinesLength, LinesText;
    var u, v := Repeat('.', p.dots) + "]", Repeat('.', q.dots) + "]";
    LinesTextLength(p.lines, u);
    LinesTextLength(q.lines, v);
    assert LinesText(p.lines) == p.Tail()[..|LinesText(p.lines)|] == LinesText(q.lines);
    assert u == p.Tail()[|LinesText(p.lines)|..] == v;
    assert |u| == |v|;
    LinesTold(p.lines, q.lines);
  }

  lemma LinesTold(a: Option<string>, b: Option<string>)
    requires LinesText(a) == LinesText(b)
    ensures a == b
  {
    if a.Some? && b.Some? {
      var s := LinesText(a);
      assert a.value == s[2..|s| - 6] == b.value;
    }
  }

  /** Two placeholders are printed alike only if they are the same: the text tells the kind, the number and the line count. */
  lemma PrintTellsAll(p: Placeholder, q: Placeholder)
    ensures Format(p) == Format(q) <==> p == q
  {
    hide Format, Decimal;
    FormatIsWritten(p);
    FormatIsWritten(q);
    if Format(p) == Format(q) {
      PartsTold(PartsOf(p), PartsOf(q));
    }
  }

  /** Round trip of one placeholder, whatever follows it. */
  lemma FormatMatches(p: Placeholder, t: string)
    ensures Match(Format(p) + t) == Some(Found(Decimal(p.id), |Format(p)|))
  {
    hide Match, Decimal, Format;
    FormatIsWritten(p);
    WrittenIsMatched(PartsOf(p), t);
  }

  // ---- Texts and placeholders in turn ----

  /** `texts[0] mids[0] texts[1] mids[1] ... texts[n]`. */
  function Weave(texts: seq<string>, mids: seq<string>): string
    requires |texts| == |mids| + 1
    decreases |mids|
  {
    if mids == [] then texts[0] else texts[0] + (mids[0] + Weave(texts[1..], mids[1..]))
  }

  function FormatAll(ps: seq<Placeholder>): (mids: seq<string>)
    ensures |mids| == |ps|
  {
    if ps == [] then [] else [Format(ps[0])] + FormatAll(ps[1..])
  }

  /** The references of such an input: those each text has by itself, and the placeholders. */
  function Expected(texts: seq<string>, ps: seq<Placeholder>, at: nat): seq<Ref>
    requires |texts| == |ps| + 1
    decreases |ps|
  {
    if ps == [] then ParseFrom(texts[0], at)
    else
      var here := at + |texts[0]|;
      ParseFrom(texts[0], at) + ([Ref(ps[0].id, Format(ps[0]), here)] + Expected(texts[1..], ps[1..], here + |Format(ps[0])|))
  }

  lemma ParseConcat(text: string, t: string, at: nat)
    requires t == [] || t[0] == '['
    ensures ParseFrom(text + t, at) == ParseFrom(text, at) + ParseFrom(t, at + |text|)
  {
    MatchAllConcat(text, t, at);
    PositiveConcat(MatchAll(text, at), MatchAll(t, at + |text|));
  }

  lemma ParsePlaceholder(p: Placeholder, t: string, at: nat)
    requires p.id > 0
    ensures ParseFrom(Format(p) + t, at) == [Ref(p.id, Format(p), at)] + ParseFrom(t, at + |Format(p)|)
  {
    hide Match, MatchAll, Format, Decimal, ParseInt, PositiveIds;
    var s := Format(p) + t;
    FormatMatches(p, t);
    FormatOpens(p);
    DecimalRoundTrip(p.id);
    MatchAllStep(s, at);
    assert s[..|Format(p)|] == Format(p) && s[|Format(p)|..] == t;
    var ref := Ref(p.id, Format(p), at);
    PositiveConcat([ref], MatchAll(t, at + |Format(p)|));
    PositiveOne(ref);
  }

  lemma PositiveOne(ref: Ref)
    requires ref.id > 0
    ensures PositiveIds([ref]) == [ref]
  {
    assert [ref][1..] == [];
  }

  /** Reference round trip. Texts of any kind and printed placeholders in turn parse to the
      placeholders, in order and in place, among whatever the texts parse to alone:
      no match straddles a text and a placeholder. */
  lemma {:induction false} ParseWoven(texts: seq<string>, ps: seq<Placeholder>, at: nat)
    requires |texts| == |ps| + 1 && forall p <- ps :: p.id > 0
    ensures ParseFrom(Weave(texts, FormatAll(ps)), at) == Expected(texts, ps, at)
    decreases |ps|
  {
    hide Format, ParseFrom;
    if ps != [] {
      var rest := Weave(texts[1..], FormatAll(ps[1..]));
      ParseOnePair(texts[0], ps[0], rest, at);
      ParseWoven(texts[1..], ps[1..], at + |texts[0]| + |Format(ps[0])|);
      assert FormatAll(ps)[1..] == FormatAll(ps[1..]);
    }
  }

  lemma ParseOnePair(text: string, p: Placeholder, rest: string, at: nat)
    requires p.id > 0
    ensures ParseFrom(text + (Format(p) + rest), at)
            == ParseFrom(text, at) + ([Ref(p.id, Format(p), at + |text|)] + ParseFrom(rest, at + |text| + |Format(p)|))
  {
    hide Format, ParseFrom;
    FormatOpens(p);
    ParseConcat(text, Format(p) + rest, at);
    ParsePlaceholder(p, rest, at + |text|);
  }

  /** Only the placeholders. */
  function Alone(texts: seq<string>, ps: seq<Placeholder>, at: nat): (refs: seq<Ref>)
    requires |texts| == |ps| + 1
    ensures |refs| == |ps|
    decreases |ps|
  {
    if ps == [] then []
    else
      var here := at + |texts[0]|;
      [Ref(ps[0].id, Format(ps[0]), here)] + Alone(texts[1..], ps[1..], here + |Format(ps[0])|)
  }

  lemma {:induction false} ExpectedAlone(texts: seq<string>, ps: seq<Placeholder>, at: nat)
    requires |texts| == |ps| + 1
    ensures |Expected(texts, ps, at)| >= |ps|
    ensures Expected(texts, ps, at) == Alone(texts, ps, at) <==> forall text <- texts :: ParseFrom(text, 0) == []
    decreases |ps|
  {
    hide ParseFrom, Format;
    ParseAnywhere(texts[0], 0, at);
    assert texts == [texts[0]] + texts[1..];
    if ps != [] {
      var here := at + |texts[0]|;
      var next := here + |Format(ps[0])|;
      ExpectedAlone(texts[1..], ps[1..], next);
      var own, rest := ParseFrom(texts[0], at), [Ref(ps[0].id, Format(ps[0]), here)] + Expected(texts[1..], ps[1..], next);
      if own == [] {
        assert own + rest == rest;
        assert rest[1..] == Expected(texts[1..], ps[1..], next) && Alone(texts, ps, at)[1..] == Alone(texts[1..], ps[1..], next);
      }
    }
  }

  lemma {:induction false} MatchAllAnywhere(s: string, at: nat, at': nat)
    ensures |MatchAll(s, at)| == |MatchAll(s, at')|
    ensures forall i :: 0 <= i < |MatchAll(s, at)| ==> MatchAll(s, at)[i].id == MatchAll(s, at')[i].id
    decreases |s|
  {
    hide Match;
    if s != [] {
      MatchAllStep(s, at);
      MatchAllStep(s, at');
      var n := if Match(s).Some? then Match(s).value.length else 1;
      MatchAllAnywhere(s[n..], at + n, at' + n);
    }
  }

  lemma {:induction false} PositiveAnywhere(a: seq<Ref>, b: seq<Ref>)
    requires |a| == |b| && forall i :: 0 <= i < |a| ==> a[i].id == b[i].id
    ensures |PositiveIds(a)| == |PositiveIds(b)|
  {
    if a != [] {
      PositiveAnywhere(a[1..], b[1..]);
    }
  }

  lemma ParseAnywhere(s: string, at: nat, at': nat)
    ensures ParseFrom(s, at) == [] <==> ParseFrom(s, at') == []
  {
    MatchAllAnywhere(s, at, at');
    PositiveAnywhere(MatchAll(s, at), MatchAll(s, at'));
  }

  /** Exactly the placeholders are found if and only if no text holds a reference
      itself; a text without an opening bracket holds none. */
  lemma ParseReturnsThePlaceholders(texts: seq<string>, ps: seq<Placeholder>)
    requires |texts| == |ps| + 1 && forall p <- ps :: p.id > 0
    ensures ParseReferences(Weave(texts, FormatAll(ps))) == Alone(texts, ps, 0)
            <==> forall text <- texts :: ParseReferences(text) == []
    ensures (forall text <- texts :: '[' !in text) ==> ParseReferences(Weave(texts, FormatAll(ps))) == Alone(texts, ps, 0)
  {
    ParseWoven(texts, ps, 0);
    ExpectedAlone(texts, ps, 0);
    forall text | text in texts && '[' !in text ensures ParseReferences(text) == [] {
      NoBracketNoMatch(text, 0);
    }
  }

  // ---- Expansion ----

  datatype Content = TextContent(content: string) | ImageContent

  /** What a reference turns into: images and unknown ids stay as they are. */
  function Replacement(ref: Ref, contents: map<nat, Content>): string {
    if ref.id in contents && contents[ref.id].TextContent? then contents[ref.id].content else ref.text
  }

  function End(ref: Ref): nat { ref.index + |ref.text| }

  /** References of `input[from..]`, in order, none overlapping, each where it says. */
  predicate InPlace(input: string, from: nat, refs: seq<Ref>)
    decreases |refs|
  {
    if refs == [] then from <= |input|
    else
      && from <= refs[0].index && End(refs[0]) <= |input|
      && input[refs[0].index..End(refs[0])] == refs[0].text
      && InPlace(input, End(refs[0]), refs[1..])
  }

  /** The stretches of input around the references. */
  function Gaps(input: string, from: nat, refs: seq<Ref>): (gaps: seq<string>)
    requires InPlace(input, from, refs)
    ensures |gaps| == |refs| + 1
    decreases |refs|
  {
    if refs == [] then [input[from..]]
    else [input[from..refs[0].index]] + Gaps(input, End(refs[0]), refs[1..])
  }

  function Texts(refs: seq<Ref>): (texts: seq<string>)
    ensures |texts| == |refs|
  {
    if refs == [] then [] else [refs[0].text] + Texts(refs[1..])
  }

  function Replacements(refs: seq<Ref>, contents: map<nat, Content>): (texts: seq<string>)
    ensures |texts| == |refs|
  {
    if refs == [] then [] else [Replacement(refs[0], contents)] + Replacements(refs[1..], contents)
  }

  /** The gaps and the references in turn are the input again. */
  lemma {:induction false} InputIsWoven(input: string, from: nat, refs: seq<Ref>)
    requires InPlace(input, from, refs)
    ensures from <= |input| && input[from..] == Weave(Gaps(input, from, refs), Texts(refs))
    decreases |refs|
  {
    if refs != [] {
      var ref := refs[0];
      InputIsWoven(input, End(ref), refs[1..]);
      assert input[from..] == input[from..ref.index] + (input[ref.index..End(ref)] + input[End(ref)..]);
    }
  }

  lemma {:induction false} MatchAllInPlace(input: string, from: nat)
    requires from <= |input|
    ensures InPlace(input, from, MatchAll(input[from..], from))
    decreases |input| - from
  {
    hide Match;
    var s := input[from..];
    if s != [] {
      MatchAllStep(s, from);
      var n := if Match(s).Some? then Match(s).value.length else 1;
      assert s[n..] == input[from + n..] && s[..n] == input[from..from + n];
      MatchAllInPlace(input, from + n);
      if Match(s).None? {
        InPlaceFrom(input, from, from + 1, MatchAll(s, from));
      }
    }
  }

  lemma InPlaceFrom(input: string, from: nat, later: nat, refs: seq<Ref>)
    requires from <= later && InPlace(input, later, refs)
    ensures InPlace(input, from, refs)
  {
  }

  lemma {:induction false} PositiveInPlace(input: string, from: nat, refs: seq<Ref>)
    requires InPlace(input, from, refs)
    ensures InPlace(input, from, PositiveIds(refs))
    decreases |refs|
  {
    if refs != [] {
      PositiveInPlace(input, End(refs[0]), refs[1..]);
      var rest := PositiveIds(refs[1..]);
      if refs[0].id > 0 {
        assert PositiveIds(refs)[1..] == rest;
      } else {
        assert PositiveIds(refs) == rest;
        InPlaceFrom(input, from, End(refs[0]), rest);
      }
    }
  }

  lemma ReferencesInPlace(input: string)
    ensures InPlace(input, 0, ParseReferences(input))
  {
    assert input[0..] == input;
    MatchAllInPlace(input, 0);
    PositiveInPlace(input, 0, MatchAll(input, 0));
  }

  /** The input with every gap kept and every reference replaced once, from left to right. */
  function Expand(input: string, contents: map<nat, Content>): string {
    ReferencesInPlace(input);
    var refs := ParseReferences(input);
    Weave(Gaps(input, 0, refs), Replacements(refs, contents))
  }

  /** The end of the last reference before `refs[i]`. */
  function Cut(refs: seq<Ref>, i: nat): nat
    requires i <= |refs|
  {
    if i == 0 then 0 else End(refs[i - 1])
  }

  lemma {:induction false} InPlaceTail(input: string, from: nat, refs: seq<Ref>, i: nat)
    requires InPlace(input, from, refs) && i <= |refs|
    ensures InPlace(input, if i == 0 then from else End(refs[i - 1]), refs[i..])
    decreases |refs|
  {
    if i == 0 {
      assert refs[i..] == refs;
    } else {
      InPlaceTail(input, End(refs[0]), refs[1..], i - 1);
      assert refs[1..][i - 1..] == refs[i..];
      if i > 1 {
        assert refs[1..][i - 2] == refs[i - 1];
      }
    }
  }

  /** What the loop has made of the input once it has been through `refs[i..]`. */
  function Spliced(input: string, refs: seq<Ref>, contents: map<nat, Content>, i: nat): string
    requires InPlace(input, 0, refs) && i <= |refs|
  {
    InPlaceTail(input, 0, refs, i);
    InputIsWoven(input, Cut(refs, i), refs[i..]);
    input[..Cut(refs, i)] + Weave(Gaps(input, Cut(refs, i), refs[i..]), Replacements(refs[i..], contents))
  }

  /** One round: cutting the text out of what has been spliced so far and putting its
      replacement in, at the offsets of the original input. */
  lemma SpliceOne(input: string, refs: seq<Ref>, contents: map<nat, Content>, i: nat)
    requires InPlace(input, 0, refs) && i < |refs|
    ensures var expanded := Spliced(input, refs, contents, i + 1);
            && End(refs[i]) <= |expanded|
            && Spliced(input, refs, contents, i)
               == expanded[..refs[i].index] + Replacement(refs[i], contents) + expanded[End(refs[i])..]
            && expanded[refs[i].index..End(refs[i])] == refs[i].text
  {
    var ref, cut := refs[i], Cut(refs, i);
    InPlaceTail(input, 0, refs, i);
    InPlaceTail(input, 0, refs, i + 1);
    InputIsWoven(input, cut, refs[i..]);
    assert refs[i..][0] == ref && refs[i..][1..] == refs[i + 1..];
    var rest := Weave(Gaps(input, End(ref), refs[i + 1..]), Replacements(refs[i + 1..], contents));
    var expanded := Spliced(input, refs, contents, i + 1);
    assert expanded == input[..End(ref)] + rest;
    WeaveFirst(input[cut..ref.index], Gaps(input, End(ref), refs[i + 1..]),
               Replacement(ref, contents), Replacements(refs[i + 1..], contents));
    SpliceText(input, cut, ref.index, End(ref), Replacement(ref, contents), rest);
  }

  lemma WeaveFirst(text: string, texts: seq<string>, mid: string, mids: seq<string>)
    requires |texts| == |mids| + 1
    ensures Weave([text] + texts, [mid] + mids) == text + (mid + Weave(texts, mids))
  {
    assert ([text] + texts)[1..] == texts && ([mid] + mids)[1..] == mids;
  }

  lemma SpliceText(input: string, cut: nat, index: nat, end: nat, mid: string, rest: string)
    requires cut <= index <= end <= |input|
    ensures input[..cut] + (input[cut..index] + (mid + rest))
            == (input[..end] + rest)[..index] + mid + (input[..end] + rest)[end..]
    ensures (input[..end] + rest)[index..end] == input[index..end]
  {
    assert (input[..end] + rest)[end..] == rest;
    assert (input[..end] + rest)[..index] == input[..cut] + input[cut..index];
  }

  /** Splicing backwards in place is the one pass from left to right: what was pasted
      is never looked at again, whatever it contains. */
  method ExpandPastedTextRefs(input: string, contents: map<nat, Content>) returns (expanded: string)
    ensures expanded == Expand(input, contents)
  {
    hide Spliced, Expand, ParseReferences;
    var refs := ParseReferences(input);
    ReferencesInPlace(input);
    expanded := input;
    SplicedNone(input, refs, contents);
    var i := |refs| - 1;
    while i >= 0
      invariant -1 <= i < |refs|
      invariant expanded == Spliced(input, refs, contents, i + 1)
    {
      var ref := refs[i];
      SpliceOne(input, refs, contents, i);
      if ref.id !in contents || !contents[ref.id].TextContent? {
        SpliceSame(expanded, ref.index, End(ref));
      } else {
        expanded := expanded[..ref.index] + contents[ref.id].content + expanded[ref.index + |ref.text|..];
      }
      i := i - 1;
    }
    SplicedAll(input, contents);
  }

  lemma SpliceSame(s: string, index: nat, end: nat)
    requires index <= end <= |s|
    ensures s == s[..index] + s[index..end] + s[end..]
  {
  }

  lemma SplicedAll(input: string, contents: map<nat, Content>)
    ensures InPlace(input, 0, ParseReferences(input))
    ensures Spliced(input, ParseReferences(input), contents, 0) == Expand(input, contents)
  {
    hide ParseReferences;
    var refs := ParseReferences(input);
    ReferencesInPlace(input);
    assert refs[0..] == refs && input[..0] == "";
  }

  lemma SplicedNone(input: string, refs: seq<Ref>, contents: map<nat, Content>)
    requires InPlace(input, 0, refs)
    ensures Spliced(input, refs, contents, |refs|) == input
  {
    InPlaceTail(input, 0, refs, |refs|);
    assert refs[|refs|..] == [];
  }

  // ---- Printing, parsing and expanding together ----

  lemma WeaveStep(texts: seq<string>, ps: seq<Placeholder>)
    requires |texts| == |ps| + 1
    ensures ps == [] ==> Weave(texts, FormatAll(ps)) == texts[0] && texts == [texts[0]]
    ensures ps != [] ==> Weave(texts, FormatAll(ps)) == texts[0] + (Format(ps[0]) + Weave(texts[1..], FormatAll(ps[1..])))
  {
    hide Format;
    if ps != [] { assert FormatAll(ps)[1..] == FormatAll(ps[1..]); }
  }

  lemma AloneStep(texts: seq<string>, ps: seq<Placeholder>, at: nat)
    requires |texts| == |ps| + 1 && ps != []
    ensures var here := at + |texts[0]|;
            Alone(texts, ps, at) == [Ref(ps[0].id, Format(ps[0]), here)] + Alone(texts[1..], ps[1..], here + |Format(ps[0])|)
  {
  }

  /** Putting one reference in front. */
  lemma GapsStep(input: string, from: nat, ref: Ref, refs: seq<Ref>)
    requires from <= ref.index && End(ref) <= |input| && input[ref.index..End(ref)] == ref.text && InPlace(input, End(ref), refs)
    ensures InPlace(input, from, [ref] + refs)
    ensures Gaps(input, from, [ref] + refs) == [input[from..ref.index]] + Gaps(input, End(ref), refs)
  {
    assert ([ref] + refs)[1..] == refs;
  }

  lemma {:induction false} AloneGaps(done: string, texts: seq<string>, ps: seq<Placeholder>)
    requires |texts| == |ps| + 1
    ensures var input := done + Weave(texts, FormatAll(ps));
            var refs := Alone(texts, ps, |done|);
            InPlace(input, |done|, refs) && Gaps(input, |done|, refs) == texts
    decreases |ps|
  {
    hide Format, FormatAll, Weave;
    var input := done + Weave(texts, FormatAll(ps));
    WeaveStep(texts, ps);
    if ps == [] {
      assert input[|done|..] == texts[0];
    } else {
      hide Alone, InPlace, Gaps;
      var before := done + texts[0];
      var through := before + Format(ps[0]);
      var ref := Ref(ps[0].id, Format(ps[0]), |before|);
      assert input == through + Weave(texts[1..], FormatAll(ps[1..]));
      AloneGaps(through, texts[1..], ps[1..]);
      AloneStep(texts, ps, |done|);
      assert input[|done|..|before|] == texts[0] && input[|before|..|through|] == Format(ps[0]);
      GapsStep(input, |done|, ref, Alone(texts[1..], ps[1..], |through|));
      assert texts == [texts[0]] + texts[1..];
    }
  }

  function Substitutes(ps: seq<Placeholder>, contents: map<nat, Content>): (mids: seq<string>)
    ensures |mids| == |ps|
  {
    if ps == [] then []
    else [if ps[0].id in contents && contents[ps[0].id].TextContent? then contents[ps[0].id].content else Format(ps[0])]
         + Substitutes(ps[1..], contents)
  }

  lemma {:induction false} AloneReplacements(texts: seq<string>, ps: seq<Placeholder>, at: nat, contents: map<nat, Content>)
    requires |texts| == |ps| + 1
    ensures Replacements(Alone(texts, ps, at), contents) == Substitutes(ps, contents)
    decreases |ps|
  {
    hide Format;
    if ps != [] {
      var next := at + |texts[0]| + |Format(ps[0])|;
      AloneReplacements(texts[1..], ps[1..], next, contents);
      assert Alone(texts, ps, at)[1..] == Alone(texts[1..], ps[1..], next);
    }
  }

  /** An input typed around printed placeholders expands to the same typing around what
      was pasted for them, even where that looks like placeholders. */
  lemma ExpandIsSubstitution(texts: seq<string>, ps: seq<Placeholder>, contents: map<nat, Content>)
    requires |texts| == |ps| + 1 && forall p <- ps :: p.id > 0
    requires forall text <- texts :: ParseReferences(text) == []
    ensures Expand(Weave(texts, FormatAll(ps)), contents) == Weave(texts, Substitutes(ps, contents))
  {
    hide ParseReferences;
    var input := Weave(texts, FormatAll(ps));
    ParseReturnsThePlaceholders(texts, ps);
    AloneGaps("", texts, ps);
    assert "" + input == input;
    AloneReplacements(texts, ps, 0, contents);
  }
}
