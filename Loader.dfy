/**
 * The per-line parse inside `load` (ls8/cpu.py): each line is cut at its
 * first `#`, stripped of surrounding whitespace, skipped when nothing is
 * left, and otherwise read with Python's `int(text, 2)`; the values are
 * stored at consecutive addresses from 0. Opening the file and the
 * command-line checks are not modelled: the program arrives as its lines.
 */
module Loader {
  import opened Results

  const Capacity := 256

  /** `line.split('#')[0]`: everything before the first `#`. */
  function BeforeComment(line: string): (code: string)
    ensures code <= line && '#' !in code
    ensures |code| < |line| ==> line[|code|] == '#'
  {
    if line == [] || line[0] == '#' then []
    else [line[0]] + BeforeComment(line[1..])
  }

  /** The characters Python's `str.strip()` removes (those for which `isspace()` holds). */
  predicate IsSpace(c: char) {
    ('\t' <= c <= '\r') || ('\U{1C}' <= c <= ' ') || c == '\U{85}' || c == '\U{A0}' ||
    c == '\U{1680}' || ('\U{2000}' <= c <= '\U{200A}') || c == '\U{2028}' || c == '\U{2029}' ||
    c == '\U{202F}' || c == '\U{205F}' || c == '\U{3000}'
  }

  /** `s.lstrip()`. */
  function StripStart(s: string): string {
    if s != [] && IsSpace(s[0]) then StripStart(s[1..]) else s
  }

  /** `s.rstrip()`. */
  function StripEnd(s: string): string {
    if s != [] && IsSpace(s[|s| - 1]) then StripEnd(s[..|s| - 1]) else s
  }

  /**
   * `lstrip` removes a leading run of whitespace and nothing else: what is left
   * is a suffix that does not start with whitespace.
   */
  lemma {:induction false} StripStartRemovesLeadingSpace(s: string)
    ensures var r := StripStart(s);
      |r| <= |s| && r == s[|s| - |r|..] && (r != [] ==> !IsSpace(r[0])) &&
      forall i :: 0 <= i < |s| - |r| ==> IsSpace(s[i])
  {
    if s != [] && IsSpace(s[0]) {
      var t := s[1..];
      var r := StripStart(t);
      StripStartRemovesLeadingSpace(t);
      assert t[|t| - |r|..] == s[|s| - |r|..];
      forall i | 0 <= i < |s| - |r|
        ensures IsSpace(s[i])
      {
        if i > 0 {
          assert s[i] == t[i - 1];
        }
      }
    }
  }

  /**
   * `rstrip` removes a trailing run of whitespace and nothing else: what is
   * left is a prefix that does not end with whitespace.
   */
  lemma {:induction false} StripEndRemovesTrailingSpace(s: string)
    ensures var r := StripEnd(s);
      r <= s && (r != [] ==> !IsSpace(r[|r| - 1])) &&
      forall i :: |r| <= i < |s| ==> IsSpace(s[i])
  {
    if s != [] && IsSpace(s[|s| - 1]) {
      var t := s[..|s| - 1];
      var r := StripEnd(t);
      StripEndRemovesTrailingSpace(t);
      forall i | |r| <= i < |s|
        ensures IsSpace(s[i])
      {
        if i < |t| {
          assert s[i] == t[i];
        }
      }
    }
  }

  function Strip(s: string): string {
    StripEnd(StripStart(s))
  }

  predicate IsBit(c: char) {
    c == '0' || c == '1'
  }

  function BitValue(c: char): nat
    requires IsBit(c)
  {
    if c == '1' then 1 else 0
  }

  /**
   * The value of a run of binary digits in which single underscores may
   * separate digits (`1_0`), as `int` accepts them; None for anything else.
   */
  function Digits(s: string): (r: Option<nat>)
    ensures r.Some? ==> s != [] && IsBit(s[0]) && IsBit(s[|s| - 1])
    decreases |s|
  {
    if s == [] || !IsBit(s[|s| - 1]) then None
    else if |s| == 1 then Some(BitValue(s[0]))
    else
      var init := s[..|s| - 1];
      var body := if init[|init| - 1] == '_' then init[..|init| - 1] else init;
      match Digits(body)
      case None => None
      case Some(v) => Some(2 * v + BitValue(s[|s| - 1]))
  }

  /** The digits after an optional `0b`/`0B` prefix (which may be followed by one underscore). */
  function Magnitude(s: string): Option<nat> {
    if |s| >= 2 && s[0] == '0' && (s[1] == 'b' || s[1] == 'B') then
      var rest := s[2..];
      if rest != [] && rest[0] == '_' then Digits(rest[1..]) else Digits(rest)
    else Digits(s)
  }

  /** `int(s, 2)` on already stripped text: optional sign, then the magnitude. */
  function ParseBase2(s: string): Option<int> {
    if s != [] && (s[0] == '+' || s[0] == '-') then
      match Magnitude(s[1..])
      case None => None
      case Some(v) => Some(if s[0] == '-' then -(v as int) else v)
    else
      match Magnitude(s)
      case None => None
      case Some(v) => Some(v)
  }

  /** What one line of a program contributes. */
  datatype Line = Blank | Value(value: int) | Invalid(text: string)

  function ParseLine(line: string): Line {
    var num := Strip(BeforeComment(line));
    if num == [] then Blank
    else match ParseBase2(num)
      case Some(v) => Value(v)
      case None => Invalid(num)
  }

  /** Each line of a program, parsed. */
  function ParseLines(lines: seq<string>): (ls: seq<Line>)
    ensures |ls| == |lines|
    decreases |lines|
  {
    if lines == [] then []
    else ParseLines(lines[..|lines| - 1]) + [ParseLine(lines[|lines| - 1])]
  }

  /** Why a load stops: `int` raised ValueError, or `ram_write` raised IndexError. */
  datatype LoadError = NotBinary(line: nat, text: string) | AddressOutOfRange(address: int)

  /** The values stored by a load, and the error that stopped it, if any. */
  datatype Scan = Scan(values: seq<int>, error: Option<LoadError>)

  /**
   * One iteration of the loop in `load`, for line number `index`: nothing
   * once an error has stopped the loop; otherwise a blank line is skipped,
   * a line that is not a numeral stops it with ValueError, and a value goes
   * to the next address, unless all 256 are taken (IndexError).
   */
  function Next(prev: Scan, index: nat, l: Line): Scan {
    if prev.error.Some? then prev
    else match l
      case Blank => prev
      case Invalid(text) => Scan(prev.values, Some(NotBinary(index, text)))
      case Value(v) =>
        if |prev.values| >= Capacity then Scan(prev.values, Some(AddressOutOfRange(|prev.values|)))
        else Scan(prev.values + [v], None)
  }

  /**
   * The loop of `load` over parsed lines: the values written to addresses
   * 0, 1, ... before the loop finished or stopped. At most 256 values are
   * ever stored.
   */
  function Place(ls: seq<Line>): (r: Scan)
    ensures |r.values| <= Capacity
    decreases |ls|
  {
    if ls == [] then Scan([], None)
    else Next(Place(ls[..|ls| - 1]), |ls| - 1, ls[|ls| - 1])
  }

  /** Loading a program given as its lines. */
  function Load(lines: seq<string>): Scan {
    Place(ParseLines(lines))
  }

  /** Line `i` of the parsed program is line `i` of the text, parsed. */
  lemma {:induction false} ParsedLine(lines: seq<string>, i: nat)
    requires i < |lines|
    ensures ParseLines(lines)[i] == ParseLine(lines[i])
    decreases |lines|
  {
    if i < |lines| - 1 {
      var init := lines[..|lines| - 1];
      assert init[i] == lines[i];
      ParsedLine(init, i);
    }
  }

  /** Once the loop has stopped, the remaining lines change nothing. */
  lemma {:induction false} PlaceStopped(ls: seq<Line>, k: nat)
    requires k <= |ls| && Place(ls[..k]).error.Some?
    ensures Place(ls) == Place(ls[..k])
    decreases |ls| - k
  {
    if k == |ls| {
      assert ls[..k] == ls;
    } else {
      assert ls[..k + 1][..k] == ls[..k];
      PlaceStopped(ls, k + 1);
    }
  }

  /**
   * One iteration of the loop of `load` on line `i`, with `values` stored so
   * far: what is stored after it, or, when it raises, how the whole load ends.
   */
  lemma PlaceStep(ls: seq<Line>, i: nat, values: seq<int>)
    requires i < |ls| && Place(ls[..i]) == Scan(values, None)
    ensures match ls[i]
      case Blank => Place(ls[..i + 1]) == Scan(values, None)
      case Invalid(text) => Place(ls) == Scan(values, Some(NotBinary(i, text)))
      case Value(v) =>
        if |values| < Capacity then Place(ls[..i + 1]) == Scan(values + [v], None)
        else Place(ls) == Scan(values, Some(AddressOutOfRange(|values|)))
  {
    assert ls[..i + 1][..i] == ls[..i];
    if Place(ls[..i + 1]).error.Some? {
      PlaceStopped(ls, i + 1);
    }
  }

  /** The value a line contributes, if any. */
  function LineValue(l: Line): seq<int> {
    if l.Value? then [l.value] else []
  }

  /** Reference reading of a program: the value of every line that has one, in file order. */
  function Values(ls: seq<Line>): seq<int> {
    if ls == [] then [] else LineValue(ls[0]) + Values(ls[1..])
  }

  /** What storing `vs` from address 0 leaves: all of them, or the first 256 and an IndexError. */
  function Stored(vs: seq<int>): Scan {
    if |vs| <= Capacity then Scan(vs, None)
    else Scan(vs[..Capacity], Some(AddressOutOfRange(Capacity)))
  }

  predicate NoInvalidLine(ls: seq<Line>) {
    forall i :: 0 <= i < |ls| ==> !ls[i].Invalid?
  }

  /** The binary numeral of `n`, most significant digit first. */
  function Binary(n: nat): (s: string)
    ensures s != [] && forall i :: 0 <= i < |s| ==> IsBit(s[i])
  {
    if n < 2 then [if n == 1 then '1' else '0']
    else Binary(n / 2) + [if n % 2 == 1 then '1' else '0']
  }

  /** Text with no `#` is kept whole, and a `#` after it cuts everything that follows. */
  lemma {:induction false} BeforeCommentOf(code: string, rest: string)
    requires '#' !in code
    ensures BeforeComment(code) == code
    ensures BeforeComment(code + "#" + rest) == code
  {
    if code != [] {
      assert (code + "#" + rest)[1..] == code[1..] + "#" + rest;
      BeforeCommentOf(code[1..], rest);
    }
  }

  /** A line is what precedes its first `#`: the comment never affects the parse. */
  lemma CommentIgnored(code: string, comment: string)
    requires '#' !in code
    ensures ParseLine(code + "#" + comment) == ParseLine(code)
  {
    BeforeCommentOf(code, comment);
  }

  /** Reading back a numeral gives the number: `int(bin(n)[2:], 2) == n`. */
  lemma {:induction false} DigitsOfBinary(n: nat)
    ensures Digits(Binary(n)) == Some(n)
  {
    if n >= 2 {
      var s := Binary(n);
      var init := Binary(n / 2);
      assert s[..|s| - 1] == init;
      DigitsOfBinary(n / 2);
    }
  }

  /** A numeral with an optional `0b` prefix reads back as the value of its digits. */
  lemma MagnitudeOfDigits(b: string, n: nat, prefixed: bool)
    requires Digits(b) == Some(n) && forall i :: 0 <= i < |b| ==> IsBit(b[i])
    ensures Magnitude((if prefixed then "0b" else "") + b) == Some(n)
  {
    if prefixed {
      var digits := "0b" + b;
      assert digits[0] == '0' && digits[1] == 'b' && digits[2..] == b;
    } else {
      assert "" + b == b;
      if |b| >= 2 {
        assert IsBit(b[1]);
      }
    }
  }

  /** A magnitude with an optional `-` in front parses to its value, negated after the sign. */
  lemma Signed(m: string, n: nat, negative: bool)
    requires m != [] && (m[0] == '0' || m[0] == '1') && Magnitude(m) == Some(n)
    ensures ParseBase2((if negative then "-" else "") + m) == Some(if negative then -(n as int) else n)
  {
    if negative {
      var signed := "-" + m;
      assert signed[0] == '-' && signed[1..] == m;
    } else {
      assert "" + m == m;
    }
  }

  /** Binary digits with an optional sign and `0b` prefix parse to their value. */
  lemma ParseDigits(b: string, n: nat, negative: bool, prefixed: bool)
    requires Digits(b) == Some(n) && forall i :: 0 <= i < |b| ==> IsBit(b[i])
    ensures var digits := (if prefixed then "0b" else "") + b;
      ParseBase2((if negative then "-" else "") + digits) == Some(if negative then -(n as int) else n)
  {
    var digits := (if prefixed then "0b" else "") + b;
    MagnitudeOfDigits(b, n, prefixed);
    assert digits[0] == '0' || digits[0] == '1' by {
      if !prefixed {
        assert digits == b;
      }
    }
    Signed(digits, n, negative);
  }

  /** A numeral with an optional sign and `0b` prefix parses to its value. */
  lemma ParseBinary(n: nat, negative: bool, prefixed: bool)
    ensures var digits := (if prefixed then "0b" else "") + Binary(n);
      ParseBase2((if negative then "-" else "") + digits) == Some(if negative then -(n as int) else n)
  {
    DigitsOfBinary(n);
    ParseDigits(Binary(n), n, negative, prefixed);
  }

  /** `rstrip` removes trailing whitespace after text that ends in something else. */
  lemma {:induction false} StripEndPadding(b: string, pad: string)
    requires b != [] && !IsSpace(b[|b| - 1]) && forall i :: 0 <= i < |pad| ==> IsSpace(pad[i])
    ensures StripEnd(b + pad) == b
    decreases |pad|
  {
    if pad == [] {
      assert b + pad == b;
    } else {
      var init := pad[..|pad| - 1];
      assert (b + pad)[..|b + pad| - 1] == b + init;
      StripEndPadding(b, init);
    }
  }

  /** `k` zero digits, the padding of a fixed-width numeral such as `00001000`. */
  function Zeros(k: nat): (z: string)
    ensures |z| == k && forall i :: 0 <= i < k ==> z[i] == '0'
  {
    if k == 0 then [] else Zeros(k - 1) + ['0']
  }

  /** A run of zero digits reads as 0. */
  lemma {:induction false} DigitsZeros(k: nat)
    requires k > 0
    ensures Digits(Zeros(k)) == Some(0)
  {
    if k > 1 {
      assert Zeros(k)[..k - 1] == Zeros(k - 1);
      DigitsZeros(k - 1);
    }
  }

  /** The value of digits read so far, extended by one more binary digit. */
  function Shift(o: Option<nat>, c: char): Option<nat>
    requires IsBit(c)
  {
    match o
    case None => None
    case Some(v) => Some(2 * v + BitValue(c))
  }

  /** A binary digit after a digit doubles the value read so far and adds the new digit. */
  lemma DigitsLast(s: string)
    requires |s| > 1 && IsBit(s[|s| - 1]) && IsBit(s[|s| - 2])
    ensures var init := s[..|s| - 1];
      Digits(s) == if Digits(init).Some? then Some(2 * Digits(init).value + BitValue(s[|s| - 1])) else None
  {
  }

  /** `DigitsLast`, with the step named. */
  lemma DigitsShift(s: string)
    requires |s| > 1 && IsBit(s[|s| - 1]) && IsBit(s[|s| - 2])
    ensures Digits(s) == Shift(Digits(s[..|s| - 1]), s[|s| - 1])
  {
    DigitsLast(s);
  }

  /** Two digit strings that end in the same digit and agree before it agree. */
  lemma SameLastDigit(s: string, b: string)
    requires |s| > 1 && IsBit(s[|s| - 1]) && IsBit(s[|s| - 2])
    requires |b| > 1 && IsBit(b[|b| - 1]) && IsBit(b[|b| - 2])
    requires s[|s| - 1] == b[|b| - 1] && Digits(s[..|s| - 1]) == Digits(b[..|b| - 1])
    ensures Digits(s) == Digits(b)
  {
    DigitsShift(s);
    DigitsShift(b);
  }

  /** A single digit after zeros reads as that digit alone. */
  lemma ZerosThenDigit(k: nat, c: char)
    requires k > 0 && IsBit(c)
    ensures Digits(Zeros(k) + [c]) == Digits([c])
  {
    var s := Zeros(k) + [c];
    assert s[..|s| - 1] == Zeros(k);
    DigitsZeros(k);
    DigitsLast(s);
  }

  /** Leading zeros do not change the value of binary digits. */
  lemma {:induction false} LeadingZeros(k: nat, b: string)
    requires b != [] && forall i :: 0 <= i < |b| ==> IsBit(b[i])
    ensures Digits(Zeros(k) + b) == Digits(b)
    decreases |b|
  {
    if k == 0 {
      assert Zeros(k) + b == b;
    } else if |b| == 1 {
      assert b == [b[0]];
      ZerosThenDigit(k, b[0]);
    } else {
      var s, init := Zeros(k) + b, b[..|b| - 1];
      assert s[..|s| - 1] == Zeros(k) + init;
      LeadingZeros(k, init);
      SameLastDigit(s, b);
    }
  }

  /** `strip` of binary digits followed by whitespace gives the digits back. */
  lemma StripPadded(b: string, pad: string)
    requires b != [] && forall i :: 0 <= i < |b| ==> IsBit(b[i])
    requires forall i :: 0 <= i < |pad| ==> IsSpace(pad[i])
    ensures Strip(b + pad) == b && '#' !in b + pad
  {
    var code := b + pad;
    forall i | 0 <= i < |code|
      ensures code[i] != '#'
    {
      if i >= |b| {
        assert code[i] == pad[i - |b|];
      } else {
        assert code[i] == b[i];
      }
    }
    assert code[0] == b[0];
    assert StripStart(code) == code;
    StripEndPadding(b, pad);
  }

  /** Binary digits, then whitespace, then optionally a comment: the line reads as the digits' value. */
  lemma DigitsLine(b: string, n: nat, pad: string, comment: string)
    requires Digits(b) == Some(n) && forall i :: 0 <= i < |b| ==> IsBit(b[i])
    requires forall i :: 0 <= i < |pad| ==> IsSpace(pad[i])
    ensures ParseLine(b + pad) == Value(n)
    ensures ParseLine(b + pad + "#" + comment) == Value(n)
  {
    StripPadded(b, pad);
    BeforeCommentOf(b + pad, comment);
    UnsignedDigits(b, n);
    LineReads(b + pad, b, n);
    LineReads(b + pad + "#" + comment, b, n);
  }

  /** Binary digits with neither sign nor prefix parse to their value. */
  lemma UnsignedDigits(b: string, n: nat)
    requires Digits(b) == Some(n) && forall i :: 0 <= i < |b| ==> IsBit(b[i])
    ensures ParseBase2(b) == Some(n)
  {
    ParseDigits(b, n, false, false);
    assert "" + ("" + b) == b;
  }

  /** A line whose stripped code is a numeral reads as the numeral's value. */
  lemma LineReads(line: string, num: string, v: int)
    requires Strip(BeforeComment(line)) == num && num != [] && ParseBase2(num) == Some(v)
    ensures ParseLine(line) == Value(v)
  {
  }

  /** The numeral of `n` padded with `k` leading zeros is binary digits worth `n`. */
  lemma PaddedNumeral(k: nat, n: nat)
    ensures var b := Zeros(k) + Binary(n);
      Digits(b) == Some(n) && forall i :: 0 <= i < |b| ==> IsBit(b[i])
  {
    var b := Zeros(k) + Binary(n);
    forall i | 0 <= i < |b|
      ensures IsBit(b[i])
    {
      if i >= k {
        assert b[i] == Binary(n)[i - k];
      }
    }
    DigitsOfBinary(n);
    LeadingZeros(k, Binary(n));
  }

  /**
   * A line of a program file as written: a binary numeral, possibly padded
   * with leading zeros to a fixed width (`00001000`), then optional
   * whitespace (the newline among it), and optionally a `#` comment; it loads
   * as the numeral's value.
   */
  lemma NumeralLine(k: nat, n: nat, pad: string, comment: string)
    requires forall i :: 0 <= i < |pad| ==> IsSpace(pad[i])
    ensures ParseLine(Zeros(k) + Binary(n) + pad) == Value(n)
    ensures ParseLine(Zeros(k) + Binary(n) + pad + "#" + comment) == Value(n)
  {
    PaddedNumeral(k, n);
    DigitsLine(Zeros(k) + Binary(n), n, pad, comment);
  }

  /** Values of a program with one more line at the end. */
  lemma {:induction false} ValuesSnoc(ls: seq<Line>, l: Line)
    ensures Values(ls + [l]) == Values(ls) + LineValue(l)
    decreases |ls|
  {
    if ls != [] {
      assert (ls + [l])[1..] == ls[1..] + [l];
      ValuesSnoc(ls[1..], l);
    } else {
      assert Values([l]) == LineValue(l) + Values([]);
    }
  }

  /**
   * When every line is blank, a comment, or a binary numeral, the load stores
   * the program's values in order from address 0; it fails exactly when there
   * are more than 256 of them, with an IndexError at address 256, having
   * stored the first 256.
   */
  lemma {:induction false} PlaceStoresValues(ls: seq<Line>)
    requires NoInvalidLine(ls)
    ensures Place(ls) == Stored(Values(ls))
    decreases |ls|
  {
    if ls != [] {
      var init, last := ls[..|ls| - 1], ls[|ls| - 1];
      assert ls == init + [last];
      PlaceStoresValues(init);
      ValuesSnoc(init, last);
      var vs := Values(init);
      if last.Value? && |vs| >= Capacity {
        assert (vs + [last.value])[..Capacity] == vs[..Capacity];
      }
      if last.Blank? {
        assert vs + [] == vs;
      }
    }
  }

  /** A load stops at the first line that is not a binary numeral, unless RAM filled up first. */
  lemma FirstInvalidLineStops(ls: seq<Line>, k: nat)
    requires k < |ls| && NoInvalidLine(ls[..k]) && ls[k].Invalid?
    requires |Values(ls[..k])| <= Capacity
    ensures Place(ls[..k + 1]).error == Some(NotBinary(k, ls[k].text))
  {
    PlaceStoresValues(ls[..k]);
    assert ls[..k + 1][..k] == ls[..k];
  }
}
