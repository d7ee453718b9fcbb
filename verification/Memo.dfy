/**
 How a payment comment becomes a memo: trimmed, read as an integer by the rules of
 section 7.1.14 of ECMA-262 (StringToBigInt), and accepted only when positive.
 */
module Memo {
  import opened Base

  /** WhiteSpace and LineTerminator, sections 12.2 and 12.3 of ECMA-262. */
  predicate IsSpace(c: char) {
    || '\t' <= c <= '\r' || c == ' ' || c == '\U{00A0}' || c == '\U{1680}'
    || '\U{2000}' <= c <= '\U{200A}' || c == '\U{2028}' || c == '\U{2029}'
    || c == '\U{202F}' || c == '\U{205F}' || c == '\U{3000}' || c == '\U{FEFF}'
  }

  /** The same, one by one: the white space and line terminators by name, then the space separators of Unicode. */
  const SPACES: seq<char> :=
    ['\U{0009}', '\U{000A}', '\U{000B}', '\U{000C}', '\U{000D}', '\U{2028}', '\U{2029}', '\U{FEFF}']
    + ['\U{0020}', '\U{00A0}', '\U{1680}', '\U{202F}', '\U{205F}', '\U{3000}']
    + ['\U{2000}', '\U{2001}', '\U{2002}', '\U{2003}', '\U{2004}', '\U{2005}', '\U{2006}', '\U{2007}', '\U{2008}',
       '\U{2009}', '\U{200A}']

  lemma SpaceTable(c: char)
    ensures IsSpace(c) <==> c in SPACES
  {
    if '\t' <= c <= '\r' {
      assert c == SPACES[c as int - 9];
    }
    if '\U{2000}' <= c <= '\U{200A}' {
      assert c == SPACES[14 + (c as int - 0x2000)];
    }
    assert SPACES[5] == '\U{2028}' && SPACES[6] == '\U{2029}' && SPACES[7] == '\U{FEFF}';
    assert SPACES[8] == ' ' && SPACES[9] == '\U{00A0}' && SPACES[10] == '\U{1680}';
    assert SPACES[11] == '\U{202F}' && SPACES[12] == '\U{205F}' && SPACES[13] == '\U{3000}';
  }

  predicate AllSpace(s: string) {
    forall i :: 0 <= i < |s| ==> IsSpace(s[i])
  }

  function TrimLeft(s: string): string {
    if s != "" && IsSpace(s[0]) then TrimLeft(s[1..]) else s
  }

  function TrimRight(s: string): string {
    if s != "" && IsSpace(s[|s| - 1]) then TrimRight(s[..|s| - 1]) else s
  }

  function Trim(s: string): string {
    TrimRight(TrimLeft(s))
  }

  /** The value of a digit in bases up to 16; 16 for a character that is no digit. */
  function DigitValue(c: char): (d: nat)
    ensures d <= 16
  {
    if '0' <= c <= '9' then c as int - '0' as int
    else if 'a' <= c <= 'f' then c as int - 'a' as int + 10
    else if 'A' <= c <= 'F' then c as int - 'A' as int + 10
    else 16
  }

  /** A non-empty run of digits of the base, most significant first. */
  function Digits(s: string, base: nat): Option<nat> {
    if s == "" then None
    else
      var d := DigitValue(s[|s| - 1]);
      if d >= base then None
      else if |s| == 1 then Some(d)
      else match Digits(s[..|s| - 1], base)
        case None => None
        case Some(high) => Some(high * base + d)
  }

  /** StringToBigInt on an already trimmed string: the empty string is 0, only decimals take a sign. */
  function BigInt(s: string): Option<int> {
    if s == "" then Some(0)
    else if |s| > 2 && s[0] == '0' && s[1] in {'x', 'X'} then Digits(s[2..], 16)
    else if |s| > 2 && s[0] == '0' && s[1] in {'o', 'O'} then Digits(s[2..], 8)
    else if |s| > 2 && s[0] == '0' && s[1] in {'b', 'B'} then Digits(s[2..], 2)
    else if s[0] == '+' then Digits(s[1..], 10)
    else if s[0] == '-' then
      match Digits(s[1..], 10)
      case None => None
      case Some(n) => var negative: int := 0 - n; Some(negative)
    else Digits(s, 10)
  }

  /** `validateComment`: None is the thrown validation error. */
  function Validate(comment: string): (r: Option<nat>)
    ensures r.Some? ==> r.value > 0
  {
    match BigInt(Trim(comment))
    case Some(n) => if n > 0 then Some(n) else None
    case None => None
  }

  const DIGITS: string := "0123456789abcdef"
  const CAPITALS: string := "0123456789ABCDEF"

  /** The digits up to f, in either case, count from 0; nothing else is a digit. */
  lemma DigitTable(c: char, d: nat)
    requires d < 16
    ensures DigitValue(c) == d <==> c == DIGITS[d] || c == CAPITALS[d]
  {
    assert DIGITS[d] as int == if d < 10 then 48 + d else 87 + d;
    assert CAPITALS[d] as int == if d < 10 then 48 + d else 55 + d;
  }

  function DigitChar(d: nat): char
    requires d < 10
  {
    ('0' as int + d) as char
  }

  /** `toString` of a non-negative integer. */
  function Print(m: nat): (s: string)
    ensures s != ""
    ensures forall i :: 0 <= i < |s| ==> '0' <= s[i] <= '9'
  {
    if m < 10 then [DigitChar(m)] else Print(m / 10) + [DigitChar(m % 10)]
  }

  function Zeros(k: nat): string {
    seq(k, _ => '0')
  }

  // ---------------------------------------------------------------- trimming

  lemma {:induction false} TrimLeftSpaces(left: string, core: string)
    requires AllSpace(left) && core != "" && !IsSpace(core[0])
    ensures TrimLeft(left + core) == core
  {
    if left == "" {
      assert left + core == core;
    } else {
      assert (left + core)[1..] == left[1..] + core;
      TrimLeftSpaces(left[1..], core);
    }
  }

  lemma {:induction false} TrimRightSpaces(core: string, right: string)
    requires AllSpace(right) && core != "" && !IsSpace(core[|core| - 1])
    ensures TrimRight(core + right) == core
  {
    if right == "" {
      assert core + right == core;
    } else {
      assert (core + right)[..|core + right| - 1] == core + right[..|right| - 1];
      TrimRightSpaces(core, right[..|right| - 1]);
    }
  }

  lemma TrimSurrounded(left: string, core: string, right: string)
    requires AllSpace(left) && AllSpace(right)
    requires core != "" && !IsSpace(core[0]) && !IsSpace(core[|core| - 1])
    ensures Trim(left + core + right) == core
  {
    assert left + core + right == left + (core + right);
    TrimLeftSpaces(left, core + right);
    TrimRightSpaces(core, right);
  }

  // ---------------------------------------------------------------- print and parse

  lemma {:induction false} DigitsOfZeros(k: nat)
    requires k > 0
    ensures Digits(Zeros(k), 10) == Some(0)
  {
    if k > 1 {
      assert Zeros(k)[..k - 1] == Zeros(k - 1);
      DigitsOfZeros(k - 1);
    }
  }

  lemma {:induction false} DigitsOfPrint(k: nat, m: nat)
    ensures Digits(Zeros(k) + Print(m), 10) == Some(m)
    decreases m
  {
    var s := Zeros(k) + Print(m);
    if m < 10 {
      assert s[..|s| - 1] == Zeros(k);
      if k > 0 {
        DigitsOfZeros(k);
      }
    } else {
      assert s[..|s| - 1] == Zeros(k) + Print(m / 10);
      DigitsOfPrint(k, m / 10);
    }
  }

  lemma PlainDigits(s: string)
    requires s != "" && forall i :: 0 <= i < |s| ==> '0' <= s[i] <= '9'
    ensures BigInt(s) == Digits(s, 10)
    ensures !IsSpace(s[0]) && !IsSpace(s[|s| - 1])
  {
  }

  /** A memo survives surrounding white space and leading zeros. */
  lemma MemoRoundTrip(m: nat, left: string, k: nat, right: string)
    requires m > 0 && AllSpace(left) && AllSpace(right)
    ensures Validate(left + (Zeros(k) + Print(m)) + right) == Some(m)
  {
    var core := Zeros(k) + Print(m);
    PlainDigits(core);
    TrimSurrounded(left, core, right);
    DigitsOfPrint(k, m);
  }

  lemma {:induction false} DigitsInverse(s: string, m: nat)
    requires forall i :: 0 <= i < |s| ==> '0' <= s[i] <= '9'
    requires Digits(s, 10) == Some(m)
    ensures |Print(m)| <= |s| && s == Zeros(|s| - |Print(m)|) + Print(m)
  {
    var n := |s| - 1;
    assert DigitChar(DigitValue(s[n])) == s[n];
    if n > 0 {
      var init := s[..n];
      var high := Digits(init, 10).value;
      DigitsInverse(init, high);
      assert s == init + [s[n]] && m == high * 10 + DigitValue(s[n]);
      AppendDigit(s, init, high, s[n], m);
    } else {
      assert s == [s[0]] && Print(m) == s;
      assert Zeros(0) + s == s;
    }
  }

  lemma AppendDigit(s: string, init: string, high: nat, c: char, m: nat)
    requires s == init + [c] && init != "" && |Print(high)| <= |init| && init == Zeros(|init| - |Print(high)|) + Print(high)
    requires '0' <= c <= '9' && m == high * 10 + DigitValue(c)
    ensures |Print(m)| <= |s| && s == Zeros(|s| - |Print(m)|) + Print(m)
  {
    assert DigitChar(DigitValue(c)) == c;
    if high > 0 {
      assert m / 10 == high && m % 10 == DigitValue(c);
      assert Print(m) == Print(high) + [c];
    } else {
      assert Print(high) == "0" && Print(m) == [c];
      assert init == Zeros(|init|);
    }
  }

  /**
   Among comments that are plain digits once trimmed, the accepted ones are exactly the
   decimal forms of positive integers with leading zeros, and the memo is that integer.
   */
  lemma AcceptedDigits(comment: string, m: nat)
    requires Trim(comment) != ""
    requires forall i :: 0 <= i < |Trim(comment)| ==> '0' <= Trim(comment)[i] <= '9'
    ensures Validate(comment) == Some(m) <==>
            m > 0 && exists k: nat :: Trim(comment) == Zeros(k) + Print(m)
  {
    var core := Trim(comment);
    PlainDigits(core);
    if Validate(comment) == Some(m) {
      DigitsInverse(core, m);
    }
    if k: nat :| m > 0 && core == Zeros(k) + Print(m) {
      DigitsOfPrint(k, m);
    }
  }

  /** Two memos with the same decimal form are the same memo. */
  lemma PrintInjective(a: nat, b: nat)
    requires Print(a) == Print(b)
    ensures a == b
  {
    DigitsOfPrint(0, a);
    DigitsOfPrint(0, b);
  }

  /** Comments that look numeric but denote no positive integer, and ones that are not decimal at all. */
  lemma EdgeCases()
    ensures Validate(" ") == None && Validate("0") == None && Validate("-5") == None
    ensures Validate("+5") == Some(5) && Validate("0x1F") == Some(31)
    ensures Validate("1.5") == None && Validate("1 2") == None
  {
    assert Trim(" ") == "";
    assert Trim("0") == "0";
    assert Trim("-5") == "-5";
    assert Trim("+5") == "+5";
    assert Trim("0x1F") == "0x1F";
    assert Trim("1.5") == "1.5";
    assert Trim("1 2") == "1 2";
    assert Digits("1F", 16) == Some(31) by { assert "1F"[..1] == "1"; }
    assert "0x1F"[2..] == "1F";
    assert Digits("1.5", 10) == None by { assert "1.5"[..2] == "1."; }
    assert Digits("1 2", 10) == None by { assert "1 2"[..2] == "1 "; }
  }

  // ---------------------------------------------------------------- acceptance of any comment

  function Pow(base: nat, n: nat): nat {
    if n == 0 then 1 else base * Pow(base, n - 1)
  }

  /** The value of a numeral in positional notation: each digit times the power of its place. */
  function Positional(s: string, base: nat): nat {
    if s == "" then 0 else DigitValue(s[0]) * Pow(base, |s| - 1) + Positional(s[1..], base)
  }

  predicate AreDigits(s: string, base: nat) {
    s != "" && forall i :: 0 <= i < |s| ==> DigitValue(s[i]) < base
  }

  lemma OnePlaceUp(d: nat, p: nat, rest: nat, base: nat, c: nat)
    ensures d * (base * p) + (rest * base + c) == (d * p + rest) * base + c
  {
    assert d * (base * p) == (d * p) * base;
  }

  lemma {:induction false} PositionalLast(s: string, c: char, base: nat)
    ensures Positional(s + [c], base) == Positional(s, base) * base + DigitValue(c)
    decreases |s|
  {
    if s == "" {
      assert s + [c] == [c] && [c][1..] == "";
    } else {
      assert (s + [c])[1..] == s[1..] + [c];
      PositionalLast(s[1..], c, base);
      OnePlaceUp(DigitValue(s[0]), Pow(base, |s| - 1), Positional(s[1..], base), base, DigitValue(c));
    }
  }

  lemma AreDigitsLast(init: string, c: char, base: nat)
    ensures AreDigits(init + [c], base) <==> DigitValue(c) < base && (init == "" || AreDigits(init, base))
  {
    var s := init + [c];
    assert s[|init|] == c;
    forall i | 0 <= i < |init| ensures s[i] == init[i] {
    }
  }

  /** The digit loop reads exactly the numerals of the base, at their positional value. */
  lemma {:induction false} DigitsPositional(s: string, base: nat)
    ensures Digits(s, base) == if AreDigits(s, base) then Some(Positional(s, base)) else None
    decreases |s|
  {
    if s != "" {
      var init, c := s[..|s| - 1], s[|s| - 1];
      assert s == init + [c];
      PositionalLast(init, c, base);
      AreDigitsLast(init, c, base);
      if init != "" {
        DigitsPositional(init, base);
      }
    }
  }

  /** How digits of a base may be written: decimals plain or with a plus sign, the others with their prefix. */
  predicate Written(core: string, digits: string, base: nat) {
    || (base == 10 && (core == digits || core == "+" + digits))
    || (base == 16 && (core == "0x" + digits || core == "0X" + digits))
    || (base == 8 && (core == "0o" + digits || core == "0O" + digits))
    || (base == 2 && (core == "0b" + digits || core == "0B" + digits))
  }

  ghost predicate Spells(core: string, m: nat) {
    exists digits, base: nat :: Written(core, digits, base) && AreDigits(digits, base) && Positional(digits, base) == m
  }

  lemma ReadsOnlySpelled(core: string, m: nat)
    requires m > 0 && BigInt(core) == Some(m)
    ensures Spells(core, m)
  {
    var digits, base := core, 10;
    if |core| > 2 && core[0] == '0' && core[1] in {'x', 'X'} {
      digits, base := core[2..], 16;
    } else if |core| > 2 && core[0] == '0' && core[1] in {'o', 'O'} {
      digits, base := core[2..], 8;
    } else if |core| > 2 && core[0] == '0' && core[1] in {'b', 'B'} {
      digits, base := core[2..], 2;
    } else if core[0] == '+' {
      digits := core[1..];
    }
    assert Written(core, digits, base);
    DigitsPositional(digits, base);
  }

  lemma ReadsPlain(digits: string)
    requires AreDigits(digits, 10)
    ensures BigInt(digits) == Digits(digits, 10)
  {
    assert |digits| > 1 ==> DigitValue(digits[1]) < 10;
    assert DigitValue(digits[0]) < 10;
  }

  lemma ReadsPlus(core: string, digits: string)
    requires core == "+" + digits
    ensures BigInt(core) == Digits(digits, 10)
  {
    assert core[1..] == digits;
  }

  lemma ReadsPrefixed(core: string, letter: char, digits: string, base: nat)
    requires core == ['0', letter] + digits && digits != ""
    requires (letter in {'x', 'X'} && base == 16) || (letter in {'o', 'O'} && base == 8) || (letter in {'b', 'B'} && base == 2)
    ensures BigInt(core) == Digits(digits, base)
  {
    assert core[2..] == digits;
  }

  lemma ReadsSpelled(core: string, digits: string, base: nat)
    requires Written(core, digits, base) && AreDigits(digits, base)
    ensures BigInt(core) == Some(Positional(digits, base))
    ensures !IsSpace(core[0]) && !IsSpace(core[|core| - 1])
  {
    DigitsPositional(digits, base);
    SpelledEnds(core, digits, base);
    if base == 10 {
      if core == digits {
        ReadsPlain(digits);
      } else {
        ReadsPlus(core, digits);
      }
    } else {
      ReadsPrefixed(core, core[1], digits, base);
    }
  }

  lemma SpelledEnds(core: string, digits: string, base: nat)
    requires Written(core, digits, base) && AreDigits(digits, base)
    ensures !IsSpace(core[0]) && !IsSpace(core[|core| - 1])
  {
    assert DigitValue(digits[0]) < base && DigitValue(digits[|digits| - 1]) < base;
    assert core[|core| - 1] == digits[|digits| - 1];
  }

  lemma {:induction false} TrimLeftSplits(s: string) returns (left: string)
    ensures AllSpace(left) && s == left + TrimLeft(s) && (TrimLeft(s) != "" ==> !IsSpace(TrimLeft(s)[0]))
    decreases |s|
  {
    left := "";
    if s != "" && IsSpace(s[0]) {
      var rest := TrimLeftSplits(s[1..]);
      left := [s[0]] + rest;
    }
  }

  lemma {:induction false} TrimRightSplits(s: string) returns (right: string)
    ensures AllSpace(right) && s == TrimRight(s) + right
    decreases |s|
  {
    right := "";
    if s != "" && IsSpace(s[|s| - 1]) {
      var rest := TrimRightSplits(s[..|s| - 1]);
      right := rest + [s[|s| - 1]];
    }
  }

  ghost predicate Framed(comment: string, left: string, core: string, right: string) {
    AllSpace(left) && AllSpace(right) && comment == left + core + right
  }

  lemma TrimFrames(s: string) returns (left: string, right: string)
    ensures Framed(s, left, Trim(s), right)
  {
    left := TrimLeftSplits(s);
    right := TrimRightSplits(TrimLeft(s));
    assert left + (Trim(s) + right) == left + Trim(s) + right;
  }

  /**
   The comment denotes the positive integer m: within white space it is a numeral for m, decimal with or without a
   plus sign, or hexadecimal, octal or binary with its prefix.
   */
  ghost predicate Denotes(comment: string, m: nat) {
    m > 0 && exists left, core, right :: Framed(comment, left, core, right) && Spells(core, m)
  }

  /** Every comment is accepted as what it denotes, and not accepted if it denotes nothing. */
  lemma AcceptedIff(comment: string, m: nat)
    ensures Validate(comment) == Some(m) <==> Denotes(comment, m)
  {
    if Validate(comment) == Some(m) {
      var left, right := TrimFrames(comment);
      ReadsOnlySpelled(Trim(comment), m);
    }
    if left, core, right :| m > 0 && Framed(comment, left, core, right) && Spells(core, m) {
      var digits, base: nat :| Written(core, digits, base) && AreDigits(digits, base) && Positional(digits, base) == m;
      ReadsSpelled(core, digits, base);
      TrimSurrounded(left, core, right);
    }
  }

  lemma NoneAccepted(comment: string)
    ensures Validate(comment) == None <==> forall m: nat :: !Denotes(comment, m)
  {
    forall m: nat ensures Validate(comment) == Some(m) <==> Denotes(comment, m) {
      AcceptedIff(comment, m);
    }
    if Validate(comment).Some? {
      assert Denotes(comment, Validate(comment).value);
    }
  }
}
