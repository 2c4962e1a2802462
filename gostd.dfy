/** The few pieces of Go's standard library whose exact behaviour shows in the
    program's output: `fmt`'s `%d`, `strconv.Atoi`, `strings.Join`,
    `strings.Contains`, `strings.ToLower` and `filepath.Ext`. */
module GoStd {

  const MaxInt64: int := 0x7FFF_FFFF_FFFF_FFFF
  const MinInt64: int := -0x8000_0000_0000_0000
  const MaxUint64: int := 0xFFFF_FFFF_FFFF_FFFF

  predicate IsDigit(c: char) {
    '0' <= c <= '9'
  }

  function DigitChar(d: nat): (c: char)
    requires d < 10
    ensures IsDigit(c) && c as int - '0' as int == d
  {
    ('0' as int + d) as char
  }

  /** The decimal digits of `n`, without leading zeros: what `%d` prints for an
      unsigned value. */
  function Digits(n: nat): (s: string)
    ensures |s| >= 1
    ensures forall i :: 0 <= i < |s| ==> IsDigit(s[i])
    ensures s[0] == '0' ==> n == 0
    decreases n
  {
    if n < 10 then [DigitChar(n)] else Digits(n / 10) + [DigitChar(n % 10)]
  }

  lemma DigitsExamples()
    ensures Digits(2048) == "2048"
    ensures Digits(5432) == "5432"
  {
    assert Digits(2) == "2";
    assert 20 / 10 == 2 && 20 % 10 == 0 && DigitChar(0) == '0';
    assert Digits(20) == "20";
    assert 204 / 10 == 20 && 204 % 10 == 4 && DigitChar(4) == '4';
    assert Digits(204) == "204";
    assert 2048 / 10 == 204 && 2048 % 10 == 8 && DigitChar(8) == '8';
    assert Digits(5) == "5";
    assert 54 / 10 == 5 && 54 % 10 == 4 && DigitChar(4) == '4';
    assert Digits(54) == "54";
    assert 543 / 10 == 54 && 543 % 10 == 3 && DigitChar(3) == '3';
    assert Digits(543) == "543";
    assert 5432 / 10 == 543 && 5432 % 10 == 2 && DigitChar(2) == '2';
  }

  /** Distinct numbers print differently. */
  lemma {:induction false} DigitsInjective(a: nat, b: nat)
    requires Digits(a) == Digits(b)
    ensures a == b
    decreases a
  {
    if a >= 10 && b >= 10 {
      var s := Digits(a);
      assert s[|s| - 1] == DigitChar(a % 10) && s[|s| - 1] == DigitChar(b % 10);
      assert s[..|s| - 1] == Digits(a / 10) && s[..|s| - 1] == Digits(b / 10);
      DigitsInjective(a / 10, b / 10);
    } else if a < 10 && b < 10 {
      assert Digits(a)[0] == DigitChar(a) && Digits(b)[0] == DigitChar(b);
    }
  }

  /** `%d` for a signed integer: a minus sign, then the digits of the magnitude. */
  function FormatInt(i: int): (s: string)
    ensures |s| >= 1
    ensures s[0] == '-' <==> i < 0
  {
    if i < 0 then "-" + Digits(-i) else Digits(i)
  }

  /** Outcome of `strconv.ParseUint(s, 10, 64)` reading `s` left to right. */
  datatype Scan = Invalid | Overflow | Value(n: nat)

  /** The first non-digit yields Invalid, and the first digit that takes the value
      past MaxUint64 yields Overflow, whichever comes first; later characters are
      not looked at. */
  function ScanUint(s: string): Scan
    decreases |s|
  {
    if s == [] then Value(0)
    else
      match ScanUint(s[..|s| - 1])
      case Invalid => Invalid
      case Overflow => Overflow
      case Value(v) =>
        var c := s[|s| - 1];
        if !IsDigit(c) then Invalid
        else if v * 10 + (c as int - '0' as int) > MaxUint64 then Overflow
        else Value(v * 10 + (c as int - '0' as int))
  }

  /** `strconv.Atoi` on a 64-bit platform with its error ignored: an optional sign
      and decimal digits; a syntax error gives 0 and a value out of range is
      clamped to the nearest int64 bound. */
  function Atoi(s: string): (r: int)
    ensures MinInt64 <= r <= MaxInt64
  {
    var neg := |s| > 0 && s[0] == '-';
    var body := if |s| > 0 && (s[0] == '-' || s[0] == '+') then s[1..] else s;
    if body == [] then 0
    else
      match ScanUint(body)
      case Invalid => 0
      case Overflow => if neg then MinInt64 else MaxInt64
      case Value(u) =>
        var v: int := u;
        if neg then (if v > -MinInt64 then MinInt64 else -v)
        else (if v > MaxInt64 then MaxInt64 else v)
  }

  /** Scanning stops at a leading non-digit, whatever follows it. */
  lemma {:induction false} ScanLeadingNonDigit(s: string)
    requires s != [] && !IsDigit(s[0])
    ensures ScanUint(s) == Invalid
    decreases |s|
  {
    if |s| > 1 {
      ScanLeadingNonDigit(s[..|s| - 1]);
    } else {
      assert s[..|s| - 1] == [];
    }
  }

  /** A string whose first character after the optional sign is not a digit reads
      as 0. */
  lemma AtoiLeadingNonDigit(s: string)
    requires var body := if |s| > 0 && (s[0] == '-' || s[0] == '+') then s[1..] else s;
             body == [] || !IsDigit(body[0])
    ensures Atoi(s) == 0
  {
    var body := if |s| > 0 && (s[0] == '-' || s[0] == '+') then s[1..] else s;
    if body != [] {
      ScanLeadingNonDigit(body);
    }
  }

  /** Once the scan has failed, nothing appended changes that. */
  lemma {:induction false} ScanInvalidExtends(s: string, rest: string)
    requires ScanUint(s) == Invalid
    ensures ScanUint(s + rest) == Invalid
    decreases |rest|
  {
    if rest == [] {
      assert s + rest == s;
    } else {
      var t := s + rest;
      assert t[..|t| - 1] == s + rest[..|rest| - 1];
      ScanInvalidExtends(s, rest[..|rest| - 1]);
    }
  }

  /** Scanning stops with Invalid at the first non-digit reached before the value
      overflows, whatever follows it. */
  lemma ScanNonDigitAt(s: string, i: nat)
    requires i < |s| && !IsDigit(s[i]) && ScanUint(s[..i]).Value?
    ensures ScanUint(s) == Invalid
  {
    assert s[..i + 1][..i] == s[..i];
    assert ScanUint(s[..i + 1]) == Invalid;
    ScanInvalidExtends(s[..i + 1], s[i + 1..]);
    assert s[..i + 1] + s[i + 1..] == s;
  }

  /** A string with a non-digit after the optional sign reads as 0, provided the
      digits before it do not already overflow (an overflowing prefix clamps to an
      int64 bound instead). */
  lemma AtoiNonDigitAt(s: string, i: nat)
    requires var body := if |s| > 0 && (s[0] == '-' || s[0] == '+') then s[1..] else s;
             i < |body| && !IsDigit(body[i]) && ScanUint(body[..i]).Value?
    ensures Atoi(s) == 0
  {
    var body := if |s| > 0 && (s[0] == '-' || s[0] == '+') then s[1..] else s;
    ScanNonDigitAt(body, i);
  }

  /** "54x" reads as 0: Go's syntax error, not the 54 read so far. */
  lemma AtoiTrailingGarbage()
    ensures Atoi("54x") == 0
  {
    assert "54x"[..2] == "54" && "54"[..1] == "5" && "5"[..0] == [];
    AtoiNonDigitAt("54x", 2);
  }

  lemma {:induction false} ScanDigits(n: nat)
    requires n <= MaxUint64
    ensures ScanUint(Digits(n)) == Value(n)
    decreases n
  {
    var s := Digits(n);
    if n < 10 {
      assert s[..|s| - 1] == [];
    } else {
      assert s[..|s| - 1] == Digits(n / 10);
      ScanDigits(n / 10);
    }
  }

  /** What `%d` prints, `strconv.Atoi` reads back, for every int64. */
  lemma AtoiFormatInt(i: int)
    requires MinInt64 <= i <= MaxInt64
    ensures Atoi(FormatInt(i)) == i
  {
    var s := FormatInt(i);
    if i < 0 {
      assert s[0] == '-' && s[1..] == Digits(-i);
      ScanDigits(-i);
      assert ScanUint(s[1..]) == Value(-i);
    } else {
      assert s == Digits(i) && IsDigit(s[0]);
      ScanDigits(i);
    }
  }

  /** `strings.Join`: the parts with `sep` between consecutive ones. */
  function Join(parts: seq<string>, sep: string): (r: string)
    ensures parts == [] ==> r == ""
    ensures |parts| >= 1 ==> parts[0] <= r
    decreases |parts|
  {
    if |parts| == 0 then ""
    else if |parts| == 1 then parts[0]
    else parts[0] + sep + Join(parts[1..], sep)
  }

  /** The join of three parts. */
  lemma JoinThree(a: string, b: string, c: string, sep: string)
    ensures Join([a, b, c], sep) == a + sep + b + sep + c
  {
    var parts := [a, b, c];
    assert parts[1..] == [b, c] && parts[1..][1..] == [c];
    assert Join([b, c], sep) == b + sep + c;
  }

  /** `strings.Contains`: `sub` occurs in `s` at some position. */
  predicate Contains(s: string, sub: string)
    ensures Contains(s, sub) ==> |sub| <= |s|
    ensures sub <= s ==> Contains(s, sub)
  {
    assert s[0..] == s;
    exists i :: 0 <= i <= |s| && sub <= s[i..]
  }

  function LowerChar(c: char): char {
    if 'A' <= c <= 'Z' then (c as int + 32) as char else c
  }

  /** `strings.ToLower` on ASCII letters; every other character is kept. */
  function ToLower(s: string): (r: string)
    ensures |r| == |s|
    ensures forall i :: 0 <= i < |s| ==> r[i] == LowerChar(s[i])
  {
    seq(|s|, i requires 0 <= i < |s| => LowerChar(s[i]))
  }

  /** `filepath.Ext` with the Unix separator: the suffix of `path` that starts at the
      last '.' of its final element, or "" when that element has no '.'. */
  function Ext(path: string): (e: string)
    ensures |e| <= |path| && e == path[|path| - |e|..]
    ensures e != "" ==> e[0] == '.' && forall i :: 1 <= i < |e| ==> e[i] != '.' && e[i] != '/'
    ensures e == "" <==> forall i :: 0 <= i < |path| && (forall k :: i <= k < |path| ==> path[k] != '/') ==> path[i] != '.'
    decreases |path|
  {
    if path == [] || path[|path| - 1] == '/' then ""
    else if path[|path| - 1] == '.' then "."
    else
      var e := Ext(path[..|path| - 1]);
      if e == "" then "" else e + [path[|path| - 1]]
  }

  /** Lowering case twice is lowering it once. */
  lemma ToLowerIdempotent(s: string)
    ensures ToLower(ToLower(s)) == ToLower(s)
  {
  }

  /** Lowering case keeps the separators where they are. */
  lemma LowerCharSeparators(c: char)
    ensures LowerChar(c) == '.' <==> c == '.'
    ensures LowerChar(c) == '/' <==> c == '/'
  {
  }

  lemma ToLowerSnoc(s: string, c: char)
    ensures ToLower(s + [c]) == ToLower(s) + [LowerChar(c)]
  {
    assert ToLower(s + [c]) == ToLower(s) + [LowerChar(c)];
  }

  lemma ToLowerInit(s: string)
    requires s != []
    ensures ToLower(s)[..|s| - 1] == ToLower(s[..|s| - 1])
  {
  }

  /** Lowering case does not move the extension: the extension of the lowered path
      is the lowered extension, since lowering keeps '.' and '/' where they are. */
  lemma {:induction false} ExtToLower(path: string)
    ensures Ext(ToLower(path)) == ToLower(Ext(path))
    decreases |path|
  {
    if path != [] {
      var n := |path|;
      var q := ToLower(path);
      var c := path[n - 1];
      assert q != [] && q[|q| - 1] == LowerChar(c);
      LowerCharSeparators(c);
      if c == '/' {
        assert Ext(q) == "" && Ext(path) == "";
      } else if c == '.' {
        assert Ext(q) == "." && Ext(path) == ".";
        assert ToLower(".") == ".";
      } else {
        var e := Ext(path[..n - 1]);
        ToLowerInit(path);
        ExtToLower(path[..n - 1]);
        assert Ext(q[..|q| - 1]) == ToLower(e);
        if e == "" {
          assert Ext(q) == "" && Ext(path) == "";
        } else {
          assert Ext(q) == ToLower(e) + [LowerChar(c)];
          assert Ext(path) == e + [c];
          ToLowerSnoc(e, c);
        }
      }
    }
  }
}
