/** The string functions the driver relies on: printing and parsing of numbers, splitting,
    cutting at a separator, and trimming. Each printer comes with the lemma that the matching
    parser undoes it. */
module Text {
  import opened Options

  // ---- Numbers -------------------------------------------------------------------------------

  function DigitChar(d: nat): char
    requires d < 16
  {
    "0123456789abcdef"[d]
  }

  /** The value of a digit character; upper-case hexadecimal digits are accepted as well. */
  function DigitValue(c: char): Option<nat> {
    if '0' <= c <= '9' then Some((c - '0') as nat)
    else if 'a' <= c <= 'f' then Some((c - 'a') as nat + 10)
    else if 'A' <= c <= 'F' then Some((c - 'A') as nat + 10)
    else None
  }

  /** `n / base` and `n % base`, and their inverse, for the two bases in use. */
  function Quotient(n: nat, base: nat): (q: nat)
    requires base == 10 || base == 16
    ensures n >= base ==> q < n
  {
    if base == 10 then n / 10 else n / 16
  }

  function Remainder(n: nat, base: nat): (r: nat)
    requires base == 10 || base == 16
    ensures r < base
  {
    if base == 10 then n % 10 else n % 16
  }

  function Shifted(high: nat, base: nat, d: nat): nat
    requires base == 10 || base == 16
  {
    if base == 10 then 10 * high + d else 16 * high + d
  }

  /** The `%d` (base 10) and `%x` (base 16) forms of a natural number. */
  function PrintNat(n: nat, base: nat): (s: string)
    requires base == 10 || base == 16
    ensures s != ""
  {
    if n < base then [DigitChar(n)] else PrintNat(Quotient(n, base), base) + [DigitChar(Remainder(n, base))]
  }

  function ParseDigits(s: string, base: nat): Option<nat>
    requires base == 10 || base == 16
  {
    if s == "" then None
    else match DigitValue(s[|s| - 1])
      case None => None
      case Some(d) =>
        if d >= base then None
        else if |s| == 1 then Some(d)
        else match ParseDigits(s[..|s| - 1], base)
          case None => None
          case Some(high) => Some(Shifted(high, base, d))
  }

  /** `strconv.ParseUint(s, base, 64)` */
  function ParseUint(s: string, base: nat): Option<nat>
    requires base == 10 || base == 16
  {
    match ParseDigits(s, base)
    case Some(v) => if v < 0x1_0000_0000_0000_0000 then Some(v) else None
    case None => None
  }

  predicate IsInt64(n: int) {
    -0x8000_0000_0000_0000 <= n < 0x8000_0000_0000_0000
  }

  /** The `%d` form of an integer. */
  function PrintInt(n: int): (s: string)
    ensures s != ""
  {
    if n < 0 then "-" + PrintNat(-n, 10) else PrintNat(n, 10)
  }

  /** `strconv.Atoi`: an optional sign, then decimal digits, within 64 bits. */
  function Atoi(s: string): Option<int> {
    if s == "" then None
    else if s[0] == '-' then Ranged(ParseDigits(s[1..], 10), true)
    else if s[0] == '+' then Ranged(ParseDigits(s[1..], 10), false)
    else Ranged(ParseDigits(s, 10), false)
  }

  function Ranged(digits: Option<nat>, negative: bool): Option<int> {
    match digits
    case None => None
    case Some(v) =>
      var magnitude: int := v;
      var n := if negative then -magnitude else magnitude;
      if IsInt64(n) then Some(n) else None
  }

  predicate IsDigit(c: char, base: nat) {
    DigitValue(c).Some? && DigitValue(c).value < base
  }

  lemma {:induction false} DigitRoundTrip(d: nat)
    requires d < 16
    ensures DigitValue(DigitChar(d)) == Some(d)
  {
    assert DigitChar(d) == if d < 10 then '0' + d as char else 'a' + (d - 10) as char;
  }

  lemma {:induction false} PrintNatDigits(n: nat, base: nat)
    requires base == 10 || base == 16
    ensures forall c | c in PrintNat(n, base) :: IsDigit(c, base)
  {
    DigitRoundTrip(Remainder(n, base));
    if n < base { DigitRoundTrip(n); } else { PrintNatDigits(Quotient(n, base), base); }
  }

  lemma {:induction false} ParsePrintNat(n: nat, base: nat)
    requires base == 10 || base == 16
    ensures ParseDigits(PrintNat(n, base), base) == Some(n)
  {
    DigitRoundTrip(Remainder(n, base));
    if n < base {
      DigitRoundTrip(n);
    } else {
      var s := PrintNat(n, base);
      assert s[..|s| - 1] == PrintNat(Quotient(n, base), base);
      ParsePrintNat(Quotient(n, base), base);
    }
  }

  lemma {:induction false} FirstDigit(n: nat)
    ensures IsDigit(PrintNat(n, 10)[0], 10)
  {
    PrintNatDigits(n, 10);
    assert PrintNat(n, 10)[0] in PrintNat(n, 10);
  }

  /** Printing an integer and reading it back with `Atoi` gives the same integer. */
  lemma {:induction false} AtoiPrintInt(n: int)
    requires IsInt64(n)
    ensures Atoi(PrintInt(n)) == Some(n)
  {
    var m := if n < 0 then -n else n;
    ParsePrintNat(m, 10);
    if n >= 0 { FirstDigit(m); }
  }

  lemma {:induction false} PrintIntChars(n: int)
    ensures forall c | c in PrintInt(n) :: c == '-' || IsDigit(c, 10)
    ensures n >= 0 ==> forall c | c in PrintInt(n) :: IsDigit(c, 10)
  {
    PrintNatDigits(if n < 0 then -n else n, 10);
  }

  /** Distinct integers have distinct decimal forms, whatever their size. */
  lemma {:induction false} PrintNatInjective(a: nat, b: nat, base: nat)
    requires base == 10 || base == 16
    requires PrintNat(a, base) == PrintNat(b, base)
    ensures a == b
  {
    ParsePrintNat(a, base);
    ParsePrintNat(b, base);
  }

  lemma {:induction false} SignOf(n: int)
    ensures PrintInt(n)[0] == '-' <==> n < 0
    ensures n < 0 ==> PrintInt(n)[1..] == PrintNat(-n, 10)
  {
    if n >= 0 { FirstDigit(n); }
  }

  lemma {:induction false} PrintIntInjective(a: int, b: int)
    requires PrintInt(a) == PrintInt(b)
    ensures a == b
  {
    SignOf(a);
    SignOf(b);
    var m: nat, n: nat := if a < 0 then -a else a, if b < 0 then -b else b;
    assert PrintNat(m, 10) == PrintNat(n, 10);
    PrintNatInjective(m, n, 10);
  }

  // ---- Splitting -----------------------------------------------------------------------------

  /** `strings.Split(s, sep)` for a one-character separator. */
  function SplitOn(s: string, sep: char): (parts: seq<string>)
    ensures |parts| >= 1
  {
    if s == "" then [""]
    else
      var rest := SplitOn(s[1..], sep);
      if s[0] == sep then [""] + rest else [[s[0]] + rest[0]] + rest[1..]
  }

  /** Cutting at the first occurrence of `sep`, as `strings.SplitN(s, sep, 2)` and
      `strings.Index` do. */
  function Cut(s: string, sep: char): Option<(string, string)> {
    if s == "" then None
    else if s[0] == sep then Some(("", s[1..]))
    else match Cut(s[1..], sep)
      case None => None
      case Some((before, after)) => Some(([s[0]] + before, after))
  }

  lemma {:induction false} SplitOnWhole(s: string, sep: char)
    requires sep !in s
    ensures SplitOn(s, sep) == [s]
  {
    if s != "" {
      SplitOnWhole(s[1..], sep);
      assert s == [s[0]] + s[1..];
    }
  }

  lemma {:induction false} SplitOnFirst(a: string, sep: char, b: string)
    requires sep !in a
    ensures SplitOn(a + [sep] + b, sep) == [a] + SplitOn(b, sep)
  {
    var s := a + [sep] + b;
    if a == "" {
      assert s[1..] == b;
    } else {
      assert s[1..] == a[1..] + [sep] + b;
      SplitOnFirst(a[1..], sep, b);
      assert a == [a[0]] + a[1..];
    }
  }

  /** `strings.Join(parts, sep)` for a one-character separator. */
  function Join(parts: seq<string>, sep: char): string {
    if parts == [] then ""
    else if |parts| == 1 then parts[0]
    else parts[0] + [sep] + Join(parts[1..], sep)
  }

  /** Splitting undoes joining when no part contains the separator. */
  lemma {:induction false} SplitJoined(parts: seq<string>, sep: char)
    requires parts != [] && forall k | 0 <= k < |parts| :: sep !in parts[k]
    ensures SplitOn(Join(parts, sep), sep) == parts
  {
    if |parts| == 1 {
      SplitOnWhole(parts[0], sep);
    } else {
      SplitJoined(parts[1..], sep);
      SplitOnFirst(parts[0], sep, Join(parts[1..], sep));
    }
  }

  /** Joining undoes splitting, and no part contains the separator. */
  lemma {:induction false} JoinSplit(s: string, sep: char)
    ensures Join(SplitOn(s, sep), sep) == s
    ensures forall k | 0 <= k < |SplitOn(s, sep)| :: sep !in SplitOn(s, sep)[k]
  {
    if s != "" {
      var rest := SplitOn(s[1..], sep);
      JoinSplit(s[1..], sep);
      assert s == [s[0]] + s[1..];
      if s[0] == sep { JoinBlank(rest, sep); } else { JoinLonger(s[0], rest, sep); }
    }
  }

  lemma {:induction false} JoinBlank(rest: seq<string>, sep: char)
    requires rest != []
    ensures Join([""] + rest, sep) == [sep] + Join(rest, sep)
  {
    assert ([""] + rest)[1..] == rest;
  }

  lemma {:induction false} JoinLonger(c: char, rest: seq<string>, sep: char)
    requires rest != []
    ensures Join([[c] + rest[0]] + rest[1..], sep) == [c] + Join(rest, sep)
  {
    var longer := [[c] + rest[0]] + rest[1..];
    assert longer[1..] == rest[1..];
  }

  /** One more character at the end of the text. */
  lemma {:induction false} SplitOnSnoc(s: string, c: char, sep: char)
    ensures var parts := SplitOn(s, sep);
            SplitOn(s + [c], sep)
            == if c == sep then parts + [""] else parts[..|parts| - 1] + [parts[|parts| - 1] + [c]]
  {
    if s == "" {
      assert s + [c] == [c] && [c][1..] == "" && [c] + "" == [c] && "" + [c] == [c];
      assert SplitOn([c], sep) == if c == sep then ["", ""] else [[c]];
    } else {
      assert (s + [c])[1..] == s[1..] + [c];
      SplitOnSnoc(s[1..], c, sep);
      if s[0] != sep { LongerFirstPart(s[0], SplitOn(s[1..], sep), c); }
    }
  }

  /** Lengthening the first part and lengthening the last part do not get in each other's way. */
  lemma {:induction false} LongerFirstPart(x: char, parts: seq<string>, c: char)
    requires parts != []
    ensures var n := |parts| - 1;
            var longer := [[x] + parts[0]] + parts[1..];
            var after := parts[..n] + [parts[n] + [c]];
            [[x] + after[0]] + after[1..] == longer[..n] + [longer[n] + [c]]
  {
    if |parts| == 1 { assert [x] + (parts[0] + [c]) == [x] + parts[0] + [c]; }
  }

  lemma {:induction false} CutFirst(a: string, sep: char, b: string)
    requires sep !in a
    ensures Cut(a + [sep] + b, sep) == Some((a, b))
  {
    var s := a + [sep] + b;
    if a == "" {
      assert s[1..] == b;
    } else {
      assert s[1..] == a[1..] + [sep] + b;
      CutFirst(a[1..], sep, b);
      assert a == [a[0]] + a[1..];
    }
  }

  lemma {:induction false} CutMeaning(s: string, sep: char)
    ensures Cut(s, sep).None? <==> sep !in s
    ensures Cut(s, sep).Some? ==>
              sep !in Cut(s, sep).value.0 && s == Cut(s, sep).value.0 + [sep] + Cut(s, sep).value.1
  {
    if s != "" {
      CutMeaning(s[1..], sep);
      assert s == [s[0]] + s[1..];
    }
  }

  // ---- Trimming ------------------------------------------------------------------------------

  /** White space as `strings.TrimSpace` understands it. */
  predicate IsSpace(c: char) {
    || '\t' <= c <= '\r' || c == ' ' || c == '\U{85}' || c == '\U{a0}' || c == '\U{1680}'
    || c == '\U{2028}' || c == '\U{2029}' || c == '\U{202f}' || c == '\U{205f}' || c == '\U{3000}'
    || '\U{2000}' <= c <= '\U{200a}'
  }

  function TrimLeft(s: string): string {
    if s != "" && IsSpace(s[0]) then TrimLeft(s[1..]) else s
  }

  function TrimRight(s: string): string {
    if s != "" && IsSpace(s[|s| - 1]) then TrimRight(s[..|s| - 1]) else s
  }

  function TrimSpace(s: string): string {
    TrimRight(TrimLeft(s))
  }

  predicate AllSpace(s: string) {
    forall k | 0 <= k < |s| :: IsSpace(s[k])
  }

  predicate Trimmed(s: string) {
    s == "" || (!IsSpace(s[0]) && !IsSpace(s[|s| - 1]))
  }

  lemma {:induction false} TrimLeftMeaning(s: string) returns (a: string)
    ensures s == a + TrimLeft(s) && AllSpace(a)
    ensures TrimLeft(s) == "" || !IsSpace(TrimLeft(s)[0])
  {
    a := "";
    if s != "" && IsSpace(s[0]) {
      var rest := TrimLeftMeaning(s[1..]);
      a := [s[0]] + rest;
      assert s == [s[0]] + s[1..];
    }
  }

  lemma {:induction false} TrimRightMeaning(s: string) returns (b: string)
    ensures s == TrimRight(s) + b && AllSpace(b)
    ensures TrimRight(s) == "" || !IsSpace(TrimRight(s)[|TrimRight(s)| - 1])
  {
    b := "";
    if s != "" && IsSpace(s[|s| - 1]) {
      var rest := TrimRightMeaning(s[..|s| - 1]);
      b := rest + [s[|s| - 1]];
      assert s == s[..|s| - 1] + [s[|s| - 1]];
    }
  }

  /** Trimming removes the white space at both ends and nothing else. */
  lemma {:induction false} TrimMeaning(s: string) returns (a: string, b: string)
    ensures s == a + TrimSpace(s) + b && AllSpace(a) && AllSpace(b) && Trimmed(TrimSpace(s))
  {
    a := TrimLeftMeaning(s);
    b := TrimRightMeaning(TrimLeft(s));
    assert TrimSpace(s) != "" ==> TrimSpace(s)[0] == TrimLeft(s)[0];
  }

  lemma {:induction false} TrimLeftPadded(a: string, s: string)
    requires AllSpace(a)
    ensures TrimLeft(a + s) == TrimLeft(s)
  {
    if a == "" {
      assert a + s == s;
    } else {
      assert (a + s)[1..] == a[1..] + s;
      TrimLeftPadded(a[1..], s);
    }
  }

  lemma {:induction false} TrimRightPadded(s: string, b: string)
    requires AllSpace(b)
    ensures TrimRight(s + b) == TrimRight(s)
  {
    if b == "" {
      assert s + b == s;
    } else {
      assert (s + b)[..|s + b| - 1] == s + b[..|b| - 1];
      TrimRightPadded(s, b[..|b| - 1]);
    }
  }

  /** Text without white space at its ends is found again whatever white space is put around it. */
  lemma {:induction false} TrimPadded(a: string, s: string, b: string)
    requires AllSpace(a) && AllSpace(b) && Trimmed(s)
    ensures TrimSpace(a + s + b) == s
  {
    assert a + s + b == a + (s + b);
    TrimLeftPadded(a, s + b);
    if s == "" {
      assert s + b == b && b == b + "";
      TrimLeftPadded(b, "");
    } else {
      TrimRightPadded(s, b);
    }
  }

  function HasPrefix(s: string, prefix: string): bool {
    prefix <= s
  }

  predicate HasSuffix(s: string, suffix: string) {
    |suffix| <= |s| && s[|s| - |suffix|..] == suffix
  }

  lemma {:induction false} PrefixOfConcat(p: string, s: string)
    ensures HasPrefix(p + s, p) && (p + s)[|p|..] == s
  {
  }

  lemma {:induction false} NonSpaceDigits(c: char)
    requires IsDigit(c, 16) || c == '-'
    ensures !IsSpace(c) && c != '=' && c != ';' && c != '\n' && c != ':'
  {
  }
}
