/** The human-readable size label (`pkg/driver/discovery.go`). */
module SizeLabel {
  import opened Options
  import opened Text

  const KIB: int := 1024
  const MIB: int := 1024 * 1024
  const GIB: int := 1024 * 1024 * 1024

  // ---- Printing ------------------------------------------------------------------------------

  /** 64-bit two's complement, as a product of two `int64` values wraps around. */
  function Wrap64(n: int): int {
    (n + 0x8000_0000_0000_0000) % 0x1_0000_0000_0000_0000 - 0x8000_0000_0000_0000
  }

  /** The `%.1f` form of a non-negative number, rounded to tenths. */
  function PrintTenths(x: real): string
    requires x >= 0.0
  {
    var tenths := (x * 10.0 + 0.5).Floor;
    PrintInt(tenths / 10) + "." + PrintInt(tenths % 10)
  }

  function FormatCacheSize(bytes: int): string {
    if bytes <= 0 then "0B"
    else if bytes % GIB == 0 then PrintInt(bytes / GIB) + "GiB"
    else if bytes % MIB == 0 then PrintInt(bytes / MIB) + "MiB"
    else if bytes >= MIB && Wrap64(bytes * 10) % MIB == 0 then PrintTenths(bytes as real / MIB as real) + "MiB"
    else if bytes % KIB == 0 then PrintInt(bytes / KIB) + "KiB"
    else PrintInt(bytes) + "B"
  }

  // ---- Reading -------------------------------------------------------------------------------

  /** The unit at the end of a label and the number before it. */
  function UnitOf(text: string): Option<(string, int)> {
    if HasSuffix(text, "GiB") then Some((text[..|text| - 3], GIB))
    else if HasSuffix(text, "MiB") then Some((text[..|text| - 3], MIB))
    else if HasSuffix(text, "KiB") then Some((text[..|text| - 3], KIB))
    else if HasSuffix(text, "B") then Some((text[..|text| - 1], 1))
    else None
  }

  /** A decimal number with at most one decimal place, in tenths. */
  function Tenths(number: string): Option<nat> {
    match Cut(number, '.')
    case None => (match ParseDigits(number, 10) case Some(n) => Some(10 * n) case None => None)
    case Some((whole, fraction)) =>
      match (ParseDigits(whole, 10), ParseDigits(fraction, 10))
      case (Some(n), Some(f)) => if |fraction| == 1 then Some(10 * n + f) else None
      case _ => None
  }

  /** What a label says, in tenths of a byte. */
  function TenthsOfByte(text: string): Option<int> {
    match UnitOf(text)
    case None => None
    case Some((number, unit)) =>
      match Tenths(number)
      case Some(t) => Some(t * unit)
      case None => None
  }

  // ---- Nothing is lost -----------------------------------------------------------------------

  /** The wrap-around of the product does not disturb the divisibility test. */
  lemma {:induction false} WrapKeepsDivisibility(n: int)
    ensures Wrap64(n) % MIB == 0 <==> n % MIB == 0
  {
    var q := (n + 0x8000_0000_0000_0000) / 0x1_0000_0000_0000_0000;
    assert n == Wrap64(n) + 0x1_0000_0000_0000_0000 * q;
    assert n == Wrap64(n) + MIB * (0x1000_0000_0000 * q);
  }

  /** A tenth of a MiB is no whole number of bytes unless it is half of one: two and five have no
      common factor. */
  lemma {:induction false} TenthsAreHalves(bytes: int)
    requires (bytes * 10) % MIB == 0
    ensures bytes % (MIB / 2) == 0
  {
    var q := bytes * 10 / MIB;
    assert 5 * bytes == 524288 * q;
    assert bytes == 524288 * (2 * bytes - 209715 * q);
  }

  predicate IsUnit(unit: string, size: int) {
    || (unit == "GiB" && size == GIB)
    || (unit == "MiB" && size == MIB)
    || (unit == "KiB" && size == KIB)
    || (unit == "B" && size == 1)
  }

  predicate EndsInDigit(number: string) {
    number != "" && IsDigit(number[|number| - 1], 10)
  }

  lemma {:induction false} ReadUnit(number: string, unit: string, size: int)
    requires IsUnit(unit, size) && EndsInDigit(number)
    ensures UnitOf(number + unit) == Some((number, size))
  {
    var text := number + unit;
    assert text[..|number|] == number && text[|number|..] == unit;
    if unit == "B" {
      assert text[|text| - 1] == 'B' && text[|text| - 2] == number[|number| - 1];
      assert forall u | u in {"GiB", "MiB", "KiB"} && HasSuffix(text, u) :: text[|text| - 3..][1] == text[|text| - 2];
    } else {
      assert text[|text| - 3..] == unit;
    }
  }

  lemma {:induction false} ReadLabel(number: string, unit: string, size: int, tenths: nat, bytes: int)
    requires IsUnit(unit, size) && EndsInDigit(number) && Tenths(number) == Some(tenths)
    requires tenths * size == 10 * bytes
    ensures TenthsOfByte(number + unit) == Some(10 * bytes)
  {
    ReadUnit(number, unit, size);
  }

  lemma {:induction false} ReadWhole(n: nat)
    ensures Tenths(PrintInt(n)) == Some(10 * n) && EndsInDigit(PrintInt(n))
  {
    PrintIntChars(n);
    assert '.' !in PrintInt(n);
    CutMeaning(PrintInt(n), '.');
    ParsePrintNat(n, 10);
    assert PrintInt(n)[|PrintInt(n)| - 1] in PrintInt(n);
  }

  /** The guard of the one-decimal branch. */
  predicate OneDecimal(bytes: int) {
    bytes >= MIB && bytes % MIB != 0 && Wrap64(bytes * 10) % MIB == 0
  }

  /** In the one-decimal branch the size is an odd number of half MiBs, few enough for a double to
      hold exactly, so the quotient that is printed is exact too. */
  lemma {:induction false} OddHalves(bytes: int) returns (halves: nat)
    requires OneDecimal(bytes)
    ensures bytes == halves * 524288 && halves % 2 == 1 && (IsInt64(bytes) ==> halves < 0x20_0000_0000_0000)
  {
    WrapKeepsDivisibility(bytes * 10);
    TenthsAreHalves(bytes);
    halves := bytes / 524288;
  }

  lemma {:induction false} HalvesQuotient(bytes: int, halves: nat) returns (x: real)
    requires bytes == halves * 524288
    ensures x == bytes as real / MIB as real && x >= 0.0 && x * 10.0 == (5 * halves) as real
    ensures 5 * halves * MIB == 10 * bytes
  {
    assert bytes as real == halves as real * 524288.0;
    x := bytes as real / 1048576.0;
  }

  lemma {:induction false} ReadNumber(t: nat)
    ensures var number := PrintInt(t / 10) + "." + PrintInt(t % 10);
            Tenths(number) == Some(t) && EndsInDigit(number)
  {
    var whole, fraction := PrintInt(t / 10), PrintInt(t % 10);
    PrintIntChars(t / 10);
    PrintIntChars(t % 10);
    CutFirst(whole, '.', fraction);
    ParsePrintNat(t / 10, 10);
    ParsePrintNat(t % 10, 10);
    assert whole + "." + fraction == whole + ['.'] + fraction;
    assert fraction[|fraction| - 1] in fraction;
  }

  lemma {:induction false} PrintedTenths(x: real, t: nat)
    requires x >= 0.0 && x * 10.0 == t as real
    ensures PrintTenths(x) == PrintInt(t / 10) + "." + PrintInt(t % 10)
  {
    assert (x * 10.0 + 0.5).Floor == t;
  }

  lemma {:induction false} ReadHalves(x: real, t: nat, bytes: int)
    requires x >= 0.0 && x * 10.0 == t as real && t * MIB == 10 * bytes
    ensures TenthsOfByte(PrintTenths(x) + "MiB") == Some(10 * bytes)
  {
    PrintedTenths(x, t);
    ReadNumber(t);
    ReadLabel(PrintInt(t / 10) + "." + PrintInt(t % 10), "MiB", MIB, t, bytes);
  }

  lemma {:induction false} ReadTenths(bytes: int)
    requires OneDecimal(bytes)
    ensures TenthsOfByte(PrintTenths(bytes as real / MIB as real) + "MiB") == Some(10 * bytes)
  {
    var halves := OddHalves(bytes);
    var x := HalvesQuotient(bytes, halves);
    ReadHalves(x, 5 * halves, bytes);
  }

  lemma {:induction false} ExactDivision(bytes: int, size: int)
    requires bytes >= 0 && size > 0 && bytes % size == 0
    ensures bytes / size >= 0 && 10 * (bytes / size) * size == 10 * bytes
  {
    assert bytes / size * size == bytes;
    assert 10 * (bytes / size) * size == 10 * (bytes / size * size);
  }

  lemma {:induction false} ReadMultiple(bytes: int, unit: string, size: int)
    requires IsUnit(unit, size) && size > 0 && bytes >= 0 && bytes % size == 0
    ensures TenthsOfByte(PrintInt(bytes / size) + unit) == Some(10 * bytes)
  {
    ExactDivision(bytes, size);
    var n := bytes / size;
    ReadWhole(n);
    ReadLabel(PrintInt(n), unit, size, 10 * n, bytes);
  }

  lemma {:induction false} LabelReads(bytes: int)
    requires bytes > 0
    ensures TenthsOfByte(FormatCacheSize(bytes)) == Some(10 * bytes)
  {
    if bytes % GIB == 0 {
      ReadMultiple(bytes, "GiB", GIB);
    } else if bytes % MIB == 0 {
      ReadMultiple(bytes, "MiB", MIB);
    } else if bytes >= MIB && Wrap64(bytes * 10) % MIB == 0 {
      ReadTenths(bytes);
    } else if bytes % KIB == 0 {
      ReadMultiple(bytes, "KiB", KIB);
    } else {
      ReadMultiple(bytes, "B", 1);
    }
  }

  /** The label denotes exactly the number of bytes it was printed for, whichever unit was chosen;
      only negative sizes, all shown as zero, are lost. */
  lemma {:induction false} LabelIsLosslessExactly(bytes: int)
    ensures TenthsOfByte(FormatCacheSize(bytes)) == Some(10 * bytes) <==> bytes >= 0
  {
    if bytes > 0 {
      LabelReads(bytes);
    } else {
      assert PrintInt(0 / 1) + "B" == "0B";
      ReadMultiple(0, "B", 1);
    }
  }

  /** A size can be shown in a unit: as a whole number of it, or, for a MiB, with one decimal place. */
  predicate Suits(bytes: int, unit: int)
    requires unit > 0
  {
    bytes % unit == 0 || (unit == MIB && bytes >= MIB && (10 * bytes) % MIB == 0)
  }

  lemma {:induction false} MultipleUnit(bytes: int, unit: string, size: int)
    requires IsUnit(unit, size) && size > 0 && bytes >= 0
    ensures UnitOf(PrintInt(bytes / size) + unit) == Some((PrintInt(bytes / size), size))
  {
    assert bytes / size >= 0;
    ReadWhole(bytes / size);
    ReadUnit(PrintInt(bytes / size), unit, size);
  }

  lemma {:induction false} DecimalUnit(bytes: int)
    requires OneDecimal(bytes)
    ensures UnitOf(PrintTenths(bytes as real / MIB as real) + "MiB").Some?
    ensures UnitOf(PrintTenths(bytes as real / MIB as real) + "MiB").value.1 == MIB
  {
    var halves := OddHalves(bytes);
    var x := HalvesQuotient(bytes, halves);
    var t := 5 * halves;
    PrintedTenths(x, t);
    ReadNumber(t);
    ReadUnit(PrintInt(t / 10) + "." + PrintInt(t % 10), "MiB", MIB);
  }

  /** The unit of a label, in bytes. */
  function LabelUnit(bytes: int): int {
    match UnitOf(FormatCacheSize(bytes)) case Some((_, unit)) => unit case None => 0
  }

  lemma {:induction false} LabelUnitIs(bytes: int)
    requires bytes > 0
    ensures LabelUnit(bytes) == if Suits(bytes, GIB) then GIB else if Suits(bytes, MIB) then MIB
                                else if Suits(bytes, KIB) then KIB else 1
  {
    WrapKeepsDivisibility(bytes * 10);
    if bytes % GIB == 0 {
      MultipleUnit(bytes, "GiB", GIB);
    } else if bytes % MIB == 0 {
      MultipleUnit(bytes, "MiB", MIB);
    } else if bytes >= MIB && Wrap64(bytes * 10) % MIB == 0 {
      DecimalUnit(bytes);
    } else if bytes % KIB == 0 {
      MultipleUnit(bytes, "KiB", KIB);
    } else {
      MultipleUnit(bytes, "B", 1);
    }
  }

  /** The label of a size is in a unit if and only if that is the largest one the size can be shown in. */
  lemma {:induction false} LargestUnitExactly(bytes: int, unit: int)
    requires bytes > 0 && unit in {GIB, MIB, KIB, 1}
    ensures LabelUnit(bytes) == unit
            <==> Suits(bytes, unit) && forall larger | larger in {GIB, MIB, KIB} && larger > unit :: !Suits(bytes, larger)
  {
    LabelUnitIs(bytes);
    assert GIB in {GIB, MIB, KIB} && MIB in {GIB, MIB, KIB} && KIB in {GIB, MIB, KIB};
  }

  /** Two sizes share a label exactly when they are equal, or neither is positive. */
  lemma {:induction false} SameLabelExactly(a: int, b: int)
    ensures FormatCacheSize(a) == FormatCacheSize(b) <==> a == b || (a <= 0 && b <= 0)
  {
    LabelIsLosslessExactly(a);
    LabelIsLosslessExactly(b);
    LabelIsLosslessExactly(0);
    assert a <= 0 ==> FormatCacheSize(a) == FormatCacheSize(0);
    assert b <= 0 ==> FormatCacheSize(b) == FormatCacheSize(0);
  }
}
