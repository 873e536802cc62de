/** Schemata text: what the driver writes into a resctrl group and what crash recovery reads back.

  The printers come from `pkg/driver/driver.go` and `pkg/cache/partition.go`; the reader is the
  body of the file loop in `RebuildFromResctrl`. The main results say that the reader recovers
  exactly the printed masks.
*/
module Schemata {
  import opened Options
  import opened Masks
  import opened Text

  // ---- Printing ------------------------------------------------------------------------------

  function MaskHex(m: Word): string {
    PrintNat(m, 16)
  }

  function FormatSchemata(cacheID: int, cbmHex: string): string {
    "L3:" + PrintInt(cacheID) + "=" + cbmHex
  }

  function JoinLines(lines: seq<string>): string {
    Join(lines, '\n')
  }

  function StructuredSchemata(cacheID: int, cbmHex: string, mbaThrottle: int): string {
    JoinLines([FormatSchemata(cacheID, cbmHex)] + ThrottleLine("MB:", cacheID, mbaThrottle))
  }

  function ThrottleLine(keyword: string, domain: int, bandwidth: int): seq<string> {
    if bandwidth > 0 then [keyword + PrintInt(domain) + "=" + PrintInt(bandwidth)] else []
  }

  /** The combined text of a pre-created partition group: L3, then L2, MB and SMBA when set. */
  function CombinedSchemata(cacheID: int, cbmHex: string, l2: Option<Word>, mba: int, smba: int): string {
    JoinLines([FormatSchemata(cacheID, cbmHex)]
              + (if l2.Some? then ["L2:" + PrintInt(cacheID) + "=" + MaskHex(l2.value)] else [])
              + ThrottleLine("MB:", cacheID, mba) + ThrottleLine("SMBA:", cacheID, smba))
  }

  /** `CreateGroup` ends the file with a newline. */
  function FileText(schemata: string): string {
    schemata + "\n"
  }

  // ---- Reading -------------------------------------------------------------------------------

  /** One `id=mask` segment; malformed segments are skipped. */
  function SegmentMask(segment: string): Option<(int, Word)> {
    match Cut(segment, '=')
    case None => None
    case Some((id, hex)) =>
      match (Atoi(id), ParseUint(hex, 16))
      case (Some(c), Some(m)) => if m < WORD_LIMIT then Some((c, m)) else None
      case _ => None
  }

  function SegmentPairs(segment: string): seq<(int, Word)> {
    match SegmentMask(segment) case Some(p) => [p] case None => []
  }

  function SegmentMasks(segments: seq<string>): seq<(int, Word)> {
    if segments == [] then [] else SegmentPairs(segments[0]) + SegmentMasks(segments[1..])
  }

  function LineMasks(line: string): seq<(int, Word)> {
    var l := TrimSpace(line);
    if HasPrefix(l, "L3:") then SegmentMasks(SplitOn(l[3..], ';')) else []
  }

  function LinesMasks(lines: seq<string>): seq<(int, Word)> {
    if lines == [] then [] else LineMasks(lines[0]) + LinesMasks(lines[1..])
  }

  /** Every (domain, mask) pair that the recovery scan finds in one schemata file. */
  function TextMasks(text: string): seq<(int, Word)> {
    LinesMasks(SplitOn(TrimSpace(text), '\n'))
  }

  // ---- Round trip ----------------------------------------------------------------------------

  /** A line the reader sees unchanged by trimming and splitting. */
  predicate CleanLine(line: string) {
    line != "" && !IsSpace(line[0]) && !IsSpace(line[|line| - 1]) && '\n' !in line
  }

  lemma {:induction false} TrimClean(s: string)
    requires s != "" && !IsSpace(s[0]) && !IsSpace(s[|s| - 1])
    ensures TrimSpace(s) == s && TrimSpace(s + "\n") == s
  {
    assert (s + "\n")[..|s + "\n"| - 1] == s;
    assert TrimLeft(s + "\n") == s + "\n";
  }

  lemma {:induction false} Glue(head: string, middle: string, tail: string)
    requires head != "" && !IsSpace(head[0]) && '\n' !in head
    requires '\n' !in middle
    requires CleanLine(tail)
    ensures CleanLine(head + middle + tail)
  {
    var s := head + middle + tail;
    assert s[0] == head[0] && s[|s| - 1] == tail[|tail| - 1];
  }

  lemma {:induction false} NumberChars(n: int)
    ensures forall c | c in PrintInt(n) :: !IsSpace(c) && c != '=' && c != ';' && c != '\n'
  {
    PrintIntChars(n);
    forall c | c in PrintInt(n) ensures !IsSpace(c) && c != '=' && c != ';' && c != '\n' { NonSpaceDigits(c); }
  }

  lemma {:induction false} CleanNumber(n: int)
    ensures CleanLine("=" + PrintInt(n))
  {
    NumberChars(n);
    var s := "=" + PrintInt(n);
    assert s[|s| - 1] == PrintInt(n)[|PrintInt(n)| - 1];
    assert s[|s| - 1] in PrintInt(n);
  }

  lemma {:induction false} CleanHex(m: Word)
    ensures CleanLine("=" + MaskHex(m))
    ensures ';' !in MaskHex(m)
  {
    PrintNatDigits(m, 16);
    forall c | c in MaskHex(m) ensures !IsSpace(c) && c != '\n' && c != ';' { NonSpaceDigits(c); }
    var s := "=" + MaskHex(m);
    assert s[|s| - 1] == MaskHex(m)[|MaskHex(m)| - 1];
    assert s[|s| - 1] in MaskHex(m);
  }

  lemma {:induction false} CleanL3(cacheID: int, m: Word)
    ensures CleanLine(FormatSchemata(cacheID, MaskHex(m)))
  {
    CleanHex(m);
    NumberChars(cacheID);
    Glue("L3:", PrintInt(cacheID), "=" + MaskHex(m));
    assert FormatSchemata(cacheID, MaskHex(m)) == "L3:" + PrintInt(cacheID) + ("=" + MaskHex(m));
  }

  /** Lines of the other resources are clean, and the reader skips them. */
  lemma {:induction false} OtherResource(keyword: string, domain: int, tail: string)
    requires keyword in {"MB:", "SMBA:", "L2:"} && CleanLine(tail)
    ensures CleanLine(keyword + PrintInt(domain) + tail)
    ensures LineMasks(keyword + PrintInt(domain) + tail) == []
  {
    NumberChars(domain);
    Glue(keyword, PrintInt(domain), tail);
    var line := keyword + PrintInt(domain) + tail;
    TrimClean(line);
    assert line[0] == keyword[0] && line[1] == keyword[1];
  }

  lemma {:induction false} SkippedThrottle(keyword: string, domain: int, bandwidth: int)
    requires keyword in {"MB:", "SMBA:"}
    ensures forall l | l in ThrottleLine(keyword, domain, bandwidth) :: CleanLine(l) && LineMasks(l) == []
  {
    if bandwidth > 0 {
      CleanNumber(bandwidth);
      var tail := "=" + PrintInt(bandwidth);
      OtherResource(keyword, domain, tail);
      var line := keyword + PrintInt(domain) + tail;
      assert keyword + PrintInt(domain) + "=" + PrintInt(bandwidth) == line;
      assert ThrottleLine(keyword, domain, bandwidth) == [line];
    }
  }

  lemma {:induction false} SkippedL2(domain: int, m: Word)
    ensures var l := "L2:" + PrintInt(domain) + "=" + MaskHex(m); CleanLine(l) && LineMasks(l) == []
  {
    CleanHex(m);
    OtherResource("L2:", domain, "=" + MaskHex(m));
    assert "L2:" + PrintInt(domain) + "=" + MaskHex(m) == "L2:" + PrintInt(domain) + ("=" + MaskHex(m));
  }

  lemma {:induction false} SegmentRoundTrip(cacheID: int, m: Word)
    requires IsInt64(cacheID)
    ensures SegmentMask(PrintInt(cacheID) + "=" + MaskHex(m)) == Some((cacheID, m))
  {
    NumberChars(cacheID);
    CutFirst(PrintInt(cacheID), '=', MaskHex(m));
    AtoiPrintInt(cacheID);
    ParsePrintNat(m, 16);
    assert PrintInt(cacheID) + "=" + MaskHex(m) == PrintInt(cacheID) + ['='] + MaskHex(m);
  }

  lemma {:induction false} OneSegment(body: string)
    requires ';' !in body && CleanLine("L3:" + body) && SegmentMask(body).Some?
    ensures LineMasks("L3:" + body) == [SegmentMask(body).value]
  {
    TrimClean("L3:" + body);
    PrefixOfConcat("L3:", body);
    SplitOnWhole(body, ';');
    assert SegmentMasks([body]) == [SegmentMask(body).value] + SegmentMasks([]);
  }

  /** The L3 line of any mask reads back as that mask in that domain. */
  lemma {:induction false} LineRoundTrip(cacheID: int, m: Word)
    requires IsInt64(cacheID)
    ensures LineMasks(FormatSchemata(cacheID, MaskHex(m))) == [(cacheID, m)]
  {
    var body := PrintInt(cacheID) + "=" + MaskHex(m);
    assert FormatSchemata(cacheID, MaskHex(m)) == "L3:" + body;
    CleanL3(cacheID, m);
    NumberChars(cacheID);
    CleanHex(m);
    SegmentRoundTrip(cacheID, m);
    OneSegment(body);
  }

  lemma {:induction false} JoinedEnds(lines: seq<string>)
    requires lines != [] && forall l | l in lines :: CleanLine(l)
    ensures var s := JoinLines(lines); s != "" && !IsSpace(s[0]) && !IsSpace(s[|s| - 1])
  {
    assert lines[0] in lines;
    if |lines| > 1 {
      forall l | l in lines[1..] ensures CleanLine(l) { assert l in lines; }
      JoinedEnds(lines[1..]);
      var s := JoinLines(lines);
      var rest := JoinLines(lines[1..]);
      assert s == lines[0] + ['\n'] + rest;
      assert s[|s| - 1] == rest[|rest| - 1];
    }
  }

  lemma {:induction false} TextOfLines(lines: seq<string>)
    requires lines != [] && forall l | l in lines :: CleanLine(l)
    ensures TextMasks(FileText(JoinLines(lines))) == LinesMasks(lines)
  {
    JoinedEnds(lines);
    TrimClean(JoinLines(lines));
    forall k | 0 <= k < |lines| ensures '\n' !in lines[k] { assert lines[k] in lines; }
    SplitJoined(lines, '\n');
  }

  lemma {:induction false} SkippedLines(lines: seq<string>)
    requires forall l | l in lines :: LineMasks(l) == []
    ensures LinesMasks(lines) == []
  {
    if lines != [] { SkippedLines(lines[1..]); }
  }

  lemma {:induction false} TextRoundTrip(cacheID: int, m: Word, extra: seq<string>)
    requires IsInt64(cacheID)
    requires forall l | l in extra :: CleanLine(l) && LineMasks(l) == []
    ensures TextMasks(FileText(JoinLines([FormatSchemata(cacheID, MaskHex(m))] + extra))) == [(cacheID, m)]
  {
    var lines := [FormatSchemata(cacheID, MaskHex(m))] + extra;
    CleanL3(cacheID, m);
    TextOfLines(lines);
    LineRoundTrip(cacheID, m);
    SkippedLines(extra);
    assert lines[1..] == extra;
  }

  /** The file of a structured-mode group reads back as exactly its mask, with or without the
      bandwidth line. */
  lemma {:induction false} StructuredRoundTrip(cacheID: int, m: Word, mbaThrottle: int)
    requires IsInt64(cacheID)
    ensures TextMasks(FileText(StructuredSchemata(cacheID, MaskHex(m), mbaThrottle))) == [(cacheID, m)]
  {
    SkippedThrottle("MB:", cacheID, mbaThrottle);
    TextRoundTrip(cacheID, m, ThrottleLine("MB:", cacheID, mbaThrottle));
  }

  /** So does the file of a pre-created partition group, whose L2, MB and SMBA lines are skipped. */
  lemma {:induction false} CombinedRoundTrip(cacheID: int, m: Word, l2: Option<Word>, mba: int, smba: int)
    requires IsInt64(cacheID)
    ensures TextMasks(FileText(CombinedSchemata(cacheID, MaskHex(m), l2, mba, smba))) == [(cacheID, m)]
  {
    SkippedThrottle("MB:", cacheID, mba);
    SkippedThrottle("SMBA:", cacheID, smba);
    if l2.Some? { SkippedL2(cacheID, l2.value); }
    var l2Lines := if l2.Some? then ["L2:" + PrintInt(cacheID) + "=" + MaskHex(l2.value)] else [];
    var mb, smb := ThrottleLine("MB:", cacheID, mba), ThrottleLine("SMBA:", cacheID, smba);
    var l3 := FormatSchemata(cacheID, MaskHex(m));
    TextRoundTrip(cacheID, m, l2Lines + mb + smb);
    assert [l3] + l2Lines + mb + smb == [l3] + (l2Lines + mb + smb);
  }

  // ---- What a written group says of each resource --------------------------------------------

  /** The domain and the value in each line of a resource: what stands before and after the equals sign. */
  function Fields(lines: seq<string>, keyword: string): seq<(string, string)> {
    if lines == [] then []
    else
      (if HasPrefix(lines[0], keyword) && Cut(lines[0][|keyword|..], '=').Some?
       then [Cut(lines[0][|keyword|..], '=').value] else [])
      + Fields(lines[1..], keyword)
  }

  /** The lines of a file, as a reader that trims and splits it sees them. */
  function LinesOf(text: string): seq<string> {
    SplitOn(TrimSpace(text), '\n')
  }

  predicate Keyword(keyword: string) {
    keyword in {"L3:", "L2:", "MB:", "SMBA:"}
  }

  lemma {:induction false} FieldsOf(keyword: string, domain: int, value: string, other: string)
    requires Keyword(keyword) && Keyword(other)
    ensures Fields([keyword + PrintInt(domain) + "=" + value], other)
            == if other == keyword then [(PrintInt(domain), value)] else []
  {
    var line := keyword + PrintInt(domain) + "=" + value;
    var body := PrintInt(domain) + ['='] + value;
    assert line == keyword + body;
    PrefixOfConcat(keyword, body);
    NumberChars(domain);
    CutFirst(PrintInt(domain), '=', value);
    assert line[0] == keyword[0] && line[1] == keyword[1];
    var lines: seq<string> := [line];
    assert lines[1..] == [];
  }

  lemma {:induction false} FieldsConcat(a: seq<string>, b: seq<string>, keyword: string)
    ensures Fields(a + b, keyword) == Fields(a, keyword) + Fields(b, keyword)
  {
    if a == [] {
      assert a + b == b;
    } else {
      assert (a + b)[1..] == a[1..] + b;
      FieldsConcat(a[1..], b, keyword);
    }
  }

  lemma {:induction false} ThrottleSetting(keyword: string, domain: int, bandwidth: int, other: string)
    requires Keyword(keyword) && Keyword(other)
    ensures Fields(ThrottleLine(keyword, domain, bandwidth), other)
            == if other == keyword && bandwidth > 0 then [(PrintInt(domain), PrintInt(bandwidth))] else []
  {
    FieldsOf(keyword, domain, PrintInt(bandwidth), other);
  }

  lemma {:induction false} LinesRead(lines: seq<string>)
    requires lines != [] && forall l | l in lines :: CleanLine(l)
    ensures LinesOf(FileText(JoinLines(lines))) == lines
  {
    JoinedEnds(lines);
    TrimClean(JoinLines(lines));
    forall k | 0 <= k < |lines| ensures '\n' !in lines[k] { assert lines[k] in lines; }
    SplitJoined(lines, '\n');
  }

  /** The lines of a partition group's text. */
  function CombinedLines(cacheID: int, m: Word, l2: Option<Word>, mba: int, smba: int): seq<string> {
    [FormatSchemata(cacheID, MaskHex(m))]
    + (if l2.Some? then ["L2:" + PrintInt(cacheID) + "=" + MaskHex(l2.value)] else [])
    + ThrottleLine("MB:", cacheID, mba) + ThrottleLine("SMBA:", cacheID, smba)
  }

  lemma {:induction false} CombinedIsClean(cacheID: int, m: Word, l2: Option<Word>, mba: int, smba: int)
    ensures forall l | l in CombinedLines(cacheID, m, l2, mba, smba) :: CleanLine(l)
  {
    CleanL3(cacheID, m);
    if l2.Some? { SkippedL2(cacheID, l2.value); }
    SkippedThrottle("MB:", cacheID, mba);
    SkippedThrottle("SMBA:", cacheID, smba);
  }

  lemma {:induction false} FieldsOfCombined(cacheID: int, m: Word, l2: Option<Word>, mba: int, smba: int, keyword: string)
    requires Keyword(keyword)
    ensures Fields(CombinedLines(cacheID, m, l2, mba, smba), keyword)
            == (if keyword == "L3:" then [(PrintInt(cacheID), MaskHex(m))] else [])
               + (if keyword == "L2:" && l2.Some? then [(PrintInt(cacheID), MaskHex(l2.value))] else [])
               + (if keyword == "MB:" && mba > 0 then [(PrintInt(cacheID), PrintInt(mba))] else [])
               + (if keyword == "SMBA:" && smba > 0 then [(PrintInt(cacheID), PrintInt(smba))] else [])
  {
    var l3, l2Lines := [FormatSchemata(cacheID, MaskHex(m))],
                       if l2.Some? then ["L2:" + PrintInt(cacheID) + "=" + MaskHex(l2.value)] else [];
    var mb, smb := ThrottleLine("MB:", cacheID, mba), ThrottleLine("SMBA:", cacheID, smba);
    FieldsConcat(l3 + l2Lines + mb, smb, keyword);
    FieldsConcat(l3 + l2Lines, mb, keyword);
    FieldsConcat(l3, l2Lines, keyword);
    FieldsOf("L3:", cacheID, MaskHex(m), keyword);
    if l2.Some? { FieldsOf("L2:", cacheID, MaskHex(l2.value), keyword); }
    ThrottleSetting("MB:", cacheID, mba, keyword);
    ThrottleSetting("SMBA:", cacheID, smba, keyword);
  }

  /** The text of a partition group says of each resource, for the domain of the group, exactly the value
      it was given, and nothing of a resource that is not set. */
  lemma {:induction false} CombinedSettings(cacheID: int, m: Word, l2: Option<Word>, mba: int, smba: int, keyword: string)
    requires Keyword(keyword)
    ensures var id := PrintInt(cacheID);
            Fields(LinesOf(FileText(CombinedSchemata(cacheID, MaskHex(m), l2, mba, smba))), keyword)
            == if keyword == "L3:" then [(id, MaskHex(m))]
               else if keyword == "L2:" then (if l2.Some? then [(id, MaskHex(l2.value))] else [])
               else if keyword == "MB:" then (if mba > 0 then [(id, PrintInt(mba))] else [])
               else (if smba > 0 then [(id, PrintInt(smba))] else [])
  {
    CombinedIsClean(cacheID, m, l2, mba, smba);
    LinesRead(CombinedLines(cacheID, m, l2, mba, smba));
    FieldsOfCombined(cacheID, m, l2, mba, smba, keyword);
  }

  /** The text of a structured-mode group is the one L3 line: it sets no bandwidth. */
  lemma {:induction false} StructuredIsOneLine(cacheID: int, m: Word)
    ensures LinesOf(FileText(StructuredSchemata(cacheID, MaskHex(m), 0))) == ["L3:" + PrintInt(cacheID) + "=" + MaskHex(m)]
  {
    CleanL3(cacheID, m);
    LinesRead([FormatSchemata(cacheID, MaskHex(m))]);
    assert [FormatSchemata(cacheID, MaskHex(m))] + [] == [FormatSchemata(cacheID, MaskHex(m))];
  }
}
