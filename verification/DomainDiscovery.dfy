/** Finding the cache or bandwidth domains in the root schemata (`pkg/resctrl/resctrl.go`). */
module DomainDiscovery {
  import opened Options
  import opened Text
  import opened Schemata

  /** The ids of the segments of one line; malformed segments are skipped. */
  function SegmentIDs(segments: seq<string>): seq<int> {
    if segments == [] then []
    else
      var segment := segments[|segments| - 1];
      SegmentIDs(segments[..|segments| - 1])
      + match Cut(segment, '=')
        case None => []
        case Some((id, _)) => (match Atoi(id) case Some(n) => [n] case None => [])
  }

  predicate Announces(line: string, keyword: string) {
    HasPrefix(TrimSpace(line), keyword)
  }

  function LineIDs(line: string, keyword: string): seq<int>
    requires Announces(line, keyword)
  {
    SegmentIDs(SplitOn(TrimSpace(line)[|keyword|..], ';'))
  }

  /** The first line of the resource decides; without one, there is a single domain 0. */
  function IDsOfLines(lines: seq<string>, keyword: string): seq<int> {
    if lines == [] then [0]
    else if Announces(lines[0], keyword) then LineIDs(lines[0], keyword)
    else IDsOfLines(lines[1..], keyword)
  }

  /** `data` is the trimmed root schemata; None is a read error. */
  method DiscoverDomainIDs(data: Option<string>, prefix: string) returns (ids: Option<seq<int>>)
    ensures ids == match data
                   case None => None
                   case Some(text) => Some(IDsOfLines(SplitOn(text, '\n'), prefix + ":"))
  {
    if data.None? { return None; }
    var linePrefix := prefix + ":";
    var lines := SplitOn(data.value, '\n');
    var n := 0;
    while n < |lines|
      invariant 0 <= n <= |lines| && IDsOfLines(lines, linePrefix) == IDsOfLines(lines[n..], linePrefix)
    {
      assert lines[n..][1..] == lines[n + 1..];
      if HasPrefix(TrimSpace(lines[n]), linePrefix) {
        var found := CollectIDs(SplitOn(TrimSpace(lines[n])[|linePrefix|..], ';'));
        return Some(found);
      }
      n := n + 1;
    }
    return Some([0]);
  }

  /** The loop over the segments of a line. */
  method CollectIDs(segments: seq<string>) returns (ids: seq<int>)
    ensures ids == SegmentIDs(segments)
  {
    ids := [];
    var k := 0;
    while k < |segments|
      invariant 0 <= k <= |segments| && ids == SegmentIDs(segments[..k])
    {
      var segment := segments[k];
      assert segments[..k + 1][..k] == segments[..k];
      k := k + 1;
      var cut := Cut(segment, '=');
      if cut.None? { continue; }
      var id := Atoi(cut.value.0);
      if id.None? { continue; }
      ids := ids + [id.value];
    }
    assert segments[..k] == segments;
  }

  // ---- Round trip ----------------------------------------------------------------------------

  /** A domain and what the kernel prints for it. */
  datatype DomainValue = DomainValue(id: int, value: string)

  function Segments(domains: seq<DomainValue>): seq<string> {
    seq(|domains|, k requires 0 <= k < |domains| => PrintInt(domains[k].id) + "=" + domains[k].value)
  }

  function IDs(domains: seq<DomainValue>): seq<int> {
    seq(|domains|, k requires 0 <= k < |domains| => domains[k].id)
  }

  predicate Printable(d: DomainValue) {
    IsInt64(d.id) && ';' !in d.value
  }

  lemma {:induction false} SegmentReadsBack(d: DomainValue)
    requires Printable(d)
    ensures Cut(PrintInt(d.id) + "=" + d.value, '=') == Some((PrintInt(d.id), d.value))
    ensures Atoi(PrintInt(d.id)) == Some(d.id)
  {
    NumberChars(d.id);
    CutFirst(PrintInt(d.id), '=', d.value);
    assert PrintInt(d.id) + "=" + d.value == PrintInt(d.id) + ['='] + d.value;
    AtoiPrintInt(d.id);
  }

  lemma {:induction false} OneMoreDomain(before: seq<DomainValue>, d: DomainValue)
    ensures Segments(before + [d]) == Segments(before) + [PrintInt(d.id) + "=" + d.value]
    ensures IDs(before + [d]) == IDs(before) + [d.id]
  {
  }

  lemma {:induction false} SegmentsReadBack(domains: seq<DomainValue>)
    requires forall k | 0 <= k < |domains| :: Printable(domains[k])
    ensures SegmentIDs(Segments(domains)) == IDs(domains)
  {
    if domains != [] {
      var before, d := domains[..|domains| - 1], domains[|domains| - 1];
      OneMoreDomain(before, d);
      assert domains == before + [d];
      SegmentsReadBack(before);
      SegmentReadsBack(d);
    }
  }

  lemma {:induction false} LineReadsBack(line: string, keyword: string, domains: seq<DomainValue>)
    requires domains != [] && forall k | 0 <= k < |domains| :: Printable(domains[k])
    requires TrimSpace(line) == keyword + Join(Segments(domains), ';')
    ensures Announces(line, keyword) && LineIDs(line, keyword) == IDs(domains)
  {
    PrefixOfConcat(keyword, Join(Segments(domains), ';'));
    forall k | 0 <= k < |domains| ensures ';' !in Segments(domains)[k] {
      NumberChars(domains[k].id);
    }
    SplitJoined(Segments(domains), ';');
    SegmentsReadBack(domains);
  }

  lemma {:induction false} FirstAnnouncement(before: seq<string>, line: string, after: seq<string>, keyword: string)
    requires forall k | 0 <= k < |before| :: !Announces(before[k], keyword)
    requires Announces(line, keyword)
    ensures IDsOfLines(before + ([line] + after), keyword) == LineIDs(line, keyword)
  {
    if before != [] {
      assert (before + ([line] + after))[1..] == before[1..] + ([line] + after);
      FirstAnnouncement(before[1..], line, after, keyword);
    }
  }

  /** The domains of a resource are exactly those its line lists, in its order, wherever the line
      stands, however it is indented and whatever values it carries. */
  lemma {:induction false} DomainsReadBack(before: seq<string>, line: string, after: seq<string>,
                                           prefix: string, domains: seq<DomainValue>)
    requires domains != [] && forall k | 0 <= k < |domains| :: Printable(domains[k])
    requires TrimSpace(line) == prefix + ":" + Join(Segments(domains), ';')
    requires forall k | 0 <= k < |before| :: !Announces(before[k], prefix + ":")
    requires forall k | 0 <= k < |before + ([line] + after)| :: '\n' !in (before + ([line] + after))[k]
    ensures IDsOfLines(SplitOn(JoinLines(before + ([line] + after)), '\n'), prefix + ":") == IDs(domains)
  {
    LineReadsBack(line, prefix + ":", domains);
    FirstAnnouncement(before, line, after, prefix + ":");
    SplitJoined(before + ([line] + after), '\n');
  }

  lemma {:induction false} SegmentIDsConcat(a: seq<string>, b: seq<string>)
    ensures SegmentIDs(a + b) == SegmentIDs(a) + SegmentIDs(b)
  {
    if b == [] {
      assert a + b == a;
    } else {
      var n := |b| - 1;
      assert (a + b)[..|a + b| - 1] == a + b[..n];
      SegmentIDsConcat(a, b[..n]);
    }
  }

  /** A segment without an integer before an equals sign drops neither the ids before it nor those after. */
  lemma {:induction false} MalformedSegmentSkipped(a: seq<string>, bad: string, b: seq<string>)
    requires Cut(bad, '=').None? || Atoi(Cut(bad, '=').value.0).None?
    ensures SegmentIDs(a + [bad] + b) == SegmentIDs(a) + SegmentIDs(b)
  {
    CutMeaning(bad, '=');
    SegmentIDsConcat(a + [bad], b);
    SegmentIDsConcat(a, [bad]);
    assert [bad][..0] == [] && SegmentIDs([bad]) == [];
  }

  /** Without a line of the resource there is one domain, with id 0. */
  lemma {:induction false} NoLineMeansZero(lines: seq<string>, keyword: string)
    requires forall k | 0 <= k < |lines| :: !Announces(lines[k], keyword)
    ensures IDsOfLines(lines, keyword) == [0]
  {
    if lines != [] { NoLineMeansZero(lines[1..], keyword); }
  }
}
