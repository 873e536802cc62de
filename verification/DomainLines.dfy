/** Schemata lines that list several cache domains, as the kernel shows them, and what recovery
    reads from a whole group file (`pkg/driver/wayallocator.go`). */
module DomainLines {
  import opened Options
  import opened Masks
  import opened Text
  import opened Schemata
  import opened WayAllocation

  // ---- Segments ------------------------------------------------------------------------------

  /** A segment is read exactly when it is an integer of 64 bits, an equals sign and a mask. */
  lemma {:induction false} SegmentReadExactly(segment: string, c: int, m: Word)
    ensures SegmentMask(segment) == Some((c, m))
            <==> exists id, hex :: segment == id + ['='] + hex && '=' !in id
                                   && Atoi(id) == Some(c) && ParseUint(hex, 16) == Some(m)
  {
    CutMeaning(segment, '=');
    if id, hex :| segment == id + ['='] + hex && '=' !in id && Atoi(id) == Some(c) && ParseUint(hex, 16) == Some(m) {
      CutFirst(id, '=', hex);
    }
  }

  lemma {:induction false} SegmentMasksConcat(a: seq<string>, b: seq<string>)
    ensures SegmentMasks(a + b) == SegmentMasks(a) + SegmentMasks(b)
  {
    if a == [] {
      assert a + b == b;
    } else {
      SegmentMasksConcat(a[1..], b);
      ConcatStep(a, b);
      Regroup(SegmentPairs(a[0]), SegmentMasks(a[1..]), SegmentMasks(b));
    }
  }

  lemma {:induction false} ConcatStep<T>(a: seq<T>, b: seq<T>)
    requires a != []
    ensures (a + b)[0] == a[0] && (a + b)[1..] == a[1..] + b
  {
  }

  lemma {:induction false} Regroup<T>(a: seq<T>, b: seq<T>, c: seq<T>)
    ensures a + b + c == a + (b + c)
  {
  }

  /** A malformed segment drops neither the segments before it nor those after it. */
  lemma {:induction false} MalformedSegmentSkipped(a: seq<string>, bad: string, b: seq<string>)
    requires SegmentMask(bad).None?
    ensures SegmentMasks(a + [bad] + b) == SegmentMasks(a) + SegmentMasks(b)
  {
    LoneSegment(bad);
    SegmentMasksConcat(a + [bad], b);
    SegmentMasksConcat(a, [bad]);
    DropEmpty(SegmentMasks(a), SegmentMasks([bad]));
  }

  lemma {:induction false} LoneSegment(segment: string)
    ensures SegmentMasks([segment]) == match SegmentMask(segment) case Some(p) => [p] case None => []
  {
    var one: seq<string> := [segment];
    assert one[1..] == [];
  }

  lemma {:induction false} DropEmpty<T>(a: seq<T>, b: seq<T>)
    requires b == []
    ensures a + b == a
  {
  }

  function PrintPair(p: (int, Word)): string {
    PrintInt(p.0) + "=" + MaskHex(p.1)
  }

  function PrintPairs(pairs: seq<(int, Word)>): seq<string> {
    seq(|pairs|, k requires 0 <= k < |pairs| => PrintPair(pairs[k]))
  }

  predicate Printable(pairs: seq<(int, Word)>) {
    pairs != [] && forall k | 0 <= k < |pairs| :: IsInt64(pairs[k].0)
  }

  lemma {:induction false} PrintPairsStep(pairs: seq<(int, Word)>)
    requires pairs != []
    ensures PrintPairs(pairs)[0] == PrintPair(pairs[0]) && PrintPairs(pairs)[1..] == PrintPairs(pairs[1..])
  {
  }

  lemma {:induction false} PairsReadBack(pairs: seq<(int, Word)>)
    requires forall k | 0 <= k < |pairs| :: IsInt64(pairs[k].0)
    ensures SegmentMasks(PrintPairs(pairs)) == pairs
  {
    if pairs != [] {
      PairsReadBack(pairs[1..]);
      SegmentRoundTrip(pairs[0].0, pairs[0].1);
      PrintPairsStep(pairs);
      assert SegmentMask(PrintPair(pairs[0])) == Some(pairs[0]);
      assert pairs == [pairs[0]] + pairs[1..];
    }
  }

  // ---- Lines ---------------------------------------------------------------------------------

  /** However it is indented, a line of segments reads back as its pairs, in order. */
  lemma {:induction false} PairsLineReadsBack(line: string, pairs: seq<(int, Word)>)
    requires Printable(pairs) && TrimSpace(line) == "L3:" + Join(PrintPairs(pairs), ';')
    ensures LineMasks(line) == pairs
  {
    PrefixOfConcat("L3:", Join(PrintPairs(pairs), ';'));
    forall k | 0 <= k < |pairs| ensures ';' !in PrintPairs(pairs)[k] {
      NumberChars(pairs[k].0);
      CleanHex(pairs[k].1);
    }
    SplitJoined(PrintPairs(pairs), ';');
    PairsReadBack(pairs);
  }

  lemma {:induction false} LinesMasksConcat(a: seq<string>, b: seq<string>)
    ensures LinesMasks(a + b) == LinesMasks(a) + LinesMasks(b)
  {
    if a == [] {
      assert a + b == b;
    } else {
      LinesMasksConcat(a[1..], b);
      ConcatStep(a, b);
      Regroup(LineMasks(a[0]), LinesMasks(a[1..]), LinesMasks(b));
    }
  }

  // ---- Whole files ---------------------------------------------------------------------------

  lemma {:induction false} BlankLine()
    ensures LineMasks("") == [] && LinesMasks([""]) == []
  {
    assert [""][1..] == [];
  }

  lemma {:induction false} IndentedLine(c: char, line: string)
    requires IsSpace(c)
    ensures LineMasks([c] + line) == LineMasks(line) && LineMasks(line + [c]) == LineMasks(line)
  {
    assert ([c] + line)[1..] == line;
    var a, b := TrimMeaning(line);
    assert line + [c] == a + TrimSpace(line) + (b + [c]);
    TrimPadded(a, TrimSpace(line), b + [c]);
  }

  /** White space in front of the text, or behind it, makes no difference. */
  lemma {:induction false} SpaceInFront(c: char, text: string)
    requires IsSpace(c)
    ensures LinesMasks(SplitOn([c] + text, '\n')) == LinesMasks(SplitOn(text, '\n'))
  {
    var parts := SplitOn(text, '\n');
    assert ([c] + text)[1..] == text;
    if c == '\n' {
      BlankLine();
      LinesMasksConcat([""], parts);
    } else {
      IndentedLine(c, parts[0]);
      assert ([[c] + parts[0]] + parts[1..])[1..] == parts[1..];
    }
  }

  lemma {:induction false} SpaceBehind(text: string, c: char)
    requires IsSpace(c)
    ensures LinesMasks(SplitOn(text + [c], '\n')) == LinesMasks(SplitOn(text, '\n'))
  {
    var parts := SplitOn(text, '\n');
    var before, last := parts[..|parts| - 1], parts[|parts| - 1];
    SplitOnSnoc(text, c, '\n');
    if c == '\n' {
      BlankLine();
      LinesMasksConcat(parts, [""]);
    } else {
      IndentedLine(c, last);
      assert parts == before + [last];
      LinesMasksConcat(before, [last]);
      LinesMasksConcat(before, [last + [c]]);
      assert [last][1..] == [] && [last + [c]][1..] == [];
    }
  }

  /** What one space in front does not change, any white space in front does not; and so behind. */
  lemma {:induction false} PaddedInFront<R>(f: string -> R, a: string, text: string)
    requires AllSpace(a) && forall c, t | IsSpace(c) :: f([c] + t) == f(t)
    ensures f(a + text) == f(text)
  {
    if a == "" {
      assert a + text == text;
    } else {
      PaddedInFront(f, a[1..], text);
      assert a + text == [a[0]] + (a[1..] + text);
    }
  }

  lemma {:induction false} PaddedBehind<R>(f: string -> R, text: string, b: string)
    requires AllSpace(b) && forall t, c | IsSpace(c) :: f(t + [c]) == f(t)
    ensures f(text + b) == f(text)
  {
    if b == "" {
      assert text + b == text;
    } else {
      var n := |b| - 1;
      PaddedBehind(f, text, b[..n]);
      assert text + b == text + b[..n] + [b[n]];
    }
  }

  function Found(): string -> seq<(int, Word)> {
    text => LinesMasks(SplitOn(text, '\n'))
  }

  lemma {:induction false} PaddingIsHarmless(a: string, text: string, b: string)
    requires AllSpace(a) && AllSpace(b)
    ensures LinesMasks(SplitOn(a + text + b, '\n')) == LinesMasks(SplitOn(text, '\n'))
  {
    forall c, t | IsSpace(c) ensures Found()([c] + t) == Found()(t) { SpaceInFront(c, t); }
    forall t, c | IsSpace(c) ensures Found()(t + [c]) == Found()(t) { SpaceBehind(t, c); }
    PaddedBehind(Found(), a + text, b);
    PaddedInFront(Found(), a, text);
    assert Found()(a + text + b) == Found()(text);
  }

  /** Trimming the whole file first, as the reader does, changes nothing of what it finds. */
  lemma {:induction false} TrimmingIsHarmless(text: string)
    ensures TextMasks(text) == LinesMasks(SplitOn(text, '\n'))
  {
    var a, b := TrimMeaning(text);
    PaddingIsHarmless(a, TrimSpace(text), b);
  }

  predicate OneLiners(lines: seq<string>) {
    forall k | 0 <= k < |lines| :: '\n' !in lines[k]
  }

  /** What the reader finds in a file is what it finds in its lines, one after the other. */
  lemma {:induction false} FileOfLines(lines: seq<string>)
    requires lines != [] && OneLiners(lines)
    ensures TextMasks(FileText(JoinLines(lines))) == LinesMasks(lines)
    ensures TextMasks(JoinLines(lines)) == LinesMasks(lines)
  {
    SplitJoined(lines, '\n');
    TrimmingIsHarmless(JoinLines(lines));
    TrimmingIsHarmless(FileText(JoinLines(lines)));
    PaddingIsHarmless("", JoinLines(lines), "\n");
    assert "" + JoinLines(lines) + "\n" == FileText(JoinLines(lines));
  }

  /** A file with a line that lists several domains: exactly its pairs are read there, in order,
      wherever the line stands and however it is indented, and nothing of the other lines is lost. */
  lemma {:induction false} PairsReadBackAnywhere(before: seq<string>, line: string, after: seq<string>,
        pairs: seq<(int, Word)>)
    requires Printable(pairs) && TrimSpace(line) == "L3:" + Join(PrintPairs(pairs), ';')
    requires OneLiners(before + [line] + after)
    ensures TextMasks(FileText(JoinLines(before + [line] + after))) == LinesMasks(before) + pairs + LinesMasks(after)
  {
    FileOfLines(before + [line] + after);
    LineAmongLines(before, line, after);
    PairsLineReadsBack(line, pairs);
  }

  lemma {:induction false} LineAmongLines(before: seq<string>, line: string, after: seq<string>)
    ensures LinesMasks(before + [line] + after) == LinesMasks(before) + LineMasks(line) + LinesMasks(after)
  {
    LoneLine(line);
    LinesMasksConcat(before + [line], after);
    LinesMasksConcat(before, [line]);
  }

  lemma {:induction false} LoneLine(line: string)
    ensures LinesMasks([line]) == LineMasks(line)
  {
    var one: seq<string> := [line];
    assert one[1..] == [] && LineMasks(line) + [] == LineMasks(line);
  }

  // ---- Whole directories ---------------------------------------------------------------------

  /** The file of a group as the kernel shows it: an L3 line for `pairs` among lines of other
      resources. */
  datatype GroupFile = GroupFile(name: string, before: seq<string>, line: string, after: seq<string>,
                                 pairs: seq<(int, Word)>)
  {
    function Lines(): seq<string> { before + [line] + after }

    function Entry(): DirEntry { DirEntry(name, true, Some(FileText(JoinLines(Lines())))) }
  }

  predicate NoL3Line(lines: seq<string>) {
    forall k | 0 <= k < |lines| :: !HasPrefix(TrimSpace(lines[k]), "L3:")
  }

  predicate WellFormed(f: GroupFile, prefix: string) {
    && HasPrefix(f.name, prefix) && Printable(f.pairs)
    && TrimSpace(f.line) == "L3:" + Join(PrintPairs(f.pairs), ';')
    && NoL3Line(f.before) && NoL3Line(f.after)
    && OneLiners(f.Lines())
  }

  lemma {:induction false} OtherLinesSkipped(lines: seq<string>)
    requires NoL3Line(lines)
    ensures LinesMasks(lines) == []
  {
    if lines != [] { OtherLinesSkipped(lines[1..]); }
  }

  lemma {:induction false} GroupFileBits(f: GroupFile, prefix: string, c: int, i: nat)
    requires WellFormed(f, prefix)
    ensures i in EntryBits(f.Entry(), prefix, c) <==> exists p | p in f.pairs :: p.0 == c && i in Bits(p.1)
  {
    PairsReadBackAnywhere(f.before, f.line, f.after, f.pairs);
    OtherLinesSkipped(f.before);
    OtherLinesSkipped(f.after);
    assert EntryMasks(f.Entry(), prefix) == f.pairs;
    MasksBitsMember(f.pairs, c, i);
  }

  /** Recovery of any groups. Over a directory whose scanned entries are the given files, in any order
      and among other entries, the scan adds in each domain exactly the ways that some file lists for
      it, in whichever segment. */
  lemma {:induction false} RecoveryReadsEveryDomain(alloc: Occupancy, files: set<GroupFile>, entries: seq<DirEntry>,
        prefix: string, c: int, i: nat)
    requires forall f | f in files :: WellFormed(f, prefix) && f.Entry() in entries
    requires forall e | e in entries && Scanned(e, prefix) :: exists f :: f in files && e == f.Entry()
    ensures i in UsedBits(Rebuild(alloc, entries, prefix), c)
            <==> i in UsedBits(alloc, c) || exists f, p | f in files && p in f.pairs :: p.0 == c && i in Bits(p.1)
  {
    RebuildMeaning(alloc, entries, prefix, c, i);
    forall f | f in files
      ensures i in EntryBits(f.Entry(), prefix, c) <==> exists p | p in f.pairs :: p.0 == c && i in Bits(p.1)
    {
      GroupFileBits(f, prefix, c, i);
    }
    forall e | e in entries && !Scanned(e, prefix) ensures EntryBits(e, prefix, c) == {} { }
  }

  lemma {:induction false} EntriesMasksConcat(a: seq<DirEntry>, b: seq<DirEntry>, prefix: string)
    ensures EntriesMasks(a + b, prefix) == EntriesMasks(a, prefix) + EntriesMasks(b, prefix)
  {
    if a == [] {
      assert a + b == b;
    } else {
      assert (a + b)[1..] == a[1..] + b;
      EntriesMasksConcat(a[1..], b, prefix);
    }
  }

  lemma {:induction false} NothingScanned(e: DirEntry, prefix: string)
    requires !Scanned(e, prefix)
    ensures EntriesMasks([e], prefix) == []
  {
    assert [e][1..] == [];
  }

  /** A plain file, an entry with another name, and a group that cannot be read leave no trace. */
  lemma {:induction false} OtherEntriesLeaveNoTrace(alloc: Occupancy, a: seq<DirEntry>, e: DirEntry, b: seq<DirEntry>,
        prefix: string)
    requires !e.isDir || !(prefix <= e.name) || e.schemata.None?
    ensures Rebuild(alloc, a + [e] + b, prefix) == Rebuild(alloc, a + b, prefix)
  {
    EntriesMasksConcat(a + [e], b, prefix);
    EntriesMasksConcat(a, [e], prefix);
    EntriesMasksConcat(a, b, prefix);
    NothingScanned(e, prefix);
    assert EntriesMasks(a, prefix) + [] == EntriesMasks(a, prefix);
  }
}
