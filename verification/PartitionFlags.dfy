/** The `--partition-sizes` flag. */
module PartitionFlags {
  import opened Options
  import opened Text
  import opened Schemata
  import opened Partitions

  datatype FlagError = BadToken | BadWays | BadCount | NoSizes

  /** One `ways:count` token that is not blank. */
  function ParseToken(token: string): Result<PartitionSpec, FlagError> {
    match Cut(token, ':')
    case None => Err(BadToken)
    case Some((w, c)) =>
      if Atoi(w).None? || Atoi(w).value <= 0 then Err(BadWays)
      else if Atoi(c).None? || Atoi(c).value <= 0 then Err(BadCount)
      else Ok(PartitionSpec(Atoi(w).value, Atoi(c).value))
  }

  /** The specs of a list of tokens: blank ones are skipped, the first bad one is an error. */
  function ParseTokens(tokens: seq<string>): Result<seq<PartitionSpec>, FlagError> {
    if tokens == [] then Ok([])
    else
      match ParseTokens(tokens[..|tokens| - 1])
      case Err(e) => Err(e)
      case Ok(specs) =>
        var token := TrimSpace(tokens[|tokens| - 1]);
        if token == "" then Ok(specs)
        else match ParseToken(token)
          case Err(e) => Err(e)
          case Ok(spec) => Ok(specs + [spec])
  }

  function ParseSizes(s: string): Result<seq<PartitionSpec>, FlagError> {
    match ParseTokens(SplitOn(s, ','))
    case Err(e) => Err(e)
    case Ok(specs) => if specs == [] then Err(NoSizes) else Ok(specs)
  }

  method ParsePartitionSizes(s: string) returns (r: Result<seq<PartitionSpec>, FlagError>)
    ensures r == ParseSizes(s)
    ensures r.Ok? ==> r.value != [] && forall k | 0 <= k < |r.value| :: r.value[k].ways > 0 && r.value[k].count > 0
  {
    var specs: seq<PartitionSpec> := [];
    var tokens := SplitOn(s, ',');
    var n := 0;
    while n < |tokens|
      invariant 0 <= n <= |tokens|
      invariant ParseTokens(tokens[..n]) == Ok(specs)
      invariant forall k | 0 <= k < |specs| :: specs[k].ways > 0 && specs[k].count > 0
    {
      assert tokens[..n + 1][..n] == tokens[..n];
      var token := TrimSpace(tokens[n]);
      n := n + 1;
      if token == "" { continue; }
      var parsed := ParseToken(token);
      if parsed.Err? {
        ErrorStays(tokens, n);
        return Err(parsed.error);
      }
      specs := specs + [parsed.value];
    }
    assert tokens[..n] == tokens;
    if |specs| == 0 { return Err(NoSizes); }
    return Ok(specs);
  }

  lemma {:induction false} ErrorStays(tokens: seq<string>, n: nat)
    requires n <= |tokens| && ParseTokens(tokens[..n]).Err?
    ensures ParseTokens(tokens) == ParseTokens(tokens[..n])
  {
    if n == |tokens| {
      assert tokens[..n] == tokens;
    } else {
      var before := tokens[..|tokens| - 1];
      assert before[..n] == tokens[..n];
      ErrorStays(before, n);
    }
  }

  // ---- Round trip ----------------------------------------------------------------------------

  function PrintSpec(s: PartitionSpec): string {
    PrintInt(s.ways) + ":" + PrintInt(s.count)
  }

  function PrintSpecs(specs: seq<PartitionSpec>): seq<string> {
    seq(|specs|, k requires 0 <= k < |specs| => PrintSpec(specs[k]))
  }

  predicate Reads(token: string, s: PartitionSpec) {
    token != "" && TrimSpace(token) == token && ParseToken(token) == Ok(s)
  }

  predicate Printable(s: PartitionSpec) {
    s.ways > 0 && s.count > 0 && IsInt64(s.ways) && IsInt64(s.count)
  }

  lemma {:induction false} TokenRoundTrip(s: PartitionSpec)
    requires Printable(s)
    ensures Reads(PrintSpec(s), s) && ',' !in PrintSpec(s)
  {
    var w, c := PrintInt(s.ways), PrintInt(s.count);
    NumberChars(s.ways);
    NumberChars(s.count);
    PrintIntChars(s.ways);
    PrintIntChars(s.count);
    CutFirst(w, ':', c);
    AtoiPrintInt(s.ways);
    AtoiPrintInt(s.count);
    var token := w + ":" + c;
    assert token == w + [':'] + c;
    assert token[0] == w[0] && token[|token| - 1] == c[|c| - 1];
    assert w[0] in w && c[|c| - 1] in c;
    TrimClean(token);
  }

  lemma {:induction false} TokensRead(tokens: seq<string>, specs: seq<PartitionSpec>)
    requires |tokens| == |specs| && forall k | 0 <= k < |specs| :: Reads(tokens[k], specs[k])
    ensures ParseTokens(tokens) == Ok(specs)
  {
    if specs != [] {
      var n := |specs| - 1;
      TokensRead(tokens[..n], specs[..n]);
      assert tokens[..n] + [tokens[n]] == tokens && specs[..n] + [specs[n]] == specs;
    }
  }

  /** Every non-empty list of positive 64-bit specs is what the flag parser reads from its
      comma-separated form. */
  lemma {:induction false} SizesRoundTrip(specs: seq<PartitionSpec>)
    requires specs != [] && forall s | s in specs :: Printable(s)
    ensures ParseSizes(Join(PrintSpecs(specs), ',')) == Ok(specs)
  {
    forall k | 0 <= k < |specs|
      ensures Reads(PrintSpecs(specs)[k], specs[k]) && ',' !in PrintSpecs(specs)[k]
    {
      TokenRoundTrip(specs[k]);
    }
    TokensRead(PrintSpecs(specs), specs);
    SplitJoined(PrintSpecs(specs), ',');
  }

  // ---- Every flag ----------------------------------------------------------------------------

  predicate Positive(number: string) {
    Atoi(number).Some? && Atoi(number).value > 0
  }

  /** A token is read exactly when it is a positive number, a colon and a positive number. */
  lemma {:induction false} TokenReadExactly(token: string, s: PartitionSpec)
    ensures ParseToken(token) == Ok(s)
            <==> exists w, c :: token == w + [':'] + c && ':' !in w && Positive(w) && Positive(c)
                                && s == PartitionSpec(Atoi(w).value, Atoi(c).value)
  {
    CutMeaning(token, ':');
    if w, c :| token == w + [':'] + c && ':' !in w && Positive(w) && Positive(c)
               && s == PartitionSpec(Atoi(w).value, Atoi(c).value) {
      CutFirst(w, ':', c);
    }
  }

  /** A token without a colon, such as `4`, is rejected for that. */
  lemma {:induction false} NoColonRejected(token: string)
    ensures ParseToken(token) == Err(BadToken) <==> ':' !in token
  {
    CutMeaning(token, ':');
  }

  /** Otherwise the first of its two numbers that is not positive decides. */
  lemma {:induction false} TokenRejectedAs(w: string, c: string)
    requires ':' !in w
    ensures ParseToken(w + [':'] + c) == Err(BadWays) <==> !Positive(w)
    ensures ParseToken(w + [':'] + c) == Err(BadCount) <==> Positive(w) && !Positive(c)
  {
    CutFirst(w, ':', c);
  }

  /** What one part of the flag adds: nothing if it is blank, else its spec, whatever white space is around
      it. */
  function PartSpecs(part: string): Result<seq<PartitionSpec>, FlagError> {
    if TrimSpace(part) == "" then Ok([])
    else match ParseToken(TrimSpace(part)) case Ok(s) => Ok([s]) case Err(e) => Err(e)
  }

  predicate GoodParts(parts: seq<string>) {
    forall k | 0 <= k < |parts| :: PartSpecs(parts[k]).Ok?
  }

  /** The specs of good parts, one after the other. */
  function SpecsOfParts(parts: seq<string>): seq<PartitionSpec>
    requires GoodParts(parts)
  {
    if parts == [] then []
    else
      var n := |parts| - 1;
      assert forall k | 0 <= k < n :: parts[..n][k] == parts[k];
      SpecsOfParts(parts[..n]) + PartSpecs(parts[n]).value
  }

  lemma {:induction false} GoodPartsRead(parts: seq<string>)
    requires GoodParts(parts)
    ensures ParseTokens(parts) == Ok(SpecsOfParts(parts))
  {
    if parts != [] {
      var n := |parts| - 1;
      assert forall k | 0 <= k < n :: parts[..n][k] == parts[k];
      GoodPartsRead(parts[..n]);
      assert PartSpecs(parts[n]).Ok?;
      assert SpecsOfParts(parts[..n]) + [] == SpecsOfParts(parts[..n]);
    }
  }

  /** If no part of the flag is bad, its specs are those of the parts, in order; blank parts add none, and
      a flag of blank parts only is rejected. */
  lemma {:induction false} GoodFlagReads(s: string)
    requires GoodParts(SplitOn(s, ','))
    ensures var specs := SpecsOfParts(SplitOn(s, ','));
            ParseSizes(s) == if specs == [] then Err(NoSizes) else Ok(specs)
  {
    GoodPartsRead(SplitOn(s, ','));
  }

  /** Otherwise the first bad part decides the error. */
  lemma {:induction false} FirstBadPartDecides(s: string, k: nat)
    requires var parts := SplitOn(s, ','); k < |parts| && PartSpecs(parts[k]).Err? && GoodParts(parts[..k])
    ensures ParseSizes(s) == Err(PartSpecs(SplitOn(s, ',')[k]).error)
  {
    BadPartStops(SplitOn(s, ','), k);
    ErrorStays(SplitOn(s, ','), k + 1);
  }

  lemma {:induction false} BadPartStops(parts: seq<string>, k: nat)
    requires k < |parts| && PartSpecs(parts[k]).Err? && GoodParts(parts[..k])
    ensures ParseTokens(parts[..k + 1]) == Err(PartSpecs(parts[k]).error)
  {
    GoodPartsRead(parts[..k]);
    assert parts[..k + 1][..k] == parts[..k] && parts[..k + 1][k] == parts[k];
  }
}
