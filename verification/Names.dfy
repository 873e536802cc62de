/** Names that one file prints and another reads or compares: device names, partition ids and
    resctrl group names. */
module Names {
  import opened Options
  import opened Text

  // ---- Device names --------------------------------------------------------------------------

  /** A structured-mode device, as `buildStructuredDevices` names it. */
  function CacheWayName(cacheID: int, ways: int): string {
    "cache" + PrintInt(cacheID) + "-" + PrintInt(ways) + "way"
  }

  /** The three kinds of basic-mode devices. */
  datatype DeviceKind = CacheDevice | MBADevice | SMBADevice

  function KindWord(kind: DeviceKind): string {
    match kind
    case CacheDevice => "cache"
    case MBADevice => "mba"
    case SMBADevice => "smba"
  }

  function DeviceName(kind: DeviceKind, cacheID: int, index: int): string {
    KindWord(kind) + (PrintInt(cacheID) + "-" + ("part" + PrintInt(index)))
  }

  datatype NameError = NotCacheWay | Malformed | BadCacheID | BadWays

  /** `parseCacheWayDeviceName` */
  function ParseCacheWayName(name: string): Result<(int, int), NameError> {
    if !HasPrefix(name, "cache") || !HasSuffix(name, "way") then Err(NotCacheWay)
    else
      var inner := name[5..];
      var body := if HasSuffix(inner, "way") then inner[..|inner| - 3] else inner;
      match Cut(body, '-')
      case None => Err(Malformed)
      case Some((id, count)) =>
        match Atoi(id)
        case None => Err(BadCacheID)
        case Some(cacheID) =>
          match Atoi(count)
          case None => Err(BadWays)
          case Some(ways) => Ok((cacheID, ways))
  }

  lemma {:induction false} ParsePrinted(id: string, count: string)
    requires '-' !in id
    ensures ParseCacheWayName("cache" + id + "-" + count + "way")
            == if Atoi(id).None? then Err(BadCacheID)
               else if Atoi(count).None? then Err(BadWays)
               else Ok((Atoi(id).value, Atoi(count).value))
  {
    var name := "cache" + id + "-" + count + "way";
    assert name == "cache" + (id + "-" + count + "way");
    assert name[5..] == (id + ['-'] + count) + "way";
    assert name[5..][..|name[5..]| - 3] == id + ['-'] + count;
    CutFirst(id, '-', count);
  }

  lemma {:induction false} NoHyphen(n: nat)
    ensures '-' !in PrintInt(n)
  {
    PrintIntChars(n);
  }

  /** The name of a structured device reads back as its cache id and way count exactly when the
      cache id is not negative; a negative id is rejected. */
  lemma {:induction false} CacheWayRoundTrip(cacheID: int, ways: int)
    requires IsInt64(cacheID) && IsInt64(ways)
    ensures cacheID >= 0 ==> ParseCacheWayName(CacheWayName(cacheID, ways)) == Ok((cacheID, ways))
    ensures cacheID < 0 ==> ParseCacheWayName(CacheWayName(cacheID, ways)) == Err(BadCacheID)
  {
    if cacheID >= 0 {
      NoHyphen(cacheID);
      AtoiPrintInt(cacheID);
      AtoiPrintInt(ways);
      ParsePrinted(PrintInt(cacheID), PrintInt(ways));
    }
  }

  lemma {:induction false} CacheWayParts(name: string) returns (id: string, count: string)
    requires ParseCacheWayName(name).Ok?
    ensures name == "cache" + id + "-" + count + "way" && '-' !in id
    ensures Atoi(id) == Some(ParseCacheWayName(name).value.0) && Atoi(count) == Some(ParseCacheWayName(name).value.1)
  {
    var inner := name[5..];
    assert |name| >= 8 by {
      assert name[|name| - 3..][0] == 'w' && name[|name| - 3] == 'w';
      assert name[..5] == "cache";
    }
    assert inner[|inner| - 3..] == name[|name| - 3..];
    var body := inner[..|inner| - 3];
    CutMeaning(body, '-');
    id, count := Cut(body, '-').value.0, Cut(body, '-').value.1;
    assert name == "cache" + inner && inner == body + "way";
    assert name == "cache" + (id + ['-'] + count) + "way";
  }

  /** A name is read exactly when it is `cache`, a number, a hyphen, a number and `way`. */
  lemma {:induction false} CacheWayReadExactly(name: string, cacheID: int, ways: int)
    ensures ParseCacheWayName(name) == Ok((cacheID, ways))
            <==> exists id, count :: name == "cache" + id + "-" + count + "way" && '-' !in id
                                     && Atoi(id) == Some(cacheID) && Atoi(count) == Some(ways)
  {
    if ParseCacheWayName(name) == Ok((cacheID, ways)) {
      var id, count := CacheWayParts(name);
    }
    if id, count :| name == "cache" + id + "-" + count + "way" && '-' !in id
                    && Atoi(id) == Some(cacheID) && Atoi(count) == Some(ways) {
      ParsePrinted(id, count);
    }
  }

  /** No basic-mode device name is mistaken for a structured one. */
  lemma {:induction false} BasicNamesRejected(kind: DeviceKind, cacheID: int, index: int)
    ensures ParseCacheWayName(DeviceName(kind, cacheID, index)) == Err(NotCacheWay)
  {
    var name := DeviceName(kind, cacheID, index);
    var tail := PrintInt(index);
    PrintIntChars(index);
    assert name[|name| - 1] == tail[|tail| - 1];
    assert tail[|tail| - 1] in tail;
  }

  // ---- Injectivity ---------------------------------------------------------------------------

  lemma {:induction false} DigitsThenHyphen(a: nat, x: string, b: nat, y: string)
    requires PrintNat(a, 10) + ['-'] + x == PrintNat(b, 10) + ['-'] + y
    ensures a == b && x == y
  {
    PrintNatDigits(a, 10);
    PrintNatDigits(b, 10);
    CutFirst(PrintNat(a, 10), '-', x);
    CutFirst(PrintNat(b, 10), '-', y);
    PrintNatInjective(a, b, 10);
  }

  lemma {:induction false} SignShows(n: int, x: string)
    ensures (PrintInt(n) + "-" + x)[0] == '-' <==> n < 0
    ensures n < 0 ==> (PrintInt(n) + "-" + x)[1..] == PrintNat(-n, 10) + ['-'] + x
    ensures n >= 0 ==> PrintInt(n) + "-" + x == PrintNat(n, 10) + ['-'] + x
  {
    SignOf(n);
    assert (PrintInt(n) + "-" + x)[0] == PrintInt(n)[0];
  }

  /** A printed integer followed by a hyphen can be told from what follows. */
  lemma {:induction false} NumberThenHyphen(a: int, x: string, b: int, y: string)
    requires PrintInt(a) + "-" + x == PrintInt(b) + "-" + y
    ensures a == b && x == y
  {
    SignShows(a, x);
    SignShows(b, y);
    var m: nat, n: nat := if a < 0 then -a else a, if b < 0 then -b else b;
    assert PrintNat(m, 10) + ['-'] + x == PrintNat(n, 10) + ['-'] + y;
    DigitsThenHyphen(m, x, n, y);
  }

  /** Device names determine their kind, cache id and index. */
  lemma {:induction false} DeviceNameInjective(k1: DeviceKind, c1: int, i1: int, k2: DeviceKind, c2: int, i2: int)
    requires DeviceName(k1, c1, i1) == DeviceName(k2, c2, i2)
    ensures k1 == k2 && c1 == c2 && i1 == i2
  {
    var name := DeviceName(k1, c1, i1);
    assert name[0] == KindWord(k1)[0] && name[0] == KindWord(k2)[0];
    var n := |KindWord(k1)|;
    assert name[n..] == PrintInt(c1) + "-" + ("part" + PrintInt(i1));
    assert name[n..] == PrintInt(c2) + "-" + ("part" + PrintInt(i2));
    NumberThenHyphen(c1, "part" + PrintInt(i1), c2, "part" + PrintInt(i2));
    assert ("part" + PrintInt(i1))[4..] == PrintInt(i1) && ("part" + PrintInt(i2))[4..] == PrintInt(i2);
    PrintIntInjective(i1, i2);
  }

  // ---- Group names ---------------------------------------------------------------------------

  /** `strings.ReplaceAll(uid, "-", "")` */
  function SanitizeUID(uid: string): string {
    if uid == "" then ""
    else if uid[0] == '-' then SanitizeUID(uid[1..])
    else [uid[0]] + SanitizeUID(uid[1..])
  }

  function GroupName(cacheID: int, uid: string): string {
    "dra-c" + (PrintInt(cacheID) + "-" + SanitizeUID(uid))
  }

  /** UUID text as in section 4 of RFC 9562: hyphens at four fixed positions and nowhere else. */
  predicate IsUUID(uid: string) {
    |uid| == 36 && forall i | 0 <= i < 36 :: uid[i] == '-' <==> i in {8, 13, 18, 23}
  }

  lemma {:induction false} SanitizeConcat(a: string, b: string)
    ensures SanitizeUID(a + b) == SanitizeUID(a) + SanitizeUID(b)
  {
    if a == "" {
      assert a + b == b;
    } else {
      assert (a + b)[1..] == a[1..] + b;
      SanitizeConcat(a[1..], b);
    }
  }

  lemma {:induction false} SanitizePlain(s: string)
    requires '-' !in s
    ensures SanitizeUID(s) == s
  {
    if s != "" { SanitizePlain(s[1..]); }
  }

  lemma {:induction false} SanitizeBlock(uid: string, lo: nat, hi: nat)
    requires lo < hi <= |uid| && '-' !in uid[lo..hi]
    requires hi == |uid| || uid[hi] == '-'
    ensures SanitizeUID(uid[lo..]) == uid[lo..hi] + if hi < |uid| then SanitizeUID(uid[hi + 1..]) else ""
  {
    SanitizePlain(uid[lo..hi]);
    assert uid[lo..] == uid[lo..hi] + uid[hi..];
    SanitizeConcat(uid[lo..hi], uid[hi..]);
    if hi < |uid| { assert uid[hi..][1..] == uid[hi + 1..]; }
  }

  lemma {:induction false} SanitizeTail(uid: string)
    requires IsUUID(uid)
    ensures SanitizeUID(uid[19..]) == uid[19..23] + uid[24..]
  {
    SanitizeBlock(uid, 24, 36);
    SanitizeBlock(uid, 19, 23);
    assert uid[24..36] == uid[24..];
  }

  lemma {:induction false} SanitizeMiddle(uid: string)
    requires IsUUID(uid)
    ensures SanitizeUID(uid[9..]) == uid[9..13] + (uid[14..18] + (uid[19..23] + uid[24..]))
  {
    SanitizeTail(uid);
    SanitizeBlock(uid, 14, 18);
    SanitizeBlock(uid, 9, 13);
  }

  lemma {:induction false} SanitizeUUID(uid: string)
    requires IsUUID(uid)
    ensures SanitizeUID(uid) == uid[..8] + (uid[9..13] + (uid[14..18] + (uid[19..23] + uid[24..])))
  {
    SanitizeMiddle(uid);
    SanitizeBlock(uid, 0, 8);
    assert uid[0..] == uid && uid[0..8] == uid[..8];
  }

  /** Two claims with UUID text as their UIDs never share a group name, in any two domains. */
  lemma {:induction false} GroupNameInjective(c1: int, u1: string, c2: int, u2: string)
    requires IsUUID(u1) && IsUUID(u2)
    requires GroupName(c1, u1) == GroupName(c2, u2)
    ensures c1 == c2 && u1 == u2
  {
    var s1, s2 := SanitizeUID(u1), SanitizeUID(u2);
    assert GroupName(c1, u1)[5..] == PrintInt(c1) + "-" + s1;
    assert GroupName(c2, u2)[5..] == PrintInt(c2) + "-" + s2;
    NumberThenHyphen(c1, s1, c2, s2);
    SanitizeUUID(u1);
    SanitizeUUID(u2);
    SameBlocks(u1, u2);
  }

  lemma {:induction false} SameBlocks(u1: string, u2: string)
    requires IsUUID(u1) && IsUUID(u2)
    requires u1[..8] + (u1[9..13] + (u1[14..18] + (u1[19..23] + u1[24..])))
             == u2[..8] + (u2[9..13] + (u2[14..18] + (u2[19..23] + u2[24..])))
    ensures u1 == u2
  {
    var t1, t2 := u1[9..13] + (u1[14..18] + (u1[19..23] + u1[24..])), u2[9..13] + (u2[14..18] + (u2[19..23] + u2[24..]));
    SplitEqual(u1[..8], t1, u2[..8], t2);
    SplitEqual(u1[9..13], u1[14..18] + (u1[19..23] + u1[24..]), u2[9..13], u2[14..18] + (u2[19..23] + u2[24..]));
    SplitEqual(u1[14..18], u1[19..23] + u1[24..], u2[14..18], u2[19..23] + u2[24..]);
    SplitEqual(u1[19..23], u1[24..], u2[19..23], u2[24..]);
    forall i | 0 <= i < 36 ensures u1[i] == u2[i] {
      if i < 8 { assert u1[..8][i] == u2[..8][i]; }
      else if 9 <= i < 13 { assert u1[9..13][i - 9] == u2[9..13][i - 9]; }
      else if 14 <= i < 18 { assert u1[14..18][i - 14] == u2[14..18][i - 14]; }
      else if 19 <= i < 23 { assert u1[19..23][i - 19] == u2[19..23][i - 19]; }
      else if 24 <= i { assert u1[24..][i - 24] == u2[24..][i - 24]; }
    }
  }

  lemma {:induction false} SplitEqual(a: string, x: string, b: string, y: string)
    requires |a| == |b| && a + x == b + y
    ensures a == b && x == y
  {
    assert (a + x)[..|a|] == a && (b + y)[..|a|] == b;
    assert (a + x)[|a|..] == x && (b + y)[|a|..] == y;
  }
}
