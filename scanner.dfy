/**
 * The camera-structure finder: a buffer matcher with a hard-wired signature
 * pre-filter, the choice of memory regions to scan, the radius filter on raw
 * matches, and the scan that ties them to the selection strategy.
 *
 * Process memory is an abstract list of region records (the walk that
 * `virtual_query` produces) and two oracles: `readBytes(base, size)` for a
 * region's contents and `readFloat(address)` for one float; `None` is a read
 * that raised.
 */
module Scanner {
  import opened Common
  import opened PyText
  import opened Aob
  import opened Selection

  /** Offset of the byte the pre-filter looks at, and the value it wants there. */
  const SIGNATURE_OFFSET: nat := 11
  const SIGNATURE_BYTE: byte := 0x40
  /** Offset from a match to the camera's radius float. */
  const RADIUS_OFFSET: int := 0x34
  /** Regions above 150 MiB are not read. */
  const MAX_REGION_SIZE: int := 150 * 1024 * 1024
  const MEM_COMMIT: int := 0x1000
  const MEM_PRIVATE: int := 0x20000
  const PAGE_READWRITE: int := 0x04
  const PAGE_EXECUTE_READWRITE: int := 0x40

  // ---------------------------------------------------------------------------
  // The buffer matcher
  // ---------------------------------------------------------------------------

  /** What `find_pattern_in_buffer` does: a list of addresses, or an `IndexError`. */
  datatype MatchOutcome = Matches(addresses: seq<int>) | PatternTooShort

  /** Every position the mask checks holds the pattern's byte, with the pattern placed at `i`. */
  predicate MaskedMatchAt(pattern: seq<byte>, mask: seq<byte>, buffer: seq<byte>, i: int) {
    && 0 <= i
    && |mask| == |pattern|
    && i + |pattern| <= |buffer|
    && forall j :: 0 <= j < |pattern| && mask[j] == 1 ==> buffer[i + j] == pattern[j]
  }

  /** A position the matcher reports: it passes the `0x40` pre-filter and the masked check. */
  predicate IsHit(pattern: seq<byte>, mask: seq<byte>, buffer: seq<byte>, i: int) {
    && |pattern| > SIGNATURE_OFFSET
    && MaskedMatchAt(pattern, mask, buffer, i)
    && buffer[i + SIGNATURE_OFFSET] == SIGNATURE_BYTE
  }

  predicate Increasing(s: seq<int>) {
    forall i, j :: 0 <= i < j < |s| ==> s[i] < s[j]
  }

  /** `base + i` for every hit position `i < n`, in ascending order. */
  function Hits(pattern: seq<byte>, mask: seq<byte>, buffer: seq<byte>, base: int, n: nat): seq<int> {
    if n == 0 then []
    else Hits(pattern, mask, buffer, base, n - 1)
         + (if IsHit(pattern, mask, buffer, n - 1) then [base + n - 1] else [])
  }

  /** The outcome the matcher has on a buffer. */
  function MatchSpec(pattern: seq<byte>, mask: seq<byte>, buffer: seq<byte>, base: int): MatchOutcome {
    if |buffer| < |pattern| then Matches([])
    else if |pattern| <= SIGNATURE_OFFSET then PatternTooShort
    else Matches(Hits(pattern, mask, buffer, base, |buffer| - |pattern| + 1))
  }

  /** The positions below `n` whose byte at offset 11 is `0x40`, ascending (the first pass). */
  function SignaturePositions(buffer: seq<byte>, n: nat): (r: seq<int>)
    requires n == 0 || n + SIGNATURE_OFFSET <= |buffer|
    ensures forall k :: 0 <= k < |r| ==> 0 <= r[k] < n
  {
    if n == 0 then []
    else SignaturePositions(buffer, n - 1)
         + (if buffer[n - 1 + SIGNATURE_OFFSET] == SIGNATURE_BYTE then [n - 1] else [])
  }

  /** The positions of `sigs` where the masked check passes, as addresses (the second pass). */
  function Confirm(pattern: seq<byte>, mask: seq<byte>, buffer: seq<byte>, base: int, sigs: seq<int>): seq<int> {
    if sigs == [] then []
    else
      var i := sigs[|sigs| - 1];
      Confirm(pattern, mask, buffer, base, sigs[..|sigs| - 1])
      + (if MaskedMatchAt(pattern, mask, buffer, i) then [base + i] else [])
  }

  lemma ConfirmSnoc(pattern: seq<byte>, mask: seq<byte>, buffer: seq<byte>, base: int, sigs: seq<int>, i: int)
    ensures Confirm(pattern, mask, buffer, base, sigs + [i])
      == Confirm(pattern, mask, buffer, base, sigs)
         + (if MaskedMatchAt(pattern, mask, buffer, i) then [base + i] else [])
  {
    assert (sigs + [i])[..|sigs|] == sigs;
  }

  /** The two passes together find exactly the hits. */
  lemma {:induction false} ConfirmSignatures(pattern: seq<byte>, mask: seq<byte>, buffer: seq<byte>, base: int, n: nat)
    requires |pattern| > SIGNATURE_OFFSET && |mask| == |pattern|
    requires n <= |buffer| - |pattern| + 1
    ensures Confirm(pattern, mask, buffer, base, SignaturePositions(buffer, n)) == Hits(pattern, mask, buffer, base, n)
  {
    if n > 0 {
      ConfirmSignatures(pattern, mask, buffer, base, n - 1);
      var prev := SignaturePositions(buffer, n - 1);
      if buffer[n - 1 + SIGNATURE_OFFSET] == SIGNATURE_BYTE {
        ConfirmSnoc(pattern, mask, buffer, base, prev, n - 1);
      } else {
        assert SignaturePositions(buffer, n) == prev;
      }
    }
  }

  /** Soundness and completeness of `Hits`: exactly the hit positions below `n`. */
  lemma {:induction false} HitsMembers(pattern: seq<byte>, mask: seq<byte>, buffer: seq<byte>, base: int, n: nat)
    ensures forall a :: a in Hits(pattern, mask, buffer, base, n) <==>
      base <= a < base + n && IsHit(pattern, mask, buffer, a - base)
  {
    if n > 0 {
      HitsMembers(pattern, mask, buffer, base, n - 1);
    }
  }

  /** `Hits` is strictly increasing: addresses come out in scan order. */
  lemma {:induction false} HitsIncreasing(pattern: seq<byte>, mask: seq<byte>, buffer: seq<byte>, base: int, n: nat)
    ensures Increasing(Hits(pattern, mask, buffer, base, n))
  {
    if n > 0 {
      HitsIncreasing(pattern, mask, buffer, base, n - 1);
      HitsMembers(pattern, mask, buffer, base, n - 1);
      var prev := Hits(pattern, mask, buffer, base, n - 1);
      forall k | 0 <= k < |prev| ensures prev[k] < base + n - 1 {
        assert prev[k] in prev;
      }
    }
  }

  /**
   * What the matcher promises: nothing for a buffer shorter than the pattern;
   * an `IndexError` for a pattern of at most 11 bytes (offset 11 is read
   * unconditionally); otherwise exactly the hit positions, ascending.
   */
  lemma MatchSpecProperties(pattern: seq<byte>, mask: seq<byte>, buffer: seq<byte>, base: int)
    ensures |buffer| < |pattern| ==> MatchSpec(pattern, mask, buffer, base) == Matches([])
    ensures |buffer| >= |pattern| ==>
      (MatchSpec(pattern, mask, buffer, base) == PatternTooShort <==> |pattern| <= SIGNATURE_OFFSET)
    ensures MatchSpec(pattern, mask, buffer, base).Matches? ==>
      var found := MatchSpec(pattern, mask, buffer, base).addresses;
      && Increasing(found)
      && forall a :: a in found <==> IsHit(pattern, mask, buffer, a - base)
  {
    if |buffer| >= |pattern| > SIGNATURE_OFFSET {
      var n := |buffer| - |pattern| + 1;
      HitsMembers(pattern, mask, buffer, base, n);
      HitsIncreasing(pattern, mask, buffer, base, n);
    }
  }

  /** When the pattern itself checks `0x40` at offset 11, the pre-filter loses nothing. */
  lemma PrefilterComplete(pattern: seq<byte>, mask: seq<byte>, buffer: seq<byte>, base: int, i: int)
    requires |pattern| > SIGNATURE_OFFSET && |mask| == |pattern|
    requires mask[SIGNATURE_OFFSET] == 1 && pattern[SIGNATURE_OFFSET] == SIGNATURE_BYTE
    requires MaskedMatchAt(pattern, mask, buffer, i)
    ensures MatchSpec(pattern, mask, buffer, base).Matches?
    ensures base + i in MatchSpec(pattern, mask, buffer, base).addresses
  {
    assert buffer[i + SIGNATURE_OFFSET] == pattern[SIGNATURE_OFFSET];
    MatchSpecProperties(pattern, mask, buffer, base);
  }

  /**
   * When the pattern has a wildcard at offset 11 (as the per-camera
   * signatures of OpenRailsLink.py:427-430 do, which nothing passes to the
   * scanner), a buffer that holds a genuine match with any other byte there yields
   * no address at all.
   */
  lemma WildcardSignatureMisses(pattern: seq<byte>, mask: seq<byte>, base: int)
    requires |pattern| > SIGNATURE_OFFSET && |mask| == |pattern|
    requires mask[SIGNATURE_OFFSET] == 0
    ensures var buffer := seq(|pattern|, j requires 0 <= j < |pattern| =>
                              if j == SIGNATURE_OFFSET then 0 else pattern[j]);
      MaskedMatchAt(pattern, mask, buffer, 0) && MatchSpec(pattern, mask, buffer, base) == Matches([])
  {
    var buffer := seq(|pattern|, j requires 0 <= j < |pattern| =>
                      if j == SIGNATURE_OFFSET then 0 else pattern[j]);
    assert Hits(pattern, mask, buffer, base, 0) == [];
    assert !IsHit(pattern, mask, buffer, 0);
    assert Hits(pattern, mask, buffer, base, 1) == [];
  }

  // ---------------------------------------------------------------------------
  // Regions
  // ---------------------------------------------------------------------------

  /** One record of the region walk (`MEMORY_BASIC_INFORMATION`). */
  datatype Region = Region(baseAddress: int, regionSize: int, state: int, regionType: int, protect: int)

  predicate IsCommitted(r: Region) { r.state == MEM_COMMIT }
  predicate IsPrivate(r: Region) { r.regionType == MEM_PRIVATE }
  predicate IsWritable(r: Region) { r.protect == PAGE_READWRITE || r.protect == PAGE_EXECUTE_READWRITE }
  predicate IsReasonableSize(r: Region) { r.regionSize <= MAX_REGION_SIZE }

  /** The regions whose bytes are read and matched. */
  predicate IsScanned(r: Region) {
    IsCommitted(r) && IsPrivate(r) && IsWritable(r) && IsReasonableSize(r)
  }

  /** The regions the `elif` branch counts as skipped. */
  predicate IsCountedSkipped(r: Region) {
    !IsScanned(r) && IsCommitted(r) && IsWritable(r) && !IsReasonableSize(r)
  }

  /** Skipped means committed, writable and oversized, whatever the type; never also scanned. */
  lemma SkippedRegions(r: Region)
    ensures IsCountedSkipped(r) <==>
      r.state == 0x1000 && (r.protect == 4 || r.protect == 0x40) && r.regionSize > 150 * 1024 * 1024
    ensures !(IsScanned(r) && IsCountedSkipped(r))
    ensures IsScanned(r) <==>
      r.state == 0x1000 && r.regionType == 0x20000 && (r.protect == 4 || r.protect == 0x40)
      && r.regionSize <= 150 * 1024 * 1024
  {
  }

  function CountScanned(regions: seq<Region>): (n: nat)
    ensures n <= |regions|
  {
    if regions == [] then 0
    else CountScanned(regions[..|regions| - 1]) + (if IsScanned(regions[|regions| - 1]) then 1 else 0)
  }

  function CountSkipped(regions: seq<Region>): (n: nat)
    ensures n <= |regions|
  {
    if regions == [] then 0
    else CountSkipped(regions[..|regions| - 1]) + (if IsCountedSkipped(regions[|regions| - 1]) then 1 else 0)
  }

  /** The positions in the walk of the regions that are read and matched. */
  ghost function ScannedIndices(regions: seq<Region>): set<int> {
    set i | 0 <= i < |regions| && IsScanned(regions[i])
  }

  /** The positions in the walk of the regions counted as skipped. */
  ghost function SkippedIndices(regions: seq<Region>): set<int> {
    set i | 0 <= i < |regions| && IsCountedSkipped(regions[i])
  }

  /** The scanned counter is the number of regions of the walk that pass the region test. */
  lemma {:induction false} CountScannedMeans(regions: seq<Region>)
    ensures CountScanned(regions) == |ScannedIndices(regions)|
  {
    if regions != [] {
      var n := |regions| - 1;
      var pre := regions[..n];
      CountScannedMeans(pre);
      var last: set<int> := if IsScanned(regions[n]) then {n} else {};
      assert ScannedIndices(regions) == ScannedIndices(pre) + last by {
        forall i | 0 <= i < n ensures pre[i] == regions[i] { }
      }
      assert n !in ScannedIndices(pre);
    }
  }

  /** The skipped counter is the number of regions of the walk that the `elif` branch counts. */
  lemma {:induction false} CountSkippedMeans(regions: seq<Region>)
    ensures CountSkipped(regions) == |SkippedIndices(regions)|
  {
    if regions != [] {
      var n := |regions| - 1;
      var pre := regions[..n];
      CountSkippedMeans(pre);
      var last: set<int> := if IsCountedSkipped(regions[n]) then {n} else {};
      assert SkippedIndices(regions) == SkippedIndices(pre) + last by {
        forall i | 0 <= i < n ensures pre[i] == regions[i] { }
      }
      assert n !in SkippedIndices(pre);
    }
  }

  /** No region is counted twice: scanned plus skipped never exceeds the walk. */
  lemma {:induction false} CountsDisjoint(regions: seq<Region>)
    ensures CountScanned(regions) + CountSkipped(regions) <= |regions|
  {
    if regions != [] {
      CountsDisjoint(regions[..|regions| - 1]);
    }
  }

  // ---------------------------------------------------------------------------
  // Radius filter and the whole scan
  // ---------------------------------------------------------------------------

  /** A raw match is a camera when the float at `addr + 0x34` reads and lies strictly inside the threshold. */
  predicate RadiusOk(readFloat: int -> Option<real>, threshold: real, addr: int) {
    readFloat(addr + RADIUS_OFFSET).Some? && Abs(readFloat(addr + RADIUS_OFFSET).value) < threshold
  }

  function RadiusFilter(addrs: seq<int>, readFloat: int -> Option<real>, threshold: real): seq<int> {
    if addrs == [] then []
    else
      var a := addrs[|addrs| - 1];
      RadiusFilter(addrs[..|addrs| - 1], readFloat, threshold)
      + (if RadiusOk(readFloat, threshold, a) then [a] else [])
  }

  /** The raw matches of one region: none unless it is scanned, its read succeeds and the matcher returns. */
  function RegionMatches(pattern: seq<byte>, mask: seq<byte>, r: Region,
                         readBytes: (int, int) -> Option<seq<byte>>): seq<int> {
    if !IsScanned(r) then []
    else match readBytes(r.baseAddress, r.regionSize)
      case None => []
      case Some(buffer) =>
        match MatchSpec(pattern, mask, buffer, r.baseAddress)
        case Matches(found) => found
        case PatternTooShort => []
  }

  /** The candidates of a region walk, in discovery order. */
  function ScanCandidates(pattern: seq<byte>, mask: seq<byte>, threshold: real, regions: seq<Region>,
                          readBytes: (int, int) -> Option<seq<byte>>, readFloat: int -> Option<real>): seq<int> {
    if regions == [] then []
    else
      ScanCandidates(pattern, mask, threshold, regions[..|regions| - 1], readBytes, readFloat)
      + RadiusFilter(RegionMatches(pattern, mask, regions[|regions| - 1], readBytes), readFloat, threshold)
  }

  /** One more region of the walk: what it adds to the candidates and to the two counters. */
  lemma WalkStep(pattern: seq<byte>, mask: seq<byte>, threshold: real, regions: seq<Region>, idx: nat,
                 readBytes: (int, int) -> Option<seq<byte>>, readFloat: int -> Option<real>)
    requires idx < |regions|
    ensures var pre, next, r := regions[..idx], regions[..idx + 1], regions[idx];
      && ScanCandidates(pattern, mask, threshold, next, readBytes, readFloat)
         == ScanCandidates(pattern, mask, threshold, pre, readBytes, readFloat)
            + (if IsScanned(r) then RadiusFilter(RegionMatches(pattern, mask, r, readBytes), readFloat, threshold) else [])
      && CountScanned(next) == CountScanned(pre) + (if IsScanned(r) then 1 else 0)
      && CountSkipped(next) == CountSkipped(pre) + (if IsCountedSkipped(r) then 1 else 0)
  {
    assert regions[..idx + 1][..idx] == regions[..idx];
    assert regions[..idx + 1][idx] == regions[idx];
  }

  /** The radius filter keeps exactly the matches whose radius is inside the threshold. */
  lemma {:induction false} RadiusFilterMembers(addrs: seq<int>, readFloat: int -> Option<real>, threshold: real)
    ensures forall a :: a in RadiusFilter(addrs, readFloat, threshold) <==>
      a in addrs && RadiusOk(readFloat, threshold, a)
  {
    if addrs != [] {
      var init := addrs[..|addrs| - 1];
      RadiusFilterMembers(init, readFloat, threshold);
      assert addrs == init + [addrs[|addrs| - 1]];
    }
  }

  /** The radius filter keeps the order of the matches. */
  lemma {:induction false} RadiusFilterKeepsOrder(addrs: seq<int>, readFloat: int -> Option<real>, threshold: real)
    requires Increasing(addrs)
    ensures Increasing(RadiusFilter(addrs, readFloat, threshold))
  {
    if addrs != [] {
      var init := addrs[..|addrs| - 1];
      var last := addrs[|addrs| - 1];
      RadiusFilterKeepsOrder(init, readFloat, threshold);
      RadiusFilterMembers(init, readFloat, threshold);
      var prev := RadiusFilter(init, readFloat, threshold);
      forall k | 0 <= k < |prev| ensures prev[k] < last {
        assert prev[k] in prev;
        var i :| 0 <= i < |init| && init[i] == prev[k];
        assert addrs[i] == init[i];
      }
    }
  }

  /** A candidate is a radius-approved raw match of some region of the walk. */
  lemma {:induction false} CandidateMembers(pattern: seq<byte>, mask: seq<byte>, threshold: real, regions: seq<Region>,
                                            readBytes: (int, int) -> Option<seq<byte>>, readFloat: int -> Option<real>)
    ensures forall a :: a in ScanCandidates(pattern, mask, threshold, regions, readBytes, readFloat) <==>
      RadiusOk(readFloat, threshold, a)
      && exists k :: 0 <= k < |regions| && a in RegionMatches(pattern, mask, regions[k], readBytes)
  {
    if regions != [] {
      var init := regions[..|regions| - 1];
      var last := regions[|regions| - 1];
      CandidateMembers(pattern, mask, threshold, init, readBytes, readFloat);
      RadiusFilterMembers(RegionMatches(pattern, mask, last, readBytes), readFloat, threshold);
      forall a ensures a in ScanCandidates(pattern, mask, threshold, regions, readBytes, readFloat) <==>
        RadiusOk(readFloat, threshold, a)
        && exists k :: 0 <= k < |regions| && a in RegionMatches(pattern, mask, regions[k], readBytes)
      {
        if exists k :: 0 <= k < |regions| && a in RegionMatches(pattern, mask, regions[k], readBytes) {
          var k :| 0 <= k < |regions| && a in RegionMatches(pattern, mask, regions[k], readBytes);
          if k < |regions| - 1 {
            assert regions[k] == init[k];
          }
        }
        if exists k :: 0 <= k < |init| && a in RegionMatches(pattern, mask, init[k], readBytes) {
          var k :| 0 <= k < |init| && a in RegionMatches(pattern, mask, init[k], readBytes);
          assert regions[k] == init[k];
        }
      }
    }
  }

  /** A raw match only ever comes from a scanned region whose read succeeded, inside that buffer. */
  lemma RegionMatchesSound(pattern: seq<byte>, mask: seq<byte>, r: Region,
                           readBytes: (int, int) -> Option<seq<byte>>, a: int)
    requires a in RegionMatches(pattern, mask, r, readBytes)
    ensures IsScanned(r) && readBytes(r.baseAddress, r.regionSize).Some?
    ensures IsHit(pattern, mask, readBytes(r.baseAddress, r.regionSize).value, a - r.baseAddress)
  {
    var buffer := readBytes(r.baseAddress, r.regionSize).value;
    var outcome := MatchSpec(pattern, mask, buffer, r.baseAddress);
    assert outcome.Matches? && a in outcome.addresses;
    MatchSpecProperties(pattern, mask, buffer, r.baseAddress);
  }

  /** The line the scanner prints for each address it reports. */
  function Announcement(cameraType: string, addr: int): string {
    "FOUND_ADDRESS: " + cameraType + ": " + Hex(addr)
  }

  /** One announcement per address, in order. */
  function Announcements(cameraType: string, addrs: seq<int>): (lines: seq<string>)
    ensures |lines| == |addrs|
  {
    if addrs == [] then [] else Announcements(cameraType, addrs[..|addrs| - 1]) + [Announcement(cameraType, addrs[|addrs| - 1])]
  }

  lemma {:induction false} AnnouncementsAt(cameraType: string, addrs: seq<int>, k: nat)
    requires k < |addrs|
    ensures Announcements(cameraType, addrs)[k] == Announcement(cameraType, addrs[k])
  {
    if k < |addrs| - 1 {
      AnnouncementsAt(cameraType, addrs[..|addrs| - 1], k);
    }
  }

  lemma {:induction false} AnnouncementsConcat(cameraType: string, a: seq<int>, b: seq<int>)
    ensures Announcements(cameraType, a + b) == Announcements(cameraType, a) + Announcements(cameraType, b)
    decreases |b|
  {
    if b != [] {
      var b' := b[..|b| - 1];
      assert (a + b)[..|a + b| - 1] == a + b';
      AnnouncementsConcat(cameraType, a, b');
    } else {
      assert a + b == a;
    }
  }

  /** The lines printed so far, followed by one region's lines, are the lines of all candidates so far. */
  function AnnounceFound(cameraType: string, immediate: seq<string>, candidates: seq<int>, found: seq<int>)
    : (lines: seq<string>)
    requires immediate == Announcements(cameraType, candidates)
    ensures lines == Announcements(cameraType, candidates + found)
  {
    AnnouncementsConcat(cameraType, candidates, found);
    immediate + Announcements(cameraType, found)
  }

  // ---------------------------------------------------------------------------
  // The scanner object
  // ---------------------------------------------------------------------------

  class CameraScanner {
    const cameraType: string
    const pattern: seq<byte>
    const mask: seq<byte>
    const radiusThreshold: real

    predicate Valid() {
      |pattern| == |mask|
    }

    /** The camera type is upper-cased and the signature compiled once, at construction. */
    constructor (cameraType: string, aob: string, radiusThreshold: real)
      ensures Valid()
      ensures this.cameraType == Upper(cameraType) && this.radiusThreshold == radiusThreshold
      ensures |pattern| == |Split(aob)|
      ensures forall k :: 0 <= k < |pattern| ==> (pattern[k], mask[k]) == CompileToken(Split(aob)[k])
    {
      this.cameraType := Upper(cameraType);
      var p, m := CompileAob(aob);
      pattern, mask := p, m;
      this.radiusThreshold := radiusThreshold;
    }

    /** The masked check at one position, stopping at the first mismatch. */
    method MatchesAt(buffer: seq<byte>, i: nat) returns (isMatch: bool)
      requires Valid() && i + |pattern| <= |buffer|
      ensures isMatch <==> MaskedMatchAt(pattern, mask, buffer, i)
    {
      isMatch := true;
      var j := 0;
      while j < |pattern|
        invariant 0 <= j <= |pattern|
        invariant forall jj :: 0 <= jj < j && mask[jj] == 1 ==> buffer[i + jj] == pattern[jj]
      {
        if mask[j] == 1 && buffer[i + j] != pattern[j] {
          isMatch := false;
          break;
        }
        j := j + 1;
      }
    }

    /** `find_pattern_in_buffer`: a signature pass on offset 11, then a masked check at each survivor. */
    method FindPatternInBuffer(buffer: seq<byte>, baseAddress: int) returns (r: MatchOutcome)
      requires Valid()
      ensures r == MatchSpec(pattern, mask, buffer, baseAddress)
    {
      if |buffer| < |pattern| {
        return Matches([]);
      }
      var sigs, tooShort := SignaturePass(buffer);
      if tooShort {
        return PatternTooShort;
      }
      ConfirmSignatures(pattern, mask, buffer, baseAddress, |buffer| - |pattern| + 1);
      if |sigs| == 0 {
        return Matches([]);
      }
      var matches := ConfirmPass(buffer, baseAddress, sigs);
      return Matches(matches);
    }

    /**
     * The first pass: every start position whose byte at offset 11 is `0x40`.
     * The byte is read without a bound check, so a pattern of at most 11
     * bytes runs off the end of the buffer (the `IndexError`).
     */
    method SignaturePass(buffer: seq<byte>) returns (sigs: seq<int>, tooShort: bool)
      requires Valid() && |pattern| <= |buffer|
      ensures tooShort <==> |pattern| <= SIGNATURE_OFFSET
      ensures !tooShort ==> sigs == SignaturePositions(buffer, |buffer| - |pattern| + 1)
    {
      var bufLen, patLen := |buffer|, |pattern|;
      sigs := [];
      var i := 0;
      while i < bufLen - patLen + 1
        invariant 0 <= i <= bufLen - patLen + 1
        invariant i == 0 || i + SIGNATURE_OFFSET <= bufLen
        invariant sigs == SignaturePositions(buffer, i)
      {
        if i + SIGNATURE_OFFSET >= bufLen {
          return sigs, true;
        }
        if buffer[i + SIGNATURE_OFFSET] == SIGNATURE_BYTE {
          sigs := sigs + [i];
        }
        i := i + 1;
      }
      return sigs, false;
    }

    /** The second pass: the masked check at each signature position, in order. */
    method ConfirmPass(buffer: seq<byte>, baseAddress: int, sigs: seq<int>) returns (matches: seq<int>)
      requires Valid()
      requires forall k :: 0 <= k < |sigs| ==> 0 <= sigs[k] && sigs[k] + |pattern| <= |buffer|
      ensures matches == Confirm(pattern, mask, buffer, baseAddress, sigs)
    {
      matches := [];
      var k := 0;
      while k < |sigs|
        invariant 0 <= k <= |sigs|
        invariant matches == Confirm(pattern, mask, buffer, baseAddress, sigs[..k])
      {
        var s := sigs[k];
        var isMatch := MatchesAt(buffer, s);
        assert sigs[..k + 1] == sigs[..k] + [s];
        ConfirmSnoc(pattern, mask, buffer, baseAddress, sigs[..k], s);
        if isMatch {
          matches := matches + [baseAddress + s];
        }
        k := k + 1;
      }
      assert sigs[..k] == sigs;
    }

    /**
     * The body of `smart_scan` for one region that passed the region test:
     * read it, match it, and keep the matches whose radius is inside the
     * threshold. A failed read or an `IndexError` from the matcher drops the
     * whole region.
     */
    method ScanRegion(r: Region, readBytes: (int, int) -> Option<seq<byte>>, readFloat: int -> Option<real>)
      returns (found: seq<int>)
      requires Valid() && IsScanned(r)
      ensures found == RadiusFilter(RegionMatches(pattern, mask, r, readBytes), readFloat, radiusThreshold)
    {
      found := [];
      var read := readBytes(r.baseAddress, r.regionSize);
      if read.None? {
        return;
      }
      var outcome := FindPatternInBuffer(read.value, r.baseAddress);
      if outcome.PatternTooShort? {
        return;
      }
      var raw := outcome.addresses;
      var t := 0;
      while t < |raw|
        invariant 0 <= t <= |raw|
        invariant found == RadiusFilter(raw[..t], readFloat, radiusThreshold)
      {
        var addr := raw[t];
        assert raw[..t + 1][..t] == raw[..t];
        var radius := readFloat(addr + RADIUS_OFFSET);
        if radius.Some? && Abs(radius.value) < radiusThreshold {
          found := found + [addr];
        }
        t := t + 1;
      }
      assert raw[..t] == raw;
    }

    /**
     * `smart_scan` over a region walk: the candidates, the scanned and
     * skipped counts, and the `FOUND_ADDRESS` lines printed (one per
     * candidate as it is found, then all of them again at the end).
     */
    method SmartScan(regions: seq<Region>, readBytes: (int, int) -> Option<seq<byte>>,
                     readFloat: int -> Option<real>)
      returns (candidates: seq<int>, scanned: nat, skipped: nat, announced: seq<string>)
      requires Valid()
      ensures candidates == ScanCandidates(pattern, mask, radiusThreshold, regions, readBytes, readFloat)
      ensures scanned == CountScanned(regions) && skipped == CountSkipped(regions)
      ensures announced == Announcements(cameraType, candidates) + Announcements(cameraType, candidates)
    {
      candidates, scanned, skipped := [], 0, 0;
      var immediate: seq<string> := [];
      var idx := 0;
      while idx < |regions|
        invariant 0 <= idx <= |regions|
        invariant candidates == ScanCandidates(pattern, mask, radiusThreshold, regions[..idx], readBytes, readFloat)
        invariant scanned == CountScanned(regions[..idx]) && skipped == CountSkipped(regions[..idx])
        invariant immediate == Announcements(cameraType, candidates)
      {
        var r := regions[idx];
        WalkStep(pattern, mask, radiusThreshold, regions, idx, readBytes, readFloat);
        if IsScanned(r) {
          scanned := scanned + 1;
          var found := ScanRegion(r, readBytes, readFloat);
          immediate, candidates := AnnounceFound(cameraType, immediate, candidates, found), candidates + found;
        } else if IsCountedSkipped(r) {
          skipped := skipped + 1;
        }
        idx := idx + 1;
      }
      assert regions[..idx] == regions;
      announced := immediate + Announcements(cameraType, candidates);
    }

    /**
     * `scan_for_address`: the scan, then the selection strategy; on success
     * the chosen address is announced once more.
     */
    method ScanForAddress(regions: seq<Region>, readBytes: (int, int) -> Option<seq<byte>>,
                          readFloat: int -> Option<real>)
      returns (target: Option<int>, announced: seq<string>)
      requires Valid()
      ensures var c := ScanCandidates(pattern, mask, radiusThreshold, regions, readBytes, readFloat);
        && target == SelectAddress(cameraType, c)
        && announced == Announcements(cameraType, c) + Announcements(cameraType, c)
                        + (if target.Some? then [Announcement(cameraType, target.value)] else [])
    {
      var candidates, scanned, skipped, lines := SmartScan(regions, readBytes, readFloat);
      target := ChooseTarget(candidates);
      announced := lines;
      if target.Some? {
        announced := announced + [Announcement(cameraType, target.value)];
      }
    }

    /** The strategy part of `scan_for_address`: by camera type, with 0 as failure. */
    method ChooseTarget(candidates: seq<int>) returns (target: Option<int>)
      ensures target == SelectAddress(cameraType, candidates)
    {
      if |candidates| == 0 {
        return None;
      }
      var targetAddress := 0;
      if cameraType == "CAB" {
        targetAddress := Max(candidates);
      } else if cameraType == "INTERIOR" {
        if |candidates| >= 2 {
          var sorted := Sort(candidates);
          targetAddress := sorted[|sorted| - 2];
        } else {
          targetAddress := candidates[0];
        }
      } else if cameraType == "EXTERNAL" {
        if |candidates| >= 2 {
          var sorted := Sort(candidates);
          targetAddress := sorted[0];
        } else {
          targetAddress := candidates[0];
        }
      }
      if targetAddress != 0 {
        return Some(targetAddress);
      }
      return None;
    }
  }
}
