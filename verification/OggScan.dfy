/** Reading the length of an Opus file from its Ogg pages (common/audio.go). The
    page layout is that of section 6 of RFC 3533. */
module OggScan {
  import opened Basics

  type Byte = b: int | 0 <= b < 256

  type Bytes = seq<Byte>

  const HEADER := 27
  const SAMPLE_RATE := 48000.0
  const HALF := 0x8000_0000_0000_0000
  const WHOLE := 0x1_0000_0000_0000_0000

  /** The capture pattern "OggS". */
  const CAPTURE: Bytes := [0x4F, 0x67, 0x67, 0x53]

  // ----- Little-endian numbers ----------------------------------------------

  function Value(bytes: Bytes): nat {
    if bytes == [] then 0 else bytes[0] + 256 * Value(bytes[1..])
  }

  function Power(n: nat): nat {
    if n == 0 then 1 else 256 * Power(n - 1)
  }

  function LittleEndian(v: nat, n: nat): (r: Bytes)
    ensures |r| == n
  {
    if n == 0 then [] else [v % 256] + LittleEndian(v / 256, n - 1)
  }

  lemma {:induction false} ValueOfLittleEndian(v: nat, n: nat)
    requires v < Power(n)
    ensures Value(LittleEndian(v, n)) == v
  {
    if n > 0 {
      ValueOfLittleEndian(v / 256, n - 1);
      assert LittleEndian(v, n)[1..] == LittleEndian(v / 256, n - 1);
    }
  }

  lemma {:induction false} EightBytes()
    ensures Power(8) == WHOLE
  {
    assert Power(2) == 65536;
    assert Power(4) == 65536 * 65536;
    assert Power(6) == 65536 * Power(4);
  }

  /** The 64-bit pattern read as a signed number, and back. */
  function Signed(u: nat): int {
    if u >= HALF then u - WHOLE else u
  }

  function Unsigned(g: int): nat
    requires -HALF <= g < HALF
  {
    if g < 0 then g + WHOLE else g
  }

  // ----- The scan -----------------------------------------------------------

  predicate Captured(data: Bytes, at: nat)
    requires at + HEADER <= |data|
  {
    data[at..at + 4] == CAPTURE
  }

  function GranuleAt(data: Bytes, at: nat): int
    requires at + HEADER <= |data|
  {
    Signed(Value(data[at + 6..at + 14]))
  }

  function Sum(table: Bytes): nat {
    if table == [] then 0 else table[0] + Sum(table[1..])
  }

  /** Where the scan reads next after the header at this offset, unless the segment
      table is cut off. */
  function NextAfter(data: Bytes, at: nat): (r: Option<nat>)
    requires at + HEADER <= |data|
    ensures r.Some? ==> r.value >= at + HEADER
  {
    var n := data[at + 26];
    if at + HEADER + n > |data| then None
    else Some(at + HEADER + n + Sum(data[at + HEADER..at + HEADER + n]))
  }

  function Distance(data: Bytes, at: nat): nat {
    if at < |data| then |data| - at else 0
  }

  /** The offsets taken for page headers, in order. */
  function Visited(data: Bytes, at: nat): seq<nat>
    decreases Distance(data, at)
  {
    if at + HEADER > |data| then []
    else if !Captured(data, at) then Visited(data, at + 1)
    else
      var next := NextAfter(data, at);
      [at] + if next.None? then [] else Visited(data, next.value)
  }

  /** The greatest granule position at the given headers, at least the given start. */
  function Greatest(data: Bytes, headers: seq<nat>, best: int): (r: int)
    requires forall i :: 0 <= i < |headers| ==> headers[i] + HEADER <= |data|
    ensures r >= best
    ensures forall i :: 0 <= i < |headers| ==> GranuleAt(data, headers[i]) <= r
    ensures r == best || exists i :: 0 <= i < |headers| && GranuleAt(data, headers[i]) == r
  {
    if headers == [] then best
    else
      var r := Greatest(data, headers[1..], Max(best, GranuleAt(data, headers[0])));
      assert forall i :: 1 <= i < |headers| ==> headers[i] == headers[1..][i - 1];
      r
  }

  lemma {:induction false} VisitedFit(data: Bytes, at: nat)
    ensures forall i :: 0 <= i < |Visited(data, at)| ==> Visited(data, at)[i] + HEADER <= |data|
    decreases Distance(data, at)
  {
    if at + HEADER <= |data| {
      if !Captured(data, at) {
        VisitedFit(data, at + 1);
      } else if NextAfter(data, at).Some? {
        VisitedFit(data, NextAfter(data, at).value);
      }
    }
  }

  /** The scan by offset and greatest granule position so far. */
  function Scan(data: Bytes, at: nat, total: int): int
    decreases Distance(data, at)
  {
    if at + HEADER > |data| then total
    else if !Captured(data, at) then Scan(data, at + 1, total)
    else
      var next := NextAfter(data, at);
      var more := Max(total, GranuleAt(data, at));
      if next.None? then more else Scan(data, next.value, more)
  }

  ghost predicate AllFit(data: Bytes, headers: seq<nat>) {
    forall i :: 0 <= i < |headers| ==> headers[i] + HEADER <= |data|
  }

  /** The scan computes the greatest granule position of the headers it visits. */
  lemma {:induction false} ScanIsGreatest(data: Bytes, at: nat, total: int)
    ensures AllFit(data, Visited(data, at))
    ensures Scan(data, at, total) == Greatest(data, Visited(data, at), total)
    decreases Distance(data, at)
  {
    VisitedFit(data, at);
    if at + HEADER <= |data| {
      if !Captured(data, at) {
        ScanIsGreatest(data, at + 1, total);
      } else {
        var next := NextAfter(data, at);
        var rest := if next.None? then [] else Visited(data, next.value);
        assert Visited(data, at)[1..] == rest;
        if next.Some? {
          ScanIsGreatest(data, next.value, Max(total, GranuleAt(data, at)));
        }
      }
    }
  }

  lemma {:induction false} HeaderIsTaken(data: Bytes, at: nat, total: int)
    requires at + HEADER <= |data| && Captured(data, at)
    ensures var next, more := NextAfter(data, at), Max(total, GranuleAt(data, at));
            Scan(data, at, total) == if next.None? then more else Scan(data, next.value, more)
  {
  }

  /** The duration in seconds. The file is read whole: a read delivers all it can. */
  method OpusDuration(data: Bytes) returns (duration: real)
    ensures duration == Scan(data, 0, 0) as real / SAMPLE_RATE
  {
    var at := 0;
    var total := 0;
    while true
      invariant at >= 0 && Scan(data, at, total) == Scan(data, 0, 0)
      decreases Distance(data, at)
    {
      var n := if at >= |data| then 0 else if |data| - at < HEADER then |data| - at else HEADER;
      if n < HEADER {
        break;
      }
      if data[at..at + 4] != CAPTURE {
        at := at + HEADER - 26;
        continue;
      }
      HeaderIsTaken(data, at, total);
      var next;
      total, next := TakePage(data, at, total);
      if next.None? {
        break;
      }
      at := next.value;
    }
    return total as real / SAMPLE_RATE;
  }

  /** One page of the loop: its granule position counts even if its table is cut off. */
  method TakePage(data: Bytes, at: nat, total: int) returns (more: int, next: Option<nat>)
    requires at + HEADER <= |data|
    ensures more == Max(total, GranuleAt(data, at)) && next == NextAfter(data, at)
  {
    more := total;
    var granule := Signed(Value(data[at + 6..at + 14]));
    if granule > more {
      more := granule;
    }
    var segments := data[at + 26];
    if at + HEADER + segments > |data| {
      return more, None;
    }
    var size := TableSize(data[at + HEADER..at + HEADER + segments]);
    next := Some(at + HEADER + segments + size);
  }

  method TableSize(table: Bytes) returns (size: nat)
    ensures size == Sum(table)
  {
    size := 0;
    var i := 0;
    while i < |table|
      invariant 0 <= i <= |table| && Sum(table) == size + Sum(table[i..])
    {
      assert table[i..][1..] == table[i + 1..];
      size := size + table[i];
      i := i + 1;
    }
  }

  // ----- Files made of pages ------------------------------------------------

  /** Fields after the granule position: serial number, sequence number, checksum. */
  datatype Page = Page(version: Byte, flags: Byte, granule: int, serials: Bytes, table: Bytes, body: Bytes)

  ghost predicate WellFormed(p: Page) {
    -HALF <= p.granule < HALF && |p.serials| == 12 && |p.table| < 256 && |p.body| == Sum(p.table)
  }

  function Head(p: Page): (r: Bytes)
    requires WellFormed(p)
    ensures |r| == HEADER
  {
    CAPTURE + [p.version, p.flags] + LittleEndian(Unsigned(p.granule), 8) + p.serials + [|p.table|]
  }

  function Size(p: Page): nat {
    HEADER + |p.table| + |p.body|
  }

  function Encode(p: Page): (r: Bytes)
    requires WellFormed(p)
    ensures |r| == Size(p)
  {
    Head(p) + p.table + p.body
  }

  lemma {:induction false} HeadReads(p: Page)
    requires WellFormed(p)
    ensures Head(p)[0..4] == CAPTURE && Head(p)[6..14] == LittleEndian(Unsigned(p.granule), 8)
    ensures Head(p)[26] == |p.table|
  {
  }

  lemma {:induction false} GranuleReads(p: Page)
    requires WellFormed(p)
    ensures Signed(Value(LittleEndian(Unsigned(p.granule), 8))) == p.granule
  {
    EightBytes();
    ValueOfLittleEndian(Unsigned(p.granule), 8);
  }

  /** A page anywhere in a file is recognised, its granule position read back, and
      the next read is right after its body. */
  lemma {:induction false} PageReads(before: Bytes, p: Page, after: Bytes)
    requires WellFormed(p)
    ensures var data := before + Encode(p) + after;
            var at := |before|;
            && at + HEADER <= |data| && Captured(data, at) && GranuleAt(data, at) == p.granule
            && NextAfter(data, at) == Some(at + Size(p))
  {
    var data := before + Encode(p) + after;
    var at := |before|;
    assert data[at..at + HEADER] == Head(p);
    HeadReads(p);
    assert data[at..at + 4] == data[at..at + HEADER][0..4];
    assert data[at + 6..at + 14] == data[at..at + HEADER][6..14];
    assert data[at + 26] == data[at..at + HEADER][26];
    GranuleReads(p);
    assert data[at + HEADER..at + HEADER + |p.table|] == p.table;
  }

  /** Bytes in which the capture pattern does not occur. */
  ghost predicate Noise(junk: Bytes) {
    forall i :: 0 <= i <= |junk| - 4 ==> !PatternAt(junk, i)
  }

  ghost predicate PatternAt(junk: Bytes, i: nat)
    requires i + 4 <= |junk|
  {
    junk[i..i + 4] == CAPTURE
  }

  /** A file: pages, each after some noise, and noise at the end. */
  datatype Part = Part(noise: Bytes, page: Page)

  ghost predicate WellFormedParts(parts: seq<Part>) {
    parts != [] ==> Noise(parts[0].noise) && WellFormed(parts[0].page) && WellFormedParts(parts[1..])
  }

  function Contents(parts: seq<Part>, end: Bytes): Bytes
    requires WellFormedParts(parts)
  {
    if parts == [] then end
    else parts[0].noise + Encode(parts[0].page) + Contents(parts[1..], end)
  }

  function Boundaries(parts: seq<Part>, at: nat): seq<nat>
    requires WellFormedParts(parts)
  {
    if parts == [] then []
    else
      var here := at + |parts[0].noise|;
      [here] + Boundaries(parts[1..], here + Size(parts[0].page))
  }

  function Best(parts: seq<Part>, total: int): int {
    if parts == [] then total else Best(parts[1..], Max(total, parts[0].page.granule))
  }

  /** No occurrence of the pattern begins inside noise that a page follows: the
      pattern's first byte is none of its later ones. */
  lemma {:induction false} NoiseBeforePage(before: Bytes, junk: Bytes, p: Page, after: Bytes, k: nat)
    requires Noise(junk) && WellFormed(p) && k < |junk|
    ensures var data := before + junk + Encode(p) + after;
            |before| + k + HEADER <= |data| && !Captured(data, |before| + k)
  {
    var data := before + junk + Encode(p) + after;
    var at := |before| + k;
    if k + 4 <= |junk| {
      assert !PatternAt(junk, k);
      assert data[at..at + 4] == junk[k..k + 4];
    } else {
      var first := |before| + |junk|;
      HeadReads(p);
      assert data[first] == Head(p)[0..4][0] == 0x4F;
      assert data[at..at + 4][first - at] == data[first];
    }
  }

  ghost predicate Quiet(data: Bytes, from: nat, till: nat) {
    && (from < till ==> till - 1 + HEADER <= |data|)
    && forall k :: from <= k < till && k + HEADER <= |data| ==> !Captured(data, k)
  }

  ghost predicate PageAt(data: Bytes, at: nat, granule: int, next: nat) {
    at + HEADER <= |data| && Captured(data, at) && GranuleAt(data, at) == granule && NextAfter(data, at) == Some(next)
  }

  /** From this offset on, the data reads as these parts and then only noise. */
  ghost predicate ReadsAs(data: Bytes, at: nat, parts: seq<Part>)
    requires WellFormedParts(parts)
    decreases |parts|
  {
    if parts == [] then forall k :: at <= k && k + HEADER <= |data| ==> !Captured(data, k)
    else
      var here := at + |parts[0].noise|;
      var next := here + Size(parts[0].page);
      Quiet(data, at, here) && PageAt(data, here, parts[0].page.granule, next) && ReadsAs(data, next, parts[1..])
  }

  lemma {:induction false} QuietIsSkipped(data: Bytes, from: nat, till: nat, total: int)
    requires Quiet(data, from, till) && from <= till
    ensures Visited(data, from) == Visited(data, till) && Scan(data, from, total) == Scan(data, till, total)
    decreases till - from
  {
    if from < till {
      QuietIsSkipped(data, from + 1, till, total);
    }
  }

  lemma {:induction false} QuietToTheEnd(data: Bytes, at: nat, total: int)
    requires forall k :: at <= k && k + HEADER <= |data| ==> !Captured(data, k)
    ensures Visited(data, at) == [] && Scan(data, at, total) == total
    decreases Distance(data, at)
  {
    if at + HEADER <= |data| {
      QuietToTheEnd(data, at + 1, total);
    }
  }

  lemma {:induction false} PageIsTaken(data: Bytes, at: nat, granule: int, next: nat, total: int)
    requires PageAt(data, at, granule, next)
    ensures Visited(data, at) == [at] + Visited(data, next)
    ensures Scan(data, at, total) == Scan(data, next, Max(total, granule))
  {
  }

  lemma {:induction false} PartIsTaken(data: Bytes, at: nat, here: nat, granule: int, next: nat, total: int)
    requires at <= here && Quiet(data, at, here) && PageAt(data, here, granule, next)
    ensures Visited(data, at) == [here] + Visited(data, next)
    ensures Scan(data, at, total) == Scan(data, next, Max(total, granule))
  {
    QuietIsSkipped(data, at, here, total);
    PageIsTaken(data, here, granule, next, total);
  }

  lemma {:induction false} ScanOfParts(data: Bytes, at: nat, parts: seq<Part>, total: int)
    requires WellFormedParts(parts) && ReadsAs(data, at, parts)
    ensures Visited(data, at) == Boundaries(parts, at) && Scan(data, at, total) == Best(parts, total)
    decreases |parts|
  {
    if parts == [] {
      QuietToTheEnd(data, at, total);
    } else {
      var here := at + |parts[0].noise|;
      var next := here + Size(parts[0].page);
      PartIsTaken(data, at, here, parts[0].page.granule, next, total);
      ScanOfParts(data, next, parts[1..], Max(total, parts[0].page.granule));
    }
  }

  lemma {:induction false} FirstReads(before: Bytes, part: Part, after: Bytes, read: Bytes, data: Bytes)
    requires Noise(part.noise) && WellFormed(part.page)
    requires read == before + (part.noise + Encode(part.page))
    requires data == before + (part.noise + Encode(part.page) + after)
    ensures data == read + after && |read| == |before| + |part.noise| + Size(part.page)
    ensures Quiet(data, |before|, |before| + |part.noise|)
    ensures PageAt(data, |before| + |part.noise|, part.page.granule, |read|)
  {
    var page := Encode(part.page);
    Regroup(before, part.noise + page, after);
    Regroup(before, part.noise, page);
    PageReads(before + part.noise, part.page, after);
    if part.noise != [] {
      NoiseBeforePage(before, part.noise, part.page, after, |part.noise| - 1);
    }
    forall k | |before| <= k < |before| + |part.noise| ensures k + HEADER <= |data| && !Captured(data, k) {
      NoiseBeforePage(before, part.noise, part.page, after, k - |before|);
    }
  }

  lemma {:induction false} EndReads(before: Bytes, end: Bytes)
    requires Noise(end)
    ensures forall k :: |before| <= k && k + HEADER <= |before + end| ==> !Captured(before + end, k)
  {
    var data := before + end;
    forall k | |before| <= k && k + HEADER <= |data| ensures !Captured(data, k) {
      assert !PatternAt(end, k - |before|);
      assert data[k..k + 4] == end[k - |before|..k - |before| + 4];
    }
  }

  lemma {:induction false} ContentsReads(before: Bytes, parts: seq<Part>, end: Bytes)
    requires WellFormedParts(parts) && Noise(end)
    ensures ReadsAs(before + Contents(parts, end), |before|, parts)
    decreases |parts|
  {
    var data := before + Contents(parts, end);
    if parts == [] {
      EndReads(before, end);
    } else {
      var read := before + (parts[0].noise + Encode(parts[0].page));
      FirstReads(before, parts[0], Contents(parts[1..], end), read, data);
      ContentsReads(read, parts[1..], end);
    }
  }

  /** For every file made of well-formed pages with noise before, between and after
      them, the scan takes exactly the page boundaries for headers and returns the
      greatest granule position, or 0 when none is positive. Page bodies may hold
      anything, the capture pattern included. */
  lemma {:induction false} DurationOfPages(parts: seq<Part>, end: Bytes)
    requires WellFormedParts(parts) && Noise(end)
    ensures Visited(Contents(parts, end), 0) == Boundaries(parts, 0)
    ensures Scan(Contents(parts, end), 0, 0) == Best(parts, 0)
    ensures Best(parts, 0) >= 0 && forall p :: p in parts ==> p.page.granule <= Best(parts, 0)
    ensures Best(parts, 0) == 0 || exists p :: p in parts && p.page.granule == Best(parts, 0)
  {
    assert [] + Contents(parts, end) == Contents(parts, end);
    ContentsReads([], parts, end);
    ScanOfParts(Contents(parts, end), 0, parts, 0);
    BestIsMaximum(parts, 0);
  }

  lemma {:induction false} BestIsMaximum(parts: seq<Part>, total: int)
    ensures Best(parts, total) >= total && forall p :: p in parts ==> p.page.granule <= Best(parts, total)
    ensures Best(parts, total) == total || exists p :: p in parts && p.page.granule == Best(parts, total)
  {
    if parts != [] {
      BestIsMaximum(parts[1..], Max(total, parts[0].page.granule));
      assert parts[0] in parts;
    }
  }
}
