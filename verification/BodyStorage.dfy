/** Request bodies kept in memory or in a cache file, behind one interface, and
    the usage counters both of them keep. */
module BodyStorage {
  import opened Basics

  type Payload = seq<bv8>

  // ---------- counters ----------

  datatype Stats = Stats(diskFiles: int, diskUsage: int, buffers: int, memoryUsage: int)

  function AddDisk(s: Stats, size: int): Stats {
    s.(diskFiles := s.diskFiles + 1, diskUsage := s.diskUsage + size)
  }

  /** Disk counters are clamped at zero. */
  function DropDisk(s: Stats, size: int): Stats {
    s.(diskFiles := if s.diskFiles - 1 < 0 then 0 else s.diskFiles - 1,
       diskUsage := if s.diskUsage - size < 0 then 0 else s.diskUsage - size)
  }

  function AddMemory(s: Stats, size: int): Stats {
    s.(buffers := s.buffers + 1, memoryUsage := s.memoryUsage + size)
  }

  function DropMemory(s: Stats, size: int): Stats {
    s.(buffers := s.buffers - 1, memoryUsage := s.memoryUsage - size)
  }

  class CacheStats {
    var diskFiles: int
    var diskUsage: int
    var buffers: int
    var memoryUsage: int

    ghost function View(): Stats
      reads this
    {
      Stats(diskFiles, diskUsage, buffers, memoryUsage)
    }

    method IncrementDiskFiles(size: int)
      modifies this
      ensures View() == AddDisk(old(View()), size)
    {
      diskFiles := diskFiles + 1;
      diskUsage := diskUsage + size;
    }

    method DecrementDiskFiles(size: int)
      modifies this
      ensures View() == DropDisk(old(View()), size)
    {
      diskFiles := diskFiles - 1;
      if diskFiles < 0 {
        diskFiles := 0;
      }
      diskUsage := diskUsage - size;
      if diskUsage < 0 {
        diskUsage := 0;
      }
    }

    method IncrementMemoryBuffers(size: int)
      modifies this
      ensures View() == AddMemory(old(View()), size)
    {
      buffers, memoryUsage := buffers + 1, memoryUsage + size;
    }

    method DecrementMemoryBuffers(size: int)
      modifies this
      ensures View() == DropMemory(old(View()), size)
    {
      buffers, memoryUsage := buffers - 1, memoryUsage - size;
    }
  }

  // ---------- one body, as its users see it ----------

  datatype Whence = FromStart | FromCurrent | FromEnd | BadWhence

  /** Operations on the storage, on the storage's own cursor and on its readers, which
      are numbered in the order they were opened. */
  datatype Op =
    | Read(n: nat)
    | Seek(offset: int, whence: Whence)
    | Bytes
    | Size
    | Close
    | NewReader
    | ReadFrom(k: nat, n: nat)
    | CloseReader(k: nat)
  {
    predicate OnReaders() {
      NewReader? || ReadFrom? || CloseReader?
    }
  }

  datatype Reply =
    | Data(bytes: Payload)
    | EndOfFile
    | Position(at: nat)
    | Opened(k: nat)
    | Done
    | SizeIs(size: nat)
    | StorageClosed
    | ReaderClosed
    | NoReader
    | SeekFailed

  /** A closed storage has no position. */
  datatype Body = Body(payload: Payload, cursor: nat, closed: bool)

  datatype Reader = Reader(cursor: nat, closed: bool)

  datatype Session = Session(body: Body, readers: seq<Reader>)

  function NewSession(payload: Payload): Session {
    Session(Body(payload, 0, false), [])
  }

  function Slice(p: Payload, cursor: nat, n: nat): Payload {
    if cursor >= |p| then [] else if cursor + n <= |p| then p[cursor..cursor + n] else p[cursor..]
  }

  function Target(p: Payload, cursor: nat, offset: int, whence: Whence): int {
    match whence
    case FromStart => offset
    case FromCurrent => cursor + offset
    case FromEnd => |p| + offset
    case BadWhence => -1
  }

  /** The cursor after a read, and its answer. An in-memory reader reports the end
      before it looks at the buffer, a file only for a buffer that is not empty. */
  function ReadReply(p: Payload, cursor: nat, n: nat, disk: bool): (nat, Reply) {
    if disk && n == 0 then (cursor, Data([]))
    else if cursor >= |p| then (cursor, EndOfFile)
    else (cursor + |Slice(p, cursor, n)|, Data(Slice(p, cursor, n)))
  }

  function SeekReply(p: Payload, cursor: nat, offset: int, whence: Whence): (nat, Reply) {
    var to := Target(p, cursor, offset, whence);
    if to < 0 then (cursor, SeekFailed) else (to, Position(to))
  }

  /** The storage's own operations. */
  function BodyStep(b: Body, op: Op, disk: bool): (Body, Reply) {
    match op
    case Size => (b, SizeIs(|b.payload|))
    case Close => (Body(b.payload, 0, true), Done)
    case Read(n) =>
      if b.closed then (b, StorageClosed)
      else var (cursor, r) := ReadReply(b.payload, b.cursor, n, disk); (b.(cursor := cursor), r)
    case Seek(offset, whence) =>
      if b.closed then (b, StorageClosed)
      else var (cursor, r) := SeekReply(b.payload, b.cursor, offset, whence); (b.(cursor := cursor), r)
    case Bytes => (b, if b.closed then StorageClosed else Data(b.payload))
    case _ => (b, NoReader)
  }

  /** A read through a reader of its own. Closing a reader over memory does nothing. */
  function ReaderStep(p: Payload, r: Reader, op: Op, disk: bool): (Reader, Reply) {
    match op
    case ReadFrom(_, n) =>
      if r.closed then (r, ReaderClosed)
      else var (cursor, reply) := ReadReply(p, r.cursor, n, disk); (r.(cursor := cursor), reply)
    case CloseReader(_) =>
      if !disk then (r, Done) else (r.(closed := true), if r.closed then ReaderClosed else Done)
    case _ => (r, NoReader)
  }

  function Step(s: Session, op: Op, disk: bool): (Session, Reply) {
    if !op.OnReaders() then
      var (body, r) := BodyStep(s.body, op, disk);
      (s.(body := body), r)
    else if op.NewReader? then
      if s.body.closed then (s, StorageClosed)
      else (s.(readers := s.readers + [Reader(0, false)]), Opened(|s.readers|))
    else if op.k >= |s.readers| then (s, NoReader)
    else
      var (reader, r) := ReaderStep(s.body.payload, s.readers[op.k], op, disk);
      (s.(readers := s.readers[op.k := reader]), r)
  }

  // ---------- the two implementations ----------

  /** A bytes.Reader: a cursor over bytes that never change. */
  class ByteReader {
    const data: Payload
    var pos: nat

    constructor (data: Payload)
      ensures this.data == data && pos == 0
    {
      this.data, pos := data, 0;
    }

    method Read(n: nat) returns (r: Reply)
      modifies this
      ensures (pos, r) == ReadReply(data, old(pos), n, false)
    {
      if pos >= |data| {
        return EndOfFile;
      }
      r := Data(Slice(data, pos, n));
      pos := pos + |r.bytes|;
    }

    method Seek(offset: int, whence: Whence) returns (r: Reply)
      modifies this
      ensures (pos, r) == SeekReply(data, old(pos), offset, whence)
    {
      var to := Target(data, pos, offset, whence);
      if to < 0 {
        return SeekFailed;
      }
      pos := to;
      return Position(to);
    }
  }

  /** The memory storage drops its references when it is closed. */
  class MemoryStorage {
    var data: Payload
    var reader: ByteReader?
    const size: nat
    var closed: bool
    const stats: CacheStats
    ghost const payload: Payload

    ghost predicate Valid()
      reads this
    {
      && size == |payload|
      && (!closed ==> data == payload && reader != null && reader.data == payload)
      && (closed ==> reader == null)
    }

    ghost function View(): Body
      reads this, reader
    {
      Body(payload, if reader == null then 0 else reader.pos, closed)
    }

    constructor (data: Payload, stats: CacheStats)
      modifies stats
      ensures Valid() && payload == data && this.stats == stats && fresh(reader)
      ensures View() == Body(data, 0, false)
      ensures stats.View() == AddMemory(old(stats.View()), |data|)
    {
      this.data, this.payload, size, closed, this.stats := data, data, |data|, false, stats;
      reader := new ByteReader(data);
      new;
      stats.IncrementMemoryBuffers(size);
    }

    /** Everything that leaves the storage as open or closed as it is. */
    method Use(op: Op) returns (r: Reply)
      requires Valid() && !op.OnReaders() && !op.Close?
      modifies reader
      ensures Valid() && (View(), r) == BodyStep(old(View()), op, false)
    {
      if op.Size? {
        return SizeIs(size);
      }
      if closed {
        return StorageClosed;
      }
      match op
      case Read(n) => r := reader.Read(n);
      case Seek(offset, whence) => r := reader.Seek(offset, whence);
      case Bytes => r := Data(data);
    }

    /** Only the first Close counts. */
    method CloseStorage() returns (r: Reply)
      requires Valid()
      modifies this, stats
      ensures Valid() && (View(), r) == BodyStep(old(View()), Close, false)
      ensures stats.View() == if old(closed) then old(stats.View()) else DropMemory(old(stats.View()), size)
    {
      if !closed {
        closed := true;
        stats.DecrementMemoryBuffers(size);
        data, reader := [], null;
      }
      return Done;
    }

    /** A reader with a cursor of its own over the same bytes. */
    method OpenReader() returns (r: ByteReader?)
      requires Valid()
      ensures closed ==> r == null
      ensures !closed ==> r != null && fresh(r) && r.data == payload && r.pos == 0
    {
      if closed {
        return null;
      }
      r := new ByteReader(data);
    }
  }

  /** An open file: its bytes, and the position of this descriptor. */
  class File {
    const content: Payload
    var pos: nat
    var closed: bool

    ghost function View(): Reader
      reads this
    {
      Reader(pos, closed)
    }

    constructor (content: Payload)
      ensures this.content == content && View() == Reader(0, false)
    {
      this.content, pos, closed := content, 0, false;
    }

    method Read(n: nat) returns (r: Reply)
      modifies this
      ensures (View(), r) == ReaderStep(content, old(View()), ReadFrom(0, n), true)
    {
      if closed {
        return ReaderClosed;
      }
      if n == 0 {
        return Data([]);
      }
      var got := Slice(content, pos, n);
      if got == [] {
        return EndOfFile;
      }
      pos := pos + |got|;
      return Data(got);
    }

    method Seek(offset: int, whence: Whence) returns (r: Reply)
      requires !closed
      modifies this
      ensures !closed && (pos, r) == SeekReply(content, old(pos), offset, whence)
    {
      var to := Target(content, pos, offset, whence);
      if to < 0 {
        return SeekFailed;
      }
      pos := to;
      return Position(to);
    }

    method CloseFile() returns (r: Reply)
      modifies this
      ensures (View(), r) == ReaderStep(content, old(View()), CloseReader(0), true)
    {
      r := if closed then ReaderClosed else Done;
      closed := true;
    }

    /** io.ReadFull: reads until `n` bytes are there or the file ends. */
    method ReadFull(n: nat) returns (data: Payload)
      requires !closed
      modifies this
      ensures !closed && data == Slice(content, old(pos), n)
    {
      data := [];
      ghost var start := pos;
      while |data| < n
        invariant !closed && |data| <= n && pos == start + |data| && data == Slice(content, start, |data|)
        decreases |content| - pos
      {
        SliceGrows(content, start, |data|, n);
        var r := Read(n - |data|);
        if r.EndOfFile? {
          break;
        }
        data := data + r.bytes;
      }
    }
  }

  /** One more read of a file continues the slice read so far, or ends it. */
  lemma {:induction false} SliceGrows(p: Payload, start: nat, a: nat, n: nat)
    requires |Slice(p, start, a)| == a < n
    ensures var (next, r) := ReadReply(p, start + a, n - a, true);
            if r.EndOfFile? then Slice(p, start, a) == Slice(p, start, n)
            else
              && r.Data? && a < a + |r.bytes| <= n && next == start + a + |r.bytes| <= |p|
              && Slice(p, start, a) + r.bytes == Slice(p, start, a + |r.bytes|)
  {
  }

  /** The disk storage keeps its file for as long as it is open. */
  class DiskStorage {
    const file: File
    const size: nat
    var closed: bool
    const stats: CacheStats

    ghost predicate Valid()
      reads this, file
    {
      size == |file.content| && file.closed == closed
    }

    ghost function View(): Body
      reads this, file
    {
      Body(file.content, if closed then 0 else file.pos, closed)
    }

    constructor (data: Payload, stats: CacheStats)
      modifies stats
      ensures Valid() && this.stats == stats && fresh(file) && View() == Body(data, 0, false)
      ensures stats.View() == AddDisk(old(stats.View()), |data|)
    {
      file := new File(data);
      size, closed, this.stats := |data|, false, stats;
      new;
      stats.IncrementDiskFiles(size);
    }

    method Use(op: Op) returns (r: Reply)
      requires Valid() && !op.OnReaders() && !op.Close?
      modifies file
      ensures Valid() && (View(), r) == BodyStep(old(View()), op, true)
    {
      if op.Size? {
        return SizeIs(size);
      }
      if closed {
        return StorageClosed;
      }
      match op
      case Read(n) => r := file.Read(n);
      case Seek(offset, whence) => r := file.Seek(offset, whence);
      case Bytes => r := ReadBytes();
    }

    /** Saves the position, reads everything from the start, and goes back. */
    method ReadBytes() returns (r: Reply)
      requires Valid() && !closed
      modifies file
      ensures Valid() && r == Data(file.content) && file.pos == old(file.pos)
    {
      var current := file.Seek(0, FromCurrent);
      if current.SeekFailed? {
        return SeekFailed;
      }
      var moved := file.Seek(0, FromStart);
      var data := file.ReadFull(size);
      moved := file.Seek(current.at, FromStart);
      return Data(data);
    }

    method CloseStorage() returns (r: Reply)
      requires Valid()
      modifies this, file, stats
      ensures Valid() && (View(), r) == BodyStep(old(View()), Close, true)
      ensures stats.View() == if old(closed) then old(stats.View()) else DropDisk(old(stats.View()), size)
    {
      if !closed {
        closed := true;
        var answer := file.CloseFile();
        stats.DecrementDiskFiles(size);
      }
      return Done;
    }

    /** Another descriptor of the same file. */
    method OpenReader() returns (r: File?)
      requires Valid()
      ensures closed ==> r == null
      ensures !closed ==> r != null && fresh(r) && r.content == file.content && r.View() == Reader(0, false)
    {
      if closed {
        return null;
      }
      r := new File(file.content);
    }
  }

  // ---------- whole runs ----------

  function Final(s: Session, ops: seq<Op>, disk: bool): Session {
    if ops == [] then s else Step(Final(s, ops[..|ops| - 1], disk), ops[|ops| - 1], disk).0
  }

  function Replies(s: Session, ops: seq<Op>, disk: bool): (r: seq<Reply>)
    ensures |r| == |ops|
  {
    if ops == [] then []
    else Replies(s, ops[..|ops| - 1], disk) + [Step(Final(s, ops[..|ops| - 1], disk), ops[|ops| - 1], disk).1]
  }

  lemma {:induction false} RunSnoc(s: Session, ops: seq<Op>, i: nat, disk: bool)
    requires i < |ops|
    ensures var (next, r) := Step(Final(s, ops[..i], disk), ops[i], disk);
            Final(s, ops[..i + 1], disk) == next && Replies(s, ops[..i + 1], disk) == Replies(s, ops[..i], disk) + [r]
  {
    assert ops[..i + 1][..i] == ops[..i];
  }

  // ---------- running them ----------

  /** The storage and the readers opened from it are separate objects. */
  ghost predicate MemoryValid(storage: MemoryStorage, readers: seq<ByteReader>)
    reads storage, readers
  {
    && storage.Valid() && Distinct(readers)
    && forall r | r in readers :: r.data == storage.payload && r != storage.reader
  }

  ghost function MemoryView(storage: MemoryStorage, readers: seq<ByteReader>): Session
    reads storage, storage.reader, readers
  {
    Session(storage.View(), ByteCursors(readers))
  }

  ghost function ByteCursors(readers: seq<ByteReader>): (r: seq<Reader>)
    reads readers
    ensures |r| == |readers| && forall i :: 0 <= i < |r| ==> r[i] == Reader(readers[i].pos, false)
  {
    if readers == [] then []
    else ByteCursors(readers[..|readers| - 1]) + [Reader(readers[|readers| - 1].pos, false)]
  }

  method ReadBytesFrom(readers: seq<ByteReader>, k: nat, n: nat, ghost p: Payload) returns (r: Reply)
    requires Distinct(readers) && k < |readers| && readers[k].data == p
    modifies readers[k]
    ensures var (reader, reply) := ReaderStep(p, old(ByteCursors(readers)[k]), ReadFrom(k, n), false);
            ByteCursors(readers) == old(ByteCursors(readers))[k := reader] && r == reply
  {
    r := readers[k].Read(n);
  }

  method DoReaderInMemory(storage: MemoryStorage, readers: seq<ByteReader>, op: Op)
    returns (readers': seq<ByteReader>, r: Reply)
    requires MemoryValid(storage, readers) && op.OnReaders()
    modifies readers
    ensures MemoryValid(storage, readers')
    ensures (MemoryView(storage, readers'), r) == Step(old(MemoryView(storage, readers)), op, false)
    ensures readers' == readers || exists x :: fresh(x) && readers' == readers + [x]
  {
    readers' := readers;
    if op.NewReader? {
      var reader := storage.OpenReader();
      if reader == null {
        return readers, StorageClosed;
      }
      return readers + [reader], Opened(|readers|);
    }
    if op.k >= |readers| {
      return readers, NoReader;
    }
    if op.ReadFrom? {
      r := ReadBytesFrom(readers, op.k, op.n, storage.payload);
    } else {
      assert ByteCursors(readers) == ByteCursors(readers)[op.k := ByteCursors(readers)[op.k]];
      r := Done;
    }
  }

  /** The counters once a storage of this size was opened and perhaps closed again. */
  function Counted(s: Stats, size: nat, closed: bool, disk: bool): Stats {
    var open := if disk then AddDisk(s, size) else AddMemory(s, size);
    if !closed then open else if disk then DropDisk(open, size) else DropMemory(open, size)
  }

  /** What an operation that may have closed the storage does to the counters. */
  ghost predicate CountsClose(was: Stats, now: Stats, size: nat, wasClosed: bool, closed: bool, disk: bool) {
    && (wasClosed ==> closed)
    && now == if wasClosed == closed then was else if disk then DropDisk(was, size) else DropMemory(was, size)
  }

  lemma {:induction false} CountedOnce(
    s: Stats, was: Stats, now: Stats, size: nat, wasClosed: bool, closed: bool, disk: bool)
    requires was == Counted(s, size, wasClosed, disk) && CountsClose(was, now, size, wasClosed, closed, disk)
    ensures now == Counted(s, size, closed, disk)
  {
  }

  method DoInMemory(storage: MemoryStorage, readers: seq<ByteReader>, op: Op)
    returns (readers': seq<ByteReader>, r: Reply)
    requires MemoryValid(storage, readers)
    modifies storage, storage.reader, storage.stats, readers
    ensures MemoryValid(storage, readers')
    ensures (MemoryView(storage, readers'), r) == Step(old(MemoryView(storage, readers)), op, false)
    ensures storage.reader == null || storage.reader == old(storage.reader)
    ensures CountsClose(old(storage.stats.View()), storage.stats.View(),
                        storage.size, old(storage.closed), storage.closed, false)
    ensures readers' == readers || exists x :: fresh(x) && readers' == readers + [x]
  {
    readers' := readers;
    if op.OnReaders() {
      readers', r := DoReaderInMemory(storage, readers, op);
    } else if op.Close? {
      r := storage.CloseStorage();
    } else {
      r := storage.Use(op);
    }
  }

  /** A storage in memory, used for a whole run, answers as the session does. */
  method RunInMemory(data: Payload, stats: CacheStats, ops: seq<Op>) returns (replies: seq<Reply>)
    modifies stats
    ensures replies == Replies(NewSession(data), ops, false)
    ensures stats.View() == Counted(old(stats.View()), |data|, Final(NewSession(data), ops, false).body.closed, false)
  {
    ghost var before := stats.View();
    var storage := new MemoryStorage(data, stats);
    var readers: seq<ByteReader> := [];
    replies := [];
    for i := 0 to |ops|
      invariant MemoryValid(storage, readers) && storage.stats == stats && storage.payload == data
      invariant stats.View() == Counted(before, |data|, storage.closed, false)
      invariant fresh(storage) && (storage.reader != null ==> fresh(storage.reader)) && fresh(readers)
      invariant MemoryView(storage, readers) == Final(NewSession(data), ops[..i], false)
      invariant replies == Replies(NewSession(data), ops[..i], false)
    {
      var r;
      ghost var was, wasClosed := stats.View(), storage.closed;
      readers, r := DoInMemory(storage, readers, ops[i]);
      CountedOnce(before, was, stats.View(), |data|, wasClosed, storage.closed, false);
      RunSnoc(NewSession(data), ops, i, false);
      replies := replies + [r];
    }
    assert ops[..|ops|] == ops;
  }

  ghost predicate DiskValid(storage: DiskStorage, readers: seq<File>)
    reads storage, storage.file, readers
  {
    && storage.Valid() && Distinct(readers)
    && forall r | r in readers :: r.content == storage.file.content && r != storage.file
  }

  ghost function DiskView(storage: DiskStorage, readers: seq<File>): Session
    reads storage, storage.file, readers
  {
    Session(storage.View(), FileCursors(readers))
  }

  ghost function FileCursors(readers: seq<File>): (r: seq<Reader>)
    reads readers
    ensures |r| == |readers| && forall i :: 0 <= i < |r| ==> r[i] == readers[i].View()
  {
    if readers == [] then [] else FileCursors(readers[..|readers| - 1]) + [readers[|readers| - 1].View()]
  }

  method UseFile(readers: seq<File>, op: Op, ghost p: Payload) returns (r: Reply)
    requires Distinct(readers) && (op.ReadFrom? || op.CloseReader?) && op.k < |readers| && readers[op.k].content == p
    modifies readers[op.k]
    ensures var (reader, reply) := ReaderStep(p, old(FileCursors(readers)[op.k]), op, true);
            FileCursors(readers) == old(FileCursors(readers))[op.k := reader] && r == reply
  {
    if op.ReadFrom? {
      r := readers[op.k].Read(op.n);
    } else {
      r := readers[op.k].CloseFile();
    }
  }

  method DoReaderOnDisk(storage: DiskStorage, readers: seq<File>, op: Op) returns (readers': seq<File>, r: Reply)
    requires DiskValid(storage, readers) && op.OnReaders()
    modifies readers
    ensures DiskValid(storage, readers')
    ensures (DiskView(storage, readers'), r) == Step(old(DiskView(storage, readers)), op, true)
    ensures readers' == readers || exists x :: fresh(x) && readers' == readers + [x]
  {
    readers' := readers;
    if op.NewReader? {
      var reader := storage.OpenReader();
      if reader == null {
        return readers, StorageClosed;
      }
      return readers + [reader], Opened(|readers|);
    }
    if op.k >= |readers| {
      return readers, NoReader;
    }
    r := UseFile(readers, op, storage.file.content);
  }

  method DoOnDisk(storage: DiskStorage, readers: seq<File>, op: Op) returns (readers': seq<File>, r: Reply)
    requires DiskValid(storage, readers)
    modifies storage, storage.file, storage.stats, readers
    ensures DiskValid(storage, readers')
    ensures (DiskView(storage, readers'), r) == Step(old(DiskView(storage, readers)), op, true)
    ensures CountsClose(old(storage.stats.View()), storage.stats.View(),
                        storage.size, old(storage.closed), storage.closed, true)
    ensures readers' == readers || exists x :: fresh(x) && readers' == readers + [x]
  {
    readers' := readers;
    if op.OnReaders() {
      readers', r := DoReaderOnDisk(storage, readers, op);
    } else if op.Close? {
      r := storage.CloseStorage();
    } else {
      r := storage.Use(op);
    }
  }

  /** So does a storage on disk, but for what tells the two apart. */
  method RunOnDisk(data: Payload, stats: CacheStats, ops: seq<Op>) returns (replies: seq<Reply>)
    modifies stats
    ensures replies == Replies(NewSession(data), ops, true)
    ensures stats.View() == Counted(old(stats.View()), |data|, Final(NewSession(data), ops, true).body.closed, true)
  {
    ghost var before := stats.View();
    var storage := new DiskStorage(data, stats);
    var readers: seq<File> := [];
    replies := [];
    for i := 0 to |ops|
      invariant DiskValid(storage, readers) && fresh(storage) && fresh(storage.file) && fresh(readers)
      invariant DiskView(storage, readers) == Final(NewSession(data), ops[..i], true)
      invariant storage.stats == stats && storage.size == |data|
      invariant stats.View() == Counted(before, |data|, storage.closed, true)
      invariant replies == Replies(NewSession(data), ops[..i], true)
    {
      var r;
      ghost var was, wasClosed := stats.View(), storage.closed;
      readers, r := DoOnDisk(storage, readers, ops[i]);
      CountedOnce(before, was, stats.View(), |data|, wasClosed, storage.closed, true);
      RunSnoc(NewSession(data), ops, i, true);
      replies := replies + [r];
    }
    assert ops[..|ops|] == ops;
  }

  // ---------- observational equality ----------

  /** The places where the two can be told apart: an empty read at or past the end, and
      the use of a reader after it was closed. */
  predicate EmptyReadAtEnd(p: Payload, cursor: nat, n: nat) {
    n == 0 && cursor >= |p|
  }

  predicate TellsApart(s: Session, op: Op) {
    match op
    case Read(n) => !s.body.closed && EmptyReadAtEnd(s.body.payload, s.body.cursor, n)
    case ReadFrom(k, n) =>
      k < |s.readers| && (s.readers[k].closed || EmptyReadAtEnd(s.body.payload, s.readers[k].cursor, n))
    case CloseReader(k) => k < |s.readers| && s.readers[k].closed
    case _ => false
  }

  /** The same storage, and the same cursors of all readers not closed on disk. */
  ghost predicate Alike(memory: Session, disk: Session) {
    && memory.body == disk.body && |memory.readers| == |disk.readers|
    && (forall k :: 0 <= k < |disk.readers| ==> !memory.readers[k].closed)
    && (forall k :: 0 <= k < |disk.readers| && !disk.readers[k].closed ==> memory.readers[k] == disk.readers[k])
  }

  lemma {:induction false} ReadsAgree(p: Payload, cursor: nat, n: nat)
    ensures ReadReply(p, cursor, n, false).0 == ReadReply(p, cursor, n, true).0
    ensures ReadReply(p, cursor, n, false).1 == ReadReply(p, cursor, n, true).1 <==> !EmptyReadAtEnd(p, cursor, n)
  {
    if n == 0 && cursor < |p| {
      assert Slice(p, cursor, 0) == [];
    }
  }

  lemma {:induction false} StepsAgree(memory: Session, disk: Session, op: Op)
    requires Alike(memory, disk)
    ensures Alike(Step(memory, op, false).0, Step(disk, op, true).0)
    ensures Step(memory, op, false).1 == Step(disk, op, true).1 <==> !TellsApart(disk, op)
  {
    match op
    case Read(n) => ReadsAgree(memory.body.payload, memory.body.cursor, n);
    case ReadFrom(k, n) =>
      if k < |disk.readers| && !disk.readers[k].closed {
        ReadsAgree(memory.body.payload, memory.readers[k].cursor, n);
      }
    case _ =>
  }

  /** No operation of the run tells the two apart. */
  predicate NeverToldApart(s: Session, ops: seq<Op>) {
    ops != [] ==>
      NeverToldApart(s, ops[..|ops| - 1]) && !TellsApart(Final(s, ops[..|ops| - 1], true), ops[|ops| - 1])
  }

  /** Over any sequence of operations memory and disk give the same answers exactly
      when no operation tells them apart, and they end alike in any case. */
  lemma {:induction false} MemoryEqualsDisk(payload: Payload, ops: seq<Op>)
    ensures var s := NewSession(payload);
            && Alike(Final(s, ops, false), Final(s, ops, true))
            && (Replies(s, ops, false) == Replies(s, ops, true) <==> NeverToldApart(s, ops))
    decreases |ops|
  {
    if ops != [] {
      var s, before, op := NewSession(payload), ops[..|ops| - 1], ops[|ops| - 1];
      MemoryEqualsDisk(payload, before);
      StepsAgree(Final(s, before, false), Final(s, before, true), op);
      var m, d := Replies(s, ops, false), Replies(s, ops, true);
      assert m[..|before|] == Replies(s, before, false) && d[..|before|] == Replies(s, before, true);
      assert m == d <==> m[..|before|] == d[..|before|] && m[|before|] == d[|before|];
    }
  }

  /** After any run the payload is intact, Bytes and new readers see all of it until
      the first Close, and the storage itself answers nothing but Size afterwards. */
  lemma {:induction false} PayloadSurvives(payload: Payload, ops: seq<Op>, disk: bool)
    ensures var s := Final(NewSession(payload), ops, disk);
            && s.body.payload == payload && (s.body.closed <==> Close in ops)
            && Step(s, Bytes, disk).1 == (if s.body.closed then StorageClosed else Data(payload))
            && Step(s, NewReader, disk).1 == (if s.body.closed then StorageClosed else Opened(|s.readers|))
    decreases |ops|
  {
    if ops != [] {
      PayloadSurvives(payload, ops[..|ops| - 1], disk);
      assert ops == ops[..|ops| - 1] + [ops[|ops| - 1]];
    }
  }

  /** Reads by the storage's own cursor, or by one of its readers. */
  predicate ReadsAs(op: Op, who: Option<nat>) {
    match who
    case None => op.Read?
    case Some(k) => op.ReadFrom? && op.k == k
  }

  /** Everything that one of them has been given. */
  function Received(ops: seq<Op>, replies: seq<Reply>, who: Option<nat>): Payload
    requires |ops| == |replies|
  {
    if ops == [] then []
    else
      Received(ops[..|ops| - 1], replies[..|ops| - 1], who) + Given(ops[|ops| - 1], replies[|ops| - 1], who)
  }

  function Given(op: Op, r: Reply, who: Option<nat>): Payload {
    if ReadsAs(op, who) && r.Data? then r.bytes else []
  }

  lemma {:induction false} ReceivedSnoc(s: Session, ops: seq<Op>, who: Option<nat>, disk: bool)
    requires ops != []
    ensures var before, op := ops[..|ops| - 1], ops[|ops| - 1];
            Received(ops, Replies(s, ops, disk), who)
            == Received(before, Replies(s, before, disk), who)
               + Given(op, Step(Final(s, before, disk), op, disk).1, who)
  {
    var before := ops[..|ops| - 1];
    assert Replies(s, ops, disk)[..|before|] == Replies(s, before, disk);
  }

  lemma {:induction false} ReadExtends(p: Payload, cursor: nat, n: nat, disk: bool)
    requires cursor <= |p|
    ensures var (next, r) := ReadReply(p, cursor, n, disk);
            cursor <= next <= |p| && (if r.Data? then r.bytes else []) == p[cursor..next]
  {
  }

  lemma {:induction false} ReaderExtends(s: Session, op: Op, k: nat, disk: bool)
    requires k < |s.readers| && s.readers[k].cursor <= |s.body.payload|
    ensures var (next, r) := Step(s, op, disk);
            && k < |next.readers| && s.readers[k].cursor <= next.readers[k].cursor <= |s.body.payload|
            && Given(op, r, Some(k)) == s.body.payload[s.readers[k].cursor..next.readers[k].cursor]
  {
    if ReadsAs(op, Some(k)) {
      ReadExtends(s.body.payload, s.readers[k].cursor, op.n, disk);
    }
  }

  /** Every reader replays the payload from its start, in order and without gaps,
      whatever is done in between to the storage, to its cursor and to other readers,
      and also after the storage was closed. */
  lemma {:induction false} ReadersReplay(payload: Payload, ops: seq<Op>, k: nat, disk: bool)
    ensures var s := Final(NewSession(payload), ops, disk);
            var got := Received(ops, Replies(NewSession(payload), ops, disk), Some(k));
            if k >= |s.readers| then got == []
            else s.readers[k].cursor <= |payload| && got == payload[..s.readers[k].cursor]
    decreases |ops|
  {
    if ops != [] {
      var start, before, op := NewSession(payload), ops[..|ops| - 1], ops[|ops| - 1];
      var s := Final(start, before, disk);
      ReadersReplay(payload, before, k, disk);
      PayloadSurvives(payload, before, disk);
      ReceivedSnoc(start, ops, Some(k), disk);
      if k < |s.readers| {
        ReaderExtends(s, op, k, disk);
        Adjacent(payload, 0, s.readers[k].cursor, Step(s, op, disk).0.readers[k].cursor);
      }
    }
  }

  /** A reader that reports the end has delivered everything. */
  lemma {:induction false} EndMeansAll(payload: Payload, ops: seq<Op>, k: nat, n: nat, disk: bool)
    requires Step(Final(NewSession(payload), ops, disk), ReadFrom(k, n), disk).1 == EndOfFile
    ensures Received(ops, Replies(NewSession(payload), ops, disk), Some(k)) == payload
  {
    PayloadSurvives(payload, ops, disk);
    ReadersReplay(payload, ops, k, disk);
  }

  lemma {:induction false} StorageExtends(s: Session, op: Op, disk: bool)
    requires !s.body.closed && s.body.cursor <= |s.body.payload| && !op.Seek? && !op.Close?
    ensures var (next, r) := Step(s, op, disk);
            && next.body == s.body.(cursor := next.body.cursor)
            && s.body.cursor <= next.body.cursor <= |s.body.payload|
            && Given(op, r, None) == s.body.payload[s.body.cursor..next.body.cursor]
  {
    if op.Read? {
      ReadExtends(s.body.payload, s.body.cursor, op.n, disk);
    }
  }

  /** So does the storage's own cursor until it is moved or the storage is closed,
      also across Bytes, which reads the same file. */
  lemma {:induction false} StorageReplays(payload: Payload, ops: seq<Op>, disk: bool)
    requires forall op | op in ops :: !op.Seek? && !op.Close?
    ensures var s := Final(NewSession(payload), ops, disk);
            var got := Received(ops, Replies(NewSession(payload), ops, disk), None);
            s.body == Body(payload, s.body.cursor, false) && s.body.cursor <= |payload|
            && got == payload[..s.body.cursor]
    decreases |ops|
  {
    if ops != [] {
      var start, before, op := NewSession(payload), ops[..|ops| - 1], ops[|ops| - 1];
      assert op in ops && forall x | x in before :: x in ops;
      var s := Final(start, before, disk);
      StorageReplays(payload, before, disk);
      ReceivedSnoc(start, ops, None, disk);
      StorageExtends(s, op, disk);
      Adjacent(payload, 0, s.body.cursor, Step(s, op, disk).0.body.cursor);
    }
  }

  // ---------- creating storages ----------

  datatype Config = Config(enabled: bool, threshold: int, maxUsage: int)

  predicate Available(cfg: Config, s: Stats, size: int) {
    cfg.enabled && s.diskUsage + size <= cfg.maxUsage
  }

  datatype Created = Stored(disk: bool, size: nat) | TooLarge | ReadError | DiskError

  function Count(s: Stats, c: Created): Stats {
    match c
    case Stored(disk, size) => if disk then AddDisk(s, size) else AddMemory(s, size)
    case _ => s
  }

  /** A body that is already in memory. `diskFails` is the file system's answer. */
  function Create(cfg: Config, s: Stats, size: nat, diskFails: bool): Created {
    Stored(cfg.enabled && size >= cfg.threshold && Available(cfg, s, size) && !diskFails, size)
  }

  /** What a stream delivers before it ends, or fails. */
  datatype Stream = Stream(length: nat, fails: bool)

  /** A body read from a stream with a declared length, at most `maxBytes` of it. */
  function CreateFromStream(
    cfg: Config, s: Stats, stream: Stream, declared: int, maxBytes: int, diskFails: bool): Created
  {
    var candidate := if declared <= 0 then maxBytes else declared;
    if cfg.enabled && (declared <= 0 || declared >= cfg.threshold) && Available(cfg, s, candidate) then
      if diskFails || FailsWithin(stream, maxBytes) then DiskError
      else if stream.length > maxBytes then TooLarge
      else Stored(true, stream.length)
    else
      if FailsWithin(stream, maxBytes) then ReadError
      else if stream.length > maxBytes then TooLarge
      else Create(cfg, s, stream.length, diskFails)
  }

  /** The limited reader stops one byte past the limit, so it may miss a failure behind that. */
  predicate FailsWithin(stream: Stream, maxBytes: int) {
    stream.fails && stream.length < maxBytes + 1
  }

  method CreateBodyStorage(cfg: Config, stats: CacheStats, data: Payload, diskFails: bool)
    returns (created: Created, memory: MemoryStorage?, disk: DiskStorage?)
    modifies stats
    ensures created == Create(cfg, old(stats.View()), |data|, diskFails)
    ensures stats.View() == Count(old(stats.View()), created)
    ensures created.disk <==> memory == null
    ensures created.disk <==> disk != null
    ensures disk != null ==> fresh(disk) && disk.Valid() && disk.View() == Body(data, 0, false)
    ensures memory != null ==> fresh(memory) && memory.Valid() && memory.View() == Body(data, 0, false)
  {
    memory, disk := null, null;
    if cfg.enabled && |data| >= cfg.threshold && cfg.enabled && stats.diskUsage + |data| <= cfg.maxUsage && !diskFails {
      disk := new DiskStorage(data, stats);
      return Stored(true, |data|), memory, disk;
    }
    memory := new MemoryStorage(data, stats);
    return Stored(false, |data|), memory, disk;
  }

  // ---------- every run of creations and closes ----------

  datatype Open = Open(disk: bool, size: nat)

  datatype System = System(stats: Stats, storages: map<nat, Open>, next: nat, clamped: bool)

  datatype Action =
    | New(size: nat, diskFails: bool)
    | NewFromStream(stream: Stream, declared: int, maxBytes: int, diskFails: bool)
    | CloseOne(id: nat)

  const EMPTY := System(Stats(0, 0, 0, 0), map[], 0, false)

  function Place(s: System, c: Created): System {
    match c
    case Stored(disk, size) => s.(stats := Count(s.stats, c), storages := s.storages[s.next := Open(disk, size)],
                                 next := s.next + 1)
    case _ => s
  }

  /** Closing what is already closed does nothing. */
  function Shut(s: System, id: nat): System {
    if id !in s.storages then s
    else
      var o := s.storages[id];
      var left := s.(storages := s.storages - {id});
      if o.disk then
        left.(stats := DropDisk(s.stats, o.size),
              clamped := s.clamped || s.stats.diskFiles < 1 || s.stats.diskUsage < o.size)
      else left.(stats := DropMemory(s.stats, o.size))
  }

  function Apply(cfg: Config, s: System, a: Action): System {
    match a
    case New(size, diskFails) => Place(s, Create(cfg, s.stats, size, diskFails))
    case NewFromStream(stream, declared, maxBytes, diskFails) =>
      Place(s, CreateFromStream(cfg, s.stats, stream, declared, maxBytes, diskFails))
    case CloseOne(id) => Shut(s, id)
  }

  function Exec(cfg: Config, run: seq<Action>): System {
    if run == [] then EMPTY else Apply(cfg, Exec(cfg, run[..|run| - 1]), run[|run| - 1])
  }

  // ---------- conservation ----------

  /** Number and total size of the open storages of one kind, below an identity. */
  function NumberOpen(m: map<nat, Open>, disk: bool, below: nat): nat {
    if below == 0 then 0
    else NumberOpen(m, disk, below - 1) + if below - 1 in m && m[below - 1].disk == disk then 1 else 0
  }

  function BytesOpen(m: map<nat, Open>, disk: bool, below: nat): nat {
    if below == 0 then 0
    else BytesOpen(m, disk, below - 1) + if below - 1 in m && m[below - 1].disk == disk then m[below - 1].size else 0
  }

  lemma {:induction false} OpenUnchanged(m: map<nat, Open>, m': map<nat, Open>, disk: bool, below: nat)
    requires forall id | 0 <= id < below :: (id in m <==> id in m') && (id in m ==> m[id] == m'[id])
    ensures NumberOpen(m, disk, below) == NumberOpen(m', disk, below)
    ensures BytesOpen(m, disk, below) == BytesOpen(m', disk, below)
    decreases below
  {
    if below > 0 {
      OpenUnchanged(m, m', disk, below - 1);
    }
  }

  lemma {:induction false} OpenRemoved(m: map<nat, Open>, id: nat, disk: bool, below: nat)
    requires id in m && id < below
    ensures NumberOpen(m, disk, below) == NumberOpen(m - {id}, disk, below) + if m[id].disk == disk then 1 else 0
    ensures BytesOpen(m, disk, below) == BytesOpen(m - {id}, disk, below) + if m[id].disk == disk then m[id].size else 0
    decreases below
  {
    if id < below - 1 {
      OpenRemoved(m, id, disk, below - 1);
    } else {
      OpenUnchanged(m, m - {id}, disk, below - 1);
    }
  }

  /** The counters are exactly the number and the sizes of what is open. */
  ghost predicate Conserved(s: System) {
    && (forall id | id in s.storages :: id < s.next)
    && s.stats == Stats(NumberOpen(s.storages, true, s.next), BytesOpen(s.storages, true, s.next),
                        NumberOpen(s.storages, false, s.next), BytesOpen(s.storages, false, s.next))
    && !s.clamped
  }

  lemma {:induction false} PlaceConserves(s: System, c: Created)
    requires Conserved(s)
    ensures Conserved(Place(s, c))
  {
    if c.Stored? {
      var m := s.storages[s.next := Open(c.disk, c.size)];
      OpenUnchanged(s.storages, m, true, s.next);
      OpenUnchanged(s.storages, m, false, s.next);
    }
  }

  lemma {:induction false} ShutConserves(s: System, id: nat)
    requires Conserved(s)
    ensures Conserved(Shut(s, id))
  {
    if id in s.storages {
      OpenRemoved(s.storages, id, true, s.next);
      OpenRemoved(s.storages, id, false, s.next);
    }
  }

  /** In every run the counters are exact and the clamp never fires. */
  lemma {:induction false} CountersAreExact(cfg: Config, run: seq<Action>)
    ensures Conserved(Exec(cfg, run))
    decreases |run|
  {
    if run != [] {
      var s, a := Exec(cfg, run[..|run| - 1]), run[|run| - 1];
      CountersAreExact(cfg, run[..|run| - 1]);
      match a
      case New(size, diskFails) => PlaceConserves(s, Create(cfg, s.stats, size, diskFails));
      case NewFromStream(stream, declared, maxBytes, diskFails) =>
        PlaceConserves(s, CreateFromStream(cfg, s.stats, stream, declared, maxBytes, diskFails));
      case CloseOne(id) => ShutConserves(s, id);
    }
  }

  /** A second Close changes nothing, whatever happens in between: identities are
      never reused, so what has been closed stays closed. */
  lemma {:induction false} RepeatedCloseIsNothing(cfg: Config, run: seq<Action>, id: nat, more: seq<Action>)
    requires id in Exec(cfg, run).storages
    ensures var after := Exec(cfg, run + [CloseOne(id)] + more);
            id < after.next && id !in after.storages && Shut(after, id) == after
    decreases |more|
  {
    var closed := run + [CloseOne(id)];
    if more == [] {
      CountersAreExact(cfg, run);
      assert closed + more == closed && closed[..|run|] == run;
    } else {
      var before := closed + more[..|more| - 1];
      RepeatedCloseIsNothing(cfg, run, id, more[..|more| - 1]);
      assert (closed + more)[..|closed + more| - 1] == before;
    }
  }

  // ---------- the disk bound ----------

  /** A stream that declares a positive length delivers no more than that. */
  predicate Honest(a: Action) {
    a.NewFromStream? && a.declared > 0 ==> a.stream.length <= a.declared
  }

  predicate Bounded(cfg: Config, s: System) {
    s.stats.diskUsage == 0 || s.stats.diskUsage <= cfg.maxUsage
  }

  lemma {:induction false} HonestStepStaysBounded(cfg: Config, s: System, a: Action)
    requires Conserved(s) && Bounded(cfg, s) && Honest(a)
    ensures Bounded(cfg, Apply(cfg, s, a))
  {
  }

  /** Disk usage never passes its maximum while streams keep their word. */
  lemma {:induction false} HonestRunsStayBounded(cfg: Config, run: seq<Action>)
    requires forall a | a in run :: Honest(a)
    ensures Bounded(cfg, Exec(cfg, run))
    decreases |run|
  {
    if run != [] {
      var before, a := run[..|run| - 1], run[|run| - 1];
      assert a in run && forall x | x in before :: x in run;
      HonestRunsStayBounded(cfg, before);
      CountersAreExact(cfg, before);
      HonestStepStaysBounded(cfg, Exec(cfg, before), a);
    }
  }

  /** The caller's own limit is what makes the bound unconditional: a stream
      admitted to disk by its declared length can never push the usage past the
      maximum exactly when the limit itself would have been admitted. */
  lemma {:induction false} LimitMakesBound(cfg: Config, s: Stats, declared: int, maxBytes: nat)
    requires declared > 0 && declared >= cfg.threshold && Available(cfg, s, declared)
    ensures (forall length: nat :: var c := CreateFromStream(cfg, s, Stream(length, false), declared, maxBytes, false);
               Count(s, c).diskUsage <= cfg.maxUsage)
            <==> Available(cfg, s, maxBytes)
  {
    var longest := CreateFromStream(cfg, s, Stream(maxBytes, false), declared, maxBytes, false);
    assert longest == Stored(true, maxBytes);
  }
}
