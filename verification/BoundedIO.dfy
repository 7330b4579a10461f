/** Byte limits on reading and writing: nothing is ever cut off silently. */
module BoundedIO {
  import opened Basics

  type Bytes = seq<bv8>

  // ---------- the limited buffer ----------

  /** A growing buffer whose backing array never exceeds its limit. */
  class LimitBuffer {
    var store: array<bv8>
    var len: nat
    const limit: nat

    ghost predicate Valid()
      reads this
    {
      len <= store.Length <= limit
    }

    ghost function Contents(): Bytes
      reads this, store
      requires Valid()
    {
      store[..len]
    }

    constructor (limit: int)
      ensures Valid() && fresh(store) && Contents() == [] && this.limit == if limit < 0 then 0 else limit
    {
      this.limit, len := if limit < 0 then 0 else limit, 0;
      store := new bv8[0];
    }

    /** Makes room for `size` more bytes, or fails without changing anything. */
    method Reserve(size: int) returns (ok: bool)
      requires Valid()
      modifies this`store, this`len
      ensures Valid() && (ok <==> 0 <= size <= limit - old(len))
      ensures !ok ==> store == old(store) && len == old(len)
      ensures ok ==> len == old(len) + size && (store == old(store) || fresh(store))
      ensures ok ==> store[..old(len)] == old(Contents())
    {
      if size < 0 || len > limit || size > limit - len {
        return false;
      }
      var end := len + size;
      if store.Length < end {
        var next := new bv8[end];
        for i := 0 to len
          modifies next
          invariant forall j :: 0 <= j < i ==> next[j] == store[j]
        {
          next[i] := store[i];
        }
        assert next[..len] == store[..len];
        store := next;
      }
      len := end;
      return true;
    }

    /** Appends all of the data or none of it. */
    method Write(data: Bytes) returns (ok: bool)
      requires Valid()
      modifies this`store, this`len, store
      ensures Valid() && (ok <==> |old(Contents())| + |data| <= limit)
      ensures store == old(store) || fresh(store)
      ensures Contents() == if ok then old(Contents()) + data else old(Contents())
    {
      var start := len;
      ghost var before := Contents();
      ok := Reserve(|data|);
      if !ok {
        return;
      }
      var target := store;
      for i := 0 to |data|
        modifies target
        invariant target[..start] == before
        invariant forall j :: start <= j < start + i ==> target[j] == data[j - start]
      {
        target[start + i] := data[i];
      }
      assert store[..len] == before + data;
    }

    method Reset()
      requires Valid()
      modifies this`len
      ensures Valid() && Contents() == []
    {
      len := 0;
    }
  }

  // ---------- bounded writers ----------

  /** What a bounded writer holds after a list of writes: the exact concatenation,
      or a mark and the concatenation of the writes before the first too many. */
  ghost predicate Held(writes: seq<Bytes>, limit: nat, body: Bytes, overflow: bool) {
    && (overflow <==> |Concat(writes)| > limit)
    && (!overflow ==> body == Concat(writes))
    && |body| <= limit
    && exists n | 0 <= n <= |writes| :: body == Concat(writes[..n])
  }

  lemma {:induction false} HeldEmpty(limit: nat)
    ensures Held([], limit, [], false)
  {
    var none: seq<Bytes> := [];
    assert none[..0] == none;
  }

  /** One more write: taken whole if it fits and nothing was lost, dropped otherwise. */
  lemma {:induction false} HeldWrite(writes: seq<Bytes>, limit: nat, body: Bytes, overflow: bool, data: Bytes)
    requires Held(writes, limit, body, overflow)
    ensures var fits := !overflow && |body| + |data| <= limit;
            Held(writes + [data], limit, if fits then body + data else body, !fits)
  {
    ConcatSnoc(writes, data);
    var more := writes + [data];
    var n :| 0 <= n <= |writes| && body == Concat(writes[..n]);
    assert more[..n] == writes[..n] && more[..|more|] == more;
  }

  /** The recorder of a relayed response: a limited buffer and a sticky error. */
  class RelayRecorder {
    var body: LimitBuffer
    var failed: bool
    var status: int
    var wroteHeader: bool
    const limit: nat
    ghost var writes: seq<Bytes>

    ghost predicate Valid()
      reads this, body, body.store
    {
      body.Valid() && body.limit == limit && Held(writes, limit, body.Contents(), failed)
    }

    constructor (limit: nat)
      ensures Valid() && writes == [] && status == 200 && !wroteHeader && this.limit == limit
      ensures fresh(body) && fresh(body.store)
    {
      this.limit, failed, status, wroteHeader, writes := limit, false, 200, false, [];
      body := new LimitBuffer(limit);
      HeldEmpty(limit);
    }

    method WriteHeader(code: int)
      requires Valid()
      modifies this`status
      ensures Valid() && status == if code <= 0 || wroteHeader then old(status) else code
    {
      if code <= 0 || wroteHeader {
        return;
      }
      status := code;
    }

    /** The caller is always told that everything was written. */
    method Write(data: Bytes) returns (n: nat)
      requires Valid()
      modifies this`wroteHeader, this`failed, this`writes, body, body.store
      ensures Valid() && n == |data| && wroteHeader && body == old(body)
      ensures body.store == old(body.store) || fresh(body.store)
      ensures writes == old(writes) + [data]
    {
      wroteHeader := true;
      HeldWrite(writes, limit, body.Contents(), failed, data);
      writes := writes + [data];
      if failed {
        return |data|;
      }
      var ok := body.Write(data);
      if !ok {
        failed := true;
      }
      return |data|;
    }

    method ResetForRelayRetry()
      requires Valid()
      modifies this
      ensures Valid() && writes == [] && status == 200 && !wroteHeader && fresh(body) && fresh(body.store)
    {
      body := new LimitBuffer(limit);
      failed, status, wroteHeader, writes := false, 200, false, [];
      HeldEmpty(limit);
    }
  }

  /** The writer of an administrator operation: an unlimited buffer with its own check. */
  class OperationWriter {
    var body: Bytes
    var status: int
    var overflow: bool
    const limit: nat
    ghost var writes: seq<Bytes>

    ghost predicate Valid()
      reads this
    {
      Held(writes, limit, body, overflow)
    }

    constructor (limit: nat)
      ensures Valid() && writes == [] && status == 0 && this.limit == limit
    {
      body, status, overflow, this.limit, writes := [], 0, false, limit, [];
      HeldEmpty(limit);
    }

    /** The first status wins. */
    method WriteHeader(code: int)
      requires Valid()
      modifies this`status
      ensures Valid() && status == if old(status) == 0 then code else old(status)
    {
      if status == 0 {
        status := code;
      }
    }

    method Write(data: Bytes) returns (n: nat)
      requires Valid()
      modifies this
      ensures Valid() && n == |data| && writes == old(writes) + [data]
      ensures status == if old(status) == 0 then 200 else old(status)
    {
      WriteHeader(200);
      HeldWrite(writes, limit, body, overflow, data);
      writes := writes + [data];
      if |body| + |data| > limit {
        overflow := true;
        return |data|;
      }
      if !overflow {
        body := body + data;
      }
      return |data|;
    }
  }

  // ---------- bounded readers ----------

  datatype Error = EndOfFile | SourceFailed | LimitExceeded

  /** Any well-behaved io.Reader: it delivers its data in chunks of its choosing,
      may return nothing a bounded number of times, and reports its end (or its
      failure there) together with the last chunk or after it. */
  class Source {
    const data: Bytes
    const fails: bool
    var pos: nat
    var stalls: nat

    ghost predicate Valid()
      reads this
    {
      pos <= |data|
    }

    constructor (data: Bytes, fails: bool, stalls: nat)
      ensures Valid() && pos == 0 && this.data == data && this.fails == fails
    {
      this.data, this.fails, pos, this.stalls := data, fails, 0, stalls;
    }

    method Read(n: nat) returns (chunk: Bytes, error: Option<Error>)
      requires Valid() && n > 0
      modifies this
      ensures Valid() && pos == old(pos) + |chunk| && |chunk| <= n && chunk == data[old(pos)..pos]
      ensures error.Some? ==> pos == |data| && error.value == if fails then SourceFailed else EndOfFile
      ensures error.None? ==> Remaining() < old(Remaining())
    {
      var left := |data| - pos;
      var take: nat, early: bool := *, *;
      if take > n {
        take := n;
      }
      if take > left {
        take := left;
      }
      if left == 0 || (early && take == left) {
        chunk, error := data[pos..], Some(if fails then SourceFailed else EndOfFile);
        pos := |data|;
        return;
      }
      if take == 0 && stalls > 0 {
        stalls := stalls - 1;
        return [], None;
      }
      if take == 0 {
        take := 1;
      }
      chunk, error := data[pos..pos + take], None;
      pos := pos + take;
    }

    ghost function Remaining(): nat
      reads this
      requires Valid()
    {
      |data| - pos + stalls
    }
  }

  /** Delivers at most its limit; past it, one byte is probed and discarded. */
  class LimitedBody {
    const source: Source
    var remaining: nat
    ghost const limit: nat

    ghost predicate Valid()
      reads this, source
    {
      && source.Valid() && (remaining > 0 ==> source.pos + remaining == limit)
      && (remaining == 0 ==> source.pos >= limit && (source.pos > limit ==> |source.data| > limit))
    }

    constructor (source: Source, limit: int)
      requires source.Valid() && source.pos == 0
      ensures Valid() && this.source == source && this.limit == if limit < 0 then 0 else limit
      ensures remaining == this.limit
    {
      this.source, remaining, this.limit := source, if limit < 0 then 0 else limit, if limit < 0 then 0 else limit;
    }

    ghost function Delivered(): nat
      reads this
    {
      if remaining <= limit then limit - remaining else 0
    }

    method Read(n: nat) returns (chunk: Bytes, error: Option<Error>)
      requires Valid()
      modifies this, source
      ensures Valid() && |chunk| <= n
      ensures Delivered() == old(Delivered()) + |chunk| && Delivered() <= |source.data|
      ensures chunk == source.data[old(Delivered())..Delivered()]
      ensures error == Some(LimitExceeded) ==> |source.data| > limit && chunk == [] && Delivered() == limit
      ensures error.Some? && error != Some(LimitExceeded) ==>
                error == Some(if source.fails then SourceFailed else EndOfFile)
                && (old(source.pos) <= limit ==> |source.data| <= limit && Delivered() == |source.data|)
      ensures error != Some(LimitExceeded) && old(source.pos) <= limit ==> source.pos <= limit
      ensures error.None? && n > 0 ==> source.Remaining() < old(source.Remaining())
    {
      if n == 0 {
        return [], None;
      }
      if remaining > 0 {
        chunk, error := source.Read(if n > remaining then remaining else n);
        remaining := remaining - |chunk|;
        return;
      }
      var probe, probed := source.Read(1);
      if |probe| > 0 {
        return [], Some(LimitExceeded);
      }
      return [], probed;
    }
  }

  function Limit(limit: int): nat {
    if limit < 0 then 0 else limit
  }

  /** Reading a limited body to its first error, with buffers of any positive size
      and any other reads in between: it ends, the bytes are a prefix of the
      source, and the limit error comes exactly when the source is longer. */
  method ReadToError(source: Source, limit: int, sizes: seq<nat>, size: nat) returns (got: Bytes, error: Error)
    requires source.Valid() && source.pos == 0 && size > 0
    modifies source
    ensures error == LimitExceeded <==> |source.data| > Limit(limit)
    ensures error == LimitExceeded ==> got == source.data[..Limit(limit)]
    ensures error != LimitExceeded ==> got == source.data && error == if source.fails then SourceFailed else EndOfFile
  {
    var body := new LimitedBody(source, limit);
    got := [];
    var failure: Option<Error> := None;
    var i := 0;
    while failure.None?
      invariant body.Valid() && body.source == source && fresh(body) && body.limit == Limit(limit) && 0 <= i <= |sizes|
      invariant failure.None? ==> source.pos <= body.limit
      invariant body.Delivered() == |got| <= |source.data| && body.remaining <= body.limit
      invariant got == source.data[..|got|]
      invariant failure == Some(LimitExceeded) ==> |source.data| > Limit(limit) && |got| == Limit(limit)
      invariant failure.Some? && failure != Some(LimitExceeded) ==>
                  |source.data| <= Limit(limit) && |got| == |source.data|
                  && failure == Some(if source.fails then SourceFailed else EndOfFile)
      decreases failure.None?, |sizes| - i, source.Remaining()
    {
      var n := if i < |sizes| then sizes[i] else size;
      i := if i < |sizes| then i + 1 else i;
      var chunk: Bytes;
      chunk, failure := body.Read(n);
      got := got + chunk;
    }
    error := failure.value;
  }

  datatype ReadResult = AllOf(data: Bytes) | Failed(error: Error)

  /** Reads everything, or reports that there is too much. A source that fails
      exactly one byte past the limit may be reported as either. */
  method ReadAllLimit(source: Source, limit: int) returns (r: ReadResult)
    requires source.Valid() && source.pos == 0
    modifies source
    ensures |source.data| <= Limit(limit) ==> r == if source.fails then Failed(SourceFailed) else AllOf(source.data)
    ensures |source.data| > Limit(limit) ==> r == Failed(LimitExceeded) || (r == Failed(SourceFailed) && source.fails)
    ensures |source.data| > Limit(limit) + 1 ==> r == Failed(LimitExceeded)
  {
    var most := Limit(limit) + 1;
    var got: Bytes := [];
    while |got| < most
      invariant source.Valid() && |got| == source.pos <= most && got == source.data[..source.pos]
      decreases source.Remaining()
    {
      var chunk, error := source.Read(most - |got|);
      got := got + chunk;
      if error == Some(SourceFailed) {
        return Failed(SourceFailed);
      }
      if error.Some? {
        break;
      }
    }
    return if |got| > Limit(limit) then Failed(LimitExceeded) else AllOf(got);
  }
}
