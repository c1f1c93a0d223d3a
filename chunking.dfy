/**
 * The byte ranges the chunk loop of `simulate_chunk_upload` sends, as a pure
 * function of the buffer size and the chunk size, and what they cover.
 */
module Chunking {

  /** A byte range of the source; both offsets are inclusive, as in a `Content-Range`. */
  datatype Chunk = Chunk(first: nat, last: nat)

  function Min(a: int, b: int): (m: int)
  {
    if a <= b then a else b
  }

  function Length(c: Chunk): (n: int)
  {
    c.last - c.first + 1
  }

  /** Every chunk is a non-empty range inside `[low, total)`. */
  ghost predicate Within(cs: seq<Chunk>, low: nat, total: nat)
  {
    forall i :: 0 <= i < |cs| ==> low <= cs[i].first <= cs[i].last < total
  }

  /** Each chunk starts right after the previous one ends. */
  ghost predicate Contiguous(cs: seq<Chunk>)
  {
    forall i, j :: 0 <= i < j < |cs| && j == i + 1 ==> cs[j].first == cs[i].last + 1
  }

  /**
   * The chunks the loop sends once its cursor is at `cursor`, as written: the
   * loop runs while `cursor < total - 1`, sends the bytes from the cursor up to
   * `min(cursor + size - 1, total - 1)` and moves the cursor past them.
   */
  function ChunksFrom(total: nat, size: nat, cursor: nat): (cs: seq<Chunk>)
    requires size >= 1
    ensures cs == [] <==> cursor + 1 >= total
    ensures cs != [] ==> cs[0].first == cursor
    ensures Within(cs, cursor, total)
    decreases total - cursor
  {
    if cursor < total - 1 then
      var last := Min(cursor + size - 1, total - 1);
      [Chunk(cursor, last)] + ChunksFrom(total, size, last + 1)
    else []
  }

  /** The sizes of a chunk sequence: none over `size`, all but the last exactly `size`. */
  ghost predicate Sized(cs: seq<Chunk>, size: nat)
  {
    && (forall i :: 0 <= i < |cs| ==> Length(cs[i]) <= size)
    && (forall i :: 0 <= i < |cs| - 1 ==> Length(cs[i]) == size)
  }

  /**
   * The chunks of the loop are contiguous, ascending and non-overlapping; none
   * is longer than `size` and all but the last are exactly `size` long.
   */
  lemma {:induction false} ChunksShape(total: nat, size: nat, cursor: nat)
    requires size >= 1
    ensures Contiguous(ChunksFrom(total, size, cursor))
    ensures Sized(ChunksFrom(total, size, cursor), size)
    decreases total - cursor
  {
    if cursor + 1 < total {
      var last := Min(cursor + size - 1, total - 1);
      var rest := ChunksFrom(total, size, last + 1);
      ChunksShape(total, size, last + 1);
      ConsShape([Chunk(cursor, last)] + rest, size);
    }
  }

  /** A chunk followed by a well-shaped rest that starts right after it. */
  lemma ConsShape(cs: seq<Chunk>, size: nat)
    requires |cs| >= 1 && Contiguous(cs[1..]) && Sized(cs[1..], size)
    requires Length(cs[0]) <= size
    requires |cs| > 1 ==> cs[1].first == cs[0].last + 1 && Length(cs[0]) == size
    ensures Contiguous(cs) && Sized(cs, size)
  {
    forall i, j | 0 <= i < j < |cs| && j == i + 1 ensures cs[j].first == cs[i].last + 1 {
      if i > 0 {
        assert cs[1..][j - 1].first == cs[1..][i - 1].last + 1;
      }
    }
    forall i | 0 <= i < |cs| ensures Length(cs[i]) <= size {
      if i > 0 {
        assert cs[i] == cs[1..][i - 1];
      }
    }
    forall i | 0 <= i < |cs| - 1 ensures Length(cs[i]) == size {
      if i > 0 {
        assert cs[i] == cs[1..][i - 1];
      }
    }
  }

  /** The chunks of a whole upload of `total` bytes. */
  function ChunkPlan(total: nat, size: nat): (plan: seq<Chunk>)
    requires size >= 1
  {
    ChunksFrom(total, size, 0)
  }

  /** One turn of the loop: the next planned chunk starts at the cursor and the rest follow it. */
  lemma PlanStep(plan: seq<Chunk>, k: nat, total: nat, size: nat, cursor: nat, last: nat)
    requires size >= 1 && k <= |plan| && plan[k..] == ChunksFrom(total, size, cursor) && cursor + 1 < total
    requires last == Min(cursor + size - 1, total - 1)
    ensures k < |plan| && plan[k] == Chunk(cursor, last) && last < total
    ensures plan[k + 1..] == ChunksFrom(total, size, last + 1)
  {
    assert plan[k + 1..] == plan[k..][1..];
  }

  /** Where the loop's cursor stands once the first `k` chunks of `plan` are sent. */
  function Cursor(plan: seq<Chunk>, k: nat): (position: nat)
    requires k <= |plan|
  {
    if k == 0 then 0 else plan[k - 1].last + 1
  }

  /**
   * The chunks with the loop bound `cursor < total`, which sends every byte: the
   * behaviour the protocol intends.
   */
  function FullChunksFrom(total: nat, size: nat, cursor: nat): (cs: seq<Chunk>)
    requires size >= 1
    ensures cs == [] <==> cursor >= total
    ensures cs != [] ==> cs[0].first == cursor
    ensures Within(cs, cursor, total)
    decreases total - cursor
  {
    if cursor < total then
      var last := Min(cursor + size - 1, total - 1);
      [Chunk(cursor, last)] + FullChunksFrom(total, size, last + 1)
    else []
  }

  /** The intended chunks have the same shape, and the last one ends at `total - 1`. */
  lemma {:induction false} FullChunksShape(total: nat, size: nat, cursor: nat)
    requires size >= 1
    ensures Contiguous(FullChunksFrom(total, size, cursor))
    ensures Sized(FullChunksFrom(total, size, cursor), size)
    ensures cursor < total ==>
      FullChunksFrom(total, size, cursor)[|FullChunksFrom(total, size, cursor)| - 1].last == total - 1
    decreases total - cursor
  {
    if cursor < total {
      var last := Min(cursor + size - 1, total - 1);
      var rest := FullChunksFrom(total, size, last + 1);
      var cs := [Chunk(cursor, last)] + rest;
      assert cs == FullChunksFrom(total, size, cursor);
      assert cs[0] == Chunk(cursor, last) && cs[1..] == rest;
      FullChunksShape(total, size, last + 1);
      ConsShape(cs, size);
      if rest != [] {
        assert cs[|cs| - 1] == rest[|rest| - 1];
      } else {
        assert last == total - 1;
      }
    }
  }

  function FullChunkPlan(total: nat, size: nat): (plan: seq<Chunk>)
    requires size >= 1
  {
    FullChunksFrom(total, size, 0)
  }

  /** The bytes of `data` that the chunks `cs` carry, in order. */
  function Gather(data: seq<bv8>, cs: seq<Chunk>): (bytes: seq<bv8>)
    requires Within(cs, 0, |data|)
  {
    if cs == [] then [] else data[cs[0].first..cs[0].last + 1] + Gather(data, cs[1..])
  }

  /**
   * Where the bytes sent from `cursor` on end (exclusive): nowhere if the loop
   * does not run, one byte short of the end when the last chunk would start at
   * `total - 1`, and at the end otherwise.
   */
  function SentUpTo(total: nat, size: nat, cursor: nat): (upTo: nat)
    requires size >= 1
  {
    if cursor + 1 >= total then cursor
    else if (total - 1 - cursor) % size == 0 then total - 1
    else total
  }

  /** Moving `size` further along does not change the remainder modulo `size`. */
  lemma ModShift(x: nat, size: nat)
    requires size >= 1
    ensures (x + size) % size == x % size
  {
    var q, r := x / size, x % size;
    var q2, r2 := (x + size) / size, (x + size) % size;
    assert x == q * size + r;
    assert x + size == q2 * size + r2;
    assert (q + 1 - q2) * size == q * size + size - q2 * size;
    MultipleSmall(q + 1 - q2, size);
  }

  /** The only multiple of `d` strictly between `-d` and `d` is zero. */
  lemma MultipleSmall(k: int, d: int)
    requires d >= 1 && -d < k * d < d
    ensures k == 0
  {
    MultipleBounds(k, d);
  }

  lemma MultipleBounds(k: int, d: int)
    requires d >= 1
    ensures k >= 1 ==> k * d >= d
    ensures k <= -1 ==> k * d <= -d
  {
    if k >= 1 {
      assert k * d == (k - 1) * d + d;
    } else if k <= -1 {
      assert k * d == (k + 1) * d - d;
    }
  }

  /** Gathering a chunk list that starts with `c`. */
  lemma GatherCons(data: seq<bv8>, c: Chunk, rest: seq<Chunk>)
    requires c.first <= c.last < |data| && Within(rest, 0, |data|)
    ensures Gather(data, [c] + rest) == data[c.first..c.last + 1] + Gather(data, rest)
  {
    var cs := [c] + rest;
    WithinCons(c, rest, 0, |data|);
    assert cs[0] == c;
    assert cs[1..] == rest;
  }

  lemma WithinCons(c: Chunk, rest: seq<Chunk>, low: nat, total: nat)
    requires low <= c.first <= c.last < total && Within(rest, low, total)
    ensures Within([c] + rest, low, total)
  {
    var cs := [c] + rest;
    forall i | 0 <= i < |cs|
      ensures low <= cs[i].first <= cs[i].last < total
    {
      if i > 0 {
        assert cs[i] == rest[i - 1];
      }
    }
  }

  /** One turn of the loop leaves the end of what will be sent where it was. */
  lemma SentUpToStep(total: nat, size: nat, cursor: nat)
    requires size >= 1 && cursor + 1 < total
    ensures SentUpTo(total, size, Min(cursor + size - 1, total - 1) + 1) == SentUpTo(total, size, cursor)
  {
    var next := Min(cursor + size - 1, total - 1) + 1;
    if next < total - 1 {
      assert next == cursor + size;
      ModShift(total - 1 - next, size);
    } else if next == total - 1 {
      assert total - 1 - cursor == size;
    } else {
      assert 0 < total - 1 - cursor < size;
    }
  }

  /**
   * Coverage of the loop as written: from `cursor` on it sends the bytes of
   * `data` in order, without gap or overlap, up to `SentUpTo`.
   */
  lemma {:induction false} GatherFrom(data: seq<bv8>, size: nat, cursor: nat)
    requires size >= 1 && cursor <= |data|
    ensures cursor <= SentUpTo(|data|, size, cursor) <= |data|
    ensures Gather(data, ChunksFrom(|data|, size, cursor)) == data[cursor..SentUpTo(|data|, size, cursor)]
    decreases |data| - cursor
  {
    var total := |data|;
    if cursor + 1 < total {
      var last := Min(cursor + size - 1, total - 1);
      var rest := ChunksFrom(total, size, last + 1);
      assert ChunksFrom(total, size, cursor) == [Chunk(cursor, last)] + rest;
      GatherCons(data, Chunk(cursor, last), rest);
      GatherFrom(data, size, last + 1);
      SentUpToStep(total, size, cursor);
      var upTo := SentUpTo(total, size, cursor);
      assert Gather(data, rest) == data[last + 1..upTo];
      SliceJoin(data, cursor, last + 1, upTo);
    } else {
      assert ChunksFrom(total, size, cursor) == [];
    }
  }

  lemma SliceJoin<T>(s: seq<T>, i: nat, j: nat, k: nat)
    requires i <= j <= k <= |s|
    ensures s[i..j] + s[j..k] == s[i..k]
  {
  }

  /**
   * What a whole upload sends, as written: the first `SentUpTo(|data|, size, 0)`
   * bytes of the buffer, in order.
   */
  lemma PlanCoverage(data: seq<bv8>, size: nat)
    requires size >= 1
    ensures Gather(data, ChunkPlan(|data|, size)) == data[..SentUpTo(|data|, size, 0)]
  {
    GatherFrom(data, size, 0);
  }

  /**
   * The last byte is left unsent exactly when `(total - 1) % size == 0`: for
   * every buffer of at most one byte, and whenever the final chunk would be a
   * single byte. Otherwise the whole buffer is sent and the last chunk ends at
   * `total - 1`.
   */
  lemma LastByteCoverage(data: seq<bv8>, size: nat)
    requires size >= 1 && |data| >= 1
    ensures (|data| - 1) % size == 0 ==> Gather(data, ChunkPlan(|data|, size)) == data[..|data| - 1]
    ensures (|data| - 1) % size != 0 ==>
      && Gather(data, ChunkPlan(|data|, size)) == data
      && ChunkPlan(|data|, size)[|ChunkPlan(|data|, size)| - 1].last == |data| - 1
  {
    PlanCoverage(data, size);
    var cs := ChunkPlan(|data|, size);
    if (|data| - 1) % size != 0 {
      assert |data| >= 2;
      assert cs != [];
      LastChunkEnd(data, size, cs);
    }
  }

  lemma LastChunkEnd(data: seq<bv8>, size: nat, cs: seq<Chunk>)
    requires size >= 1 && cs == ChunkPlan(|data|, size) && cs != []
    requires Gather(data, cs) == data
    ensures cs[|cs| - 1].last == |data| - 1
  {
    ChunksShape(|data|, size, 0);
    GatherLength(data, cs);
  }

  /** Contiguous chunks from offset 0 carry exactly the bytes up to the last one's end. */
  lemma {:induction false} GatherLength(data: seq<bv8>, cs: seq<Chunk>)
    requires Within(cs, 0, |data|)
    requires Contiguous(cs)
    ensures cs != [] ==> |Gather(data, cs)| == cs[|cs| - 1].last + 1 - cs[0].first
  {
    if |cs| > 1 {
      assert Contiguous(cs[1..]) by {
        forall i, j | 0 <= i < j < |cs[1..]| && j == i + 1
          ensures cs[1..][j].first == cs[1..][i].last + 1
        {
          assert cs[j + 1].first == cs[i + 1].last + 1;
        }
      }
      GatherLength(data, cs[1..]);
      assert cs[1].first == cs[0].last + 1;
    }
  }

  /** The intended bound sends every byte of the buffer, in order, exactly once. */
  lemma {:induction false} FullCoverage(data: seq<bv8>, size: nat, cursor: nat)
    requires size >= 1 && cursor <= |data|
    ensures Gather(data, FullChunksFrom(|data|, size, cursor)) == data[cursor..]
    decreases |data| - cursor
  {
    if cursor < |data| {
      var last := Min(cursor + size - 1, |data| - 1);
      var rest := FullChunksFrom(|data|, size, last + 1);
      assert FullChunksFrom(|data|, size, cursor) == [Chunk(cursor, last)] + rest;
      GatherCons(data, Chunk(cursor, last), rest);
      FullCoverage(data, size, last + 1);
      assert data[cursor..last + 1] + data[last + 1..] == data[cursor..];
    }
  }

  /**
   * The loop as written sends the intended chunks, except that it drops the
   * last one exactly when that last chunk is a single byte starting at `total - 1`.
   */
  lemma {:induction false} AsWrittenDropsTail(total: nat, size: nat, cursor: nat)
    requires size >= 1
    ensures cursor < total && (total - 1 - cursor) % size == 0 ==>
      ChunksFrom(total, size, cursor)
        == FullChunksFrom(total, size, cursor)[..|FullChunksFrom(total, size, cursor)| - 1]
    ensures !(cursor < total && (total - 1 - cursor) % size == 0) ==>
      ChunksFrom(total, size, cursor) == FullChunksFrom(total, size, cursor)
    decreases total - cursor
  {
    var full := FullChunksFrom(total, size, cursor);
    if cursor + 1 < total {
      var last := Min(cursor + size - 1, total - 1);
      var next := last + 1;
      AsWrittenDropsTail(total, size, next);
      var head := Chunk(cursor, last);
      var fullRest := FullChunksFrom(total, size, next);
      assert full == [head] + fullRest;
      assert ChunksFrom(total, size, cursor) == [head] + ChunksFrom(total, size, next);
      TailDropStep(total, size, cursor);
      if next < total && (total - 1 - next) % size == 0 {
        assert full[..|full| - 1] == [head] + fullRest[..|fullRest| - 1];
      }
    } else if cursor + 1 == total {
      assert full == [Chunk(cursor, cursor)];
      assert (total - 1 - cursor) % size == 0;
    } else {
      assert full == [];
    }
  }

  /** Whether the tail is dropped does not change along the loop. */
  lemma TailDropStep(total: nat, size: nat, cursor: nat)
    requires size >= 1 && cursor + 1 < total
    ensures var next := Min(cursor + size - 1, total - 1) + 1;
      (next < total && (total - 1 - next) % size == 0) == ((total - 1 - cursor) % size == 0)
  {
    var next := Min(cursor + size - 1, total - 1) + 1;
    if next < total {
      assert next == cursor + size;
      ModShift(total - 1 - next, size);
    } else {
      assert 0 < total - 1 - cursor < size;
    }
  }

  /** 10 bytes in chunks of 4: `(0,3)`, `(4,7)`, `(8,9)`. */
  lemma TenBytesByFour()
    ensures ChunkPlan(10, 4) == [Chunk(0, 3), Chunk(4, 7), Chunk(8, 9)]
  {
  }

  /** 5 bytes in chunks of 4: only `(0,3)` is sent, although `(4,4)` is intended. */
  lemma FiveBytesByFour()
    ensures ChunkPlan(5, 4) == [Chunk(0, 3)]
    ensures FullChunkPlan(5, 4) == [Chunk(0, 3), Chunk(4, 4)]
  {
  }

  /** A buffer of at most one byte sends nothing. */
  lemma TinyBufferSendsNothing(total: nat, size: nat)
    requires size >= 1 && total <= 1
    ensures ChunkPlan(total, size) == []
    ensures total == 1 ==> FullChunkPlan(total, size) == [Chunk(0, 0)]
  {
  }
}
