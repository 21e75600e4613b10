/** Splitting the output of a service over files of a fixed size. */
module Rotation {
  import opened SignalSafe

  type Bytes = seq<u8>
  type Disk = map<Bytes, Bytes>

  const DOT: u8 := 46

  /** The number of values of the u32 that counts chunks. */
  const U32_RANGE: nat := 0x1_0000_0000

  /** The configured path, the time at which the service was started, and whether that goes into the names. */
  datatype LogFile = LogFile(path: Bytes, timestamp: nat, appendTimestamp: bool)

  function FileName(log: LogFile, count: nat): Bytes {
    log.path + (if log.appendTimestamp then [DOT] + Digits(log.timestamp) else [])
             + (if count > 0 then [DOT] + Digits(count) else [])
  }

  /** The first file has the configured path, with the time if that is wanted; later ones also their number. */
  lemma FileNamesAreSpelled(log: LogFile, count: nat)
    ensures log.appendTimestamp && count > 0 ==>
              FileName(log, count) == log.path + [46] + Digits(log.timestamp) + [46] + Digits(count)
    ensures log.appendTimestamp && count == 0 ==> FileName(log, count) == log.path + [46] + Digits(log.timestamp)
    ensures !log.appendTimestamp && count > 0 ==> FileName(log, count) == log.path + [46] + Digits(count)
    ensures !log.appendTimestamp && count == 0 ==> FileName(log, count) == log.path
  {
    if log.appendTimestamp {
      assert log.path + [46] + Digits(log.timestamp) == log.path + ([46] + Digits(log.timestamp));
      if count > 0 {
        assert FileName(log, count) == log.path + ([46] + Digits(log.timestamp)) + ([46] + Digits(count));
      }
    }
  }

  /** Different chunk numbers give different files. */
  lemma FileNamesAreDistinct(log: LogFile, c: nat, d: nat)
    requires FileName(log, c) == FileName(log, d)
    ensures c == d
  {
    var prefix := log.path + if log.appendTimestamp then [DOT] + Digits(log.timestamp) else [];
    var x, y := FileName(log, c), FileName(log, d);
    assert x[|prefix|..] == if c > 0 then [DOT] + Digits(c) else [];
    assert y[|prefix|..] == if d > 0 then [DOT] + Digits(d) else [];
    if c > 0 && d > 0 {
      assert x[|prefix|..][1..] == Digits(c) && y[|prefix|..][1..] == Digits(d);
      DigitsAreCanonical(c);
      DigitsAreCanonical(d);
    }
  }

  /** What belongs into file number `i` of a stream cut every `size` bytes. */
  function Chunk(stream: Bytes, size: nat, i: nat): Bytes
    requires size > 0 && i * size <= |stream|
  {
    if |stream| - i * size < size then stream[i * size..] else stream[i * size..i * size + size]
  }

  function ChunkCount(stream: Bytes, size: nat): nat
    requires size > 0
  {
    |stream| / size + 1
  }

  lemma ChunkExists(stream: Bytes, size: nat, i: nat)
    requires size > 0
    ensures i < ChunkCount(stream, size) <==> i * size <= |stream|
  {
    var q := |stream| / size;
    assert q * size <= |stream| < (q + 1) * size;
    if i <= q {
      TimesIsMonotone(i, q, size);
    } else {
      TimesIsMonotone(q + 1, i, size);
    }
  }

  lemma TimesIsMonotone(a: nat, b: nat, c: nat)
    requires a <= b
    ensures a * c <= b * c
  {
  }

  lemma OneMoreTime(a: nat, c: nat)
    ensures (a + 1) * c == a * c + c
  {
  }

  /** The first `n` chunks, one after the other. */
  function Joined(stream: Bytes, size: nat, n: nat): Bytes
    requires size > 0 && n <= ChunkCount(stream, size)
  {
    if n == 0 then []
    else
      ChunkExists(stream, size, n - 1);
      Joined(stream, size, n - 1) + Chunk(stream, size, n - 1)
  }

  lemma ChunksJoin(stream: Bytes, size: nat)
    requires size > 0
    ensures Joined(stream, size, ChunkCount(stream, size)) == stream
  {
    var last := ChunkCount(stream, size) - 1;
    JoinedIsPrefix(stream, size, last);
    ChunkLength(stream, size, last);
    assert stream[..last * size] + stream[last * size..] == stream;
  }

  /** The chunks partition the stream: put together in order they give it back, and only the last one is
      shorter than the rotation size. */
  lemma ChunksPartition(stream: Bytes, size: nat)
    requires size > 0
    ensures Joined(stream, size, ChunkCount(stream, size)) == stream
    ensures forall i :: 0 <= i < ChunkCount(stream, size) ==>
      i * size <= |stream| && (|Chunk(stream, size, i)| == size <==> i < ChunkCount(stream, size) - 1)
  {
    hide *;
    ChunksJoin(stream, size);
    forall i | 0 <= i < ChunkCount(stream, size)
      ensures i * size <= |stream| && (|Chunk(stream, size, i)| == size <==> i < ChunkCount(stream, size) - 1)
    {
      ChunkLength(stream, size, i);
    }
  }

  lemma ChunkLength(stream: Bytes, size: nat, i: nat)
    requires size > 0 && i < ChunkCount(stream, size)
    ensures i * size <= |stream| && (|Chunk(stream, size, i)| == size <==> i < ChunkCount(stream, size) - 1)
  {
    ChunkExists(stream, size, i);
    ChunkExists(stream, size, i + 1);
    OneMoreTime(i, size);
  }

  lemma {:induction false} JoinedIsPrefix(stream: Bytes, size: nat, n: nat)
    requires size > 0 && n < ChunkCount(stream, size)
    ensures n * size <= |stream| && Joined(stream, size, n) == stream[..n * size]
  {
    ChunkExists(stream, size, n);
    if n > 0 {
      JoinedIsPrefix(stream, size, n - 1);
      OneMoreTime(n - 1, size);
      assert stream[..n * size] == stream[..(n - 1) * size] + stream[(n - 1) * size..n * size];
    }
  }

  lemma ResiduesDiffer(k: nat, i: nat)
    requires k < i && i - k < U32_RANGE
    ensures k % U32_RANGE != i % U32_RANGE
  {
  }

  /** The name of the file opened for the `i`th chunk: the counter is a u32. */
  function ChunkName(log: LogFile, i: nat): Bytes {
    FileName(log, i % U32_RANGE)
  }

  /** Each chunk that was not followed by a full round of the counter is on the disk. */
  ghost predicate Written(disk: Disk, stream: Bytes, size: nat, log: LogFile, n: nat)
    requires size > 0
  {
    forall k :: 0 <= k < n && n - k <= U32_RANGE ==>
      && k * size <= |stream|
      && ChunkName(log, k) in disk
      && disk[ChunkName(log, k)] == Chunk(stream, size, k)
  }

  ghost predicate OthersUntouched(disk: Disk, disk': Disk, log: LogFile) {
    forall name :: (forall c: nat :: name != FileName(log, c)) ==>
      (name in disk' <==> name in disk) && (name in disk ==> disk'[name] == disk[name])
  }

  lemma WriteOne(disk: Disk, stream: Bytes, size: nat, log: LogFile, n: nat)
    requires size > 0 && n * size <= |stream| && Written(disk, stream, size, log, n)
    ensures Written(disk[ChunkName(log, n) := Chunk(stream, size, n)],
                    stream, size, log, n + 1)
  {
    forall k | 0 <= k < n && n + 1 - k <= U32_RANGE
      ensures ChunkName(log, k) != ChunkName(log, n)
    {
      ResiduesDiffer(k, n);
      if ChunkName(log, k) == ChunkName(log, n) {
        FileNamesAreDistinct(log, k % U32_RANGE, n % U32_RANGE);
      }
    }
  }

  lemma WriteLeavesOthers(disk: Disk, disk': Disk, log: LogFile, c: nat, content: Bytes)
    requires OthersUntouched(disk, disk', log)
    ensures OthersUntouched(disk, disk'[FileName(log, c) := content], log)
  {
  }

  /** A full chunk moves the position to the start of the next; one that is not full is the last. */
  lemma NextPosition(stream: Bytes, size: nat, i: nat)
    requires size > 0 && i * size <= |stream|
    ensures |stream| - i * size >= size ==> i * size + size == (i + 1) * size
    ensures |stream| - i * size < size ==> i + 1 == ChunkCount(stream, size)
  {
    OneMoreTime(i, size);
    ChunkExists(stream, size, i);
    ChunkExists(stream, size, i + 1);
  }

  lemma NextCounter(i: nat)
    ensures (i % U32_RANGE + 1) % U32_RANGE == (i + 1) % U32_RANGE
  {
  }

  /** Opens the file for the next chunk, emptying it if it exists, and copies at most `size` bytes into it. */
  method CopyChunk(stream: Bytes, position: nat, log: LogFile, size: nat, chunk: nat, before: Disk,
                   ghost files: nat, ghost origin: Disk)
    returns (after: Disk, copied: nat)
    requires size > 0 && position == files * size && position <= |stream| && chunk == files % U32_RANGE
    requires Written(before, stream, size, log, files)
    requires OthersUntouched(origin, before, log)
    ensures copied == if |stream| - position < size then |stream| - position else size
    ensures after == before[FileName(log, chunk) := stream[position..position + copied]]
    ensures copied == size ==> position + copied == (files + 1) * size
    ensures copied < size ==> files + 1 == ChunkCount(stream, size)
    ensures Written(after, stream, size, log, files + 1)
    ensures OthersUntouched(origin, after, log)
  {
    copied := if |stream| - position < size then |stream| - position else size;
    NextPosition(stream, size, files);
    var content := stream[position..position + copied];
    assert content == Chunk(stream, size, files);
    WriteOne(before, stream, size, log, files);
    WriteLeavesOthers(origin, before, log, chunk, content);
    after := before[FileName(log, chunk) := content];
  }

  /** Copies the stream into files of `size` bytes until one is not filled: exactly `|stream| / size + 1` files
      are opened, so a stream that ends on a boundary leaves an empty last file, the last 2^32 chunks are on
      disk, and no other file is touched. */
  method ChunkedWriter(stream: Bytes, log: LogFile, size: nat, disk: Disk)
    returns (disk': Disk, ghost files: nat)
    requires size > 0
    ensures files == ChunkCount(stream, size)
    ensures Written(disk', stream, size, log, files)
    ensures OthersUntouched(disk, disk', log)
  {
    var chunk, position := 0, 0;
    disk' := disk;
    files := 0;
    var more := true;
    while more
      invariant more ==> position == files * size && position <= |stream| && chunk == files % U32_RANGE
      invariant !more ==> files == ChunkCount(stream, size)
      invariant Written(disk', stream, size, log, files)
      invariant OthersUntouched(disk, disk', log)
      decreases more, |stream| - position
    {
      var copied;
      disk', copied := CopyChunk(stream, position, log, size, chunk, disk', files, disk);
      NextCounter(files);
      chunk, position, files := (chunk + 1) % U32_RANGE, position + copied, files + 1;
      more := copied == size;
    }
  }

  /** No chunk overwrites another, so that all of the stream is on disk, if and only if the counter does
      not wrap around. */
  lemma NothingOverwrittenExactly(log: LogFile, files: nat)
    ensures (forall i, j :: 0 <= i < j < files ==>
              ChunkName(log, i) != ChunkName(log, j))
      <==> files <= 4294967296
  {
    if files <= U32_RANGE {
      forall i, j | 0 <= i < j < files
        ensures ChunkName(log, i) != ChunkName(log, j)
      {
        if ChunkName(log, i) == ChunkName(log, j) {
          FileNamesAreDistinct(log, i % U32_RANGE, j % U32_RANGE);
        }
      }
    } else {
      assert ChunkName(log, 0) == ChunkName(log, U32_RANGE);
    }
  }
}
