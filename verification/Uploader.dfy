/** The deployment script: buffer sizing, the chunk loop with retries, and the finalise step. */
module Uploader {
  import opened Bytes
  import opened LoaderState
  import opened Runtime
  import opened Loader
  import I = Instructions

  const CHUNK_SIZE: nat := 600
  const MAX_RETRIES: nat := 3

  function CeilDiv(n: nat, d: nat): nat
    requires 0 < d
  {
    (n + d - 1) / d
  }

  function Min(a: int, b: int): int {
    if a < b then a else b
  }

  /** The script's buffer account size: 33 bytes of metadata assumed, rounded up to a multiple of 1024. */
  function BufferSize(n: nat): nat {
    CeilDiv(n + 33, 1024) * 1024
  }

  /** Chunk size and number of chunks: the room left in a transaction, capped. */
  function CalculateOptimalChunkSize(dataLength: nat): (r: (nat, nat))
    ensures r.0 == CHUNK_SIZE == 600
    ensures (r.1 - 1) * CHUNK_SIZE < dataLength <= r.1 * CHUNK_SIZE || (dataLength == 0 && r.1 == 0)
  {
    var maxDataSize := 1232 - 400 - 5 - 150;
    var chunkSize := Min(maxDataSize, 600);
    (chunkSize, CeilDiv(dataLength, chunkSize))
  }

  function TotalChunks(n: nat): nat {
    CalculateOptimalChunkSize(n).1
  }

  function Chunk(program: seq<u8>, i: nat): (b: I.Payload)
    requires i < TotalChunks(|program|)
    ensures |b| <= CHUNK_SIZE && i * CHUNK_SIZE + |b| <= |program|
  {
    program[i * CHUNK_SIZE..Min((i + 1) * CHUNK_SIZE, |program|)]
  }

  // ---------- the exact size bound ----------

  /** No chunk of an n-byte program runs past the end of a buffer of the given size. */
  predicate ChunksFit(program: seq<u8>, size: nat) {
    forall i: nat | i < TotalChunks(|program|) :: BUFFER_OFFSET + i * CHUNK_SIZE + |Chunk(program, i)| <= size
  }

  lemma ChunksFitWhenAllFits(program: seq<u8>, size: nat)
    ensures ChunksFit(program, size) <==> program == [] || BUFFER_OFFSET + |program| <= size
  {
    if program != [] {
      var last := TotalChunks(|program|) - 1;
      assert last * CHUNK_SIZE + |Chunk(program, last)| == |program|;
    }
  }

  /** The script's buffer, sized for 33 bytes of metadata, has room for the header and the whole program. */
  predicate BufferFits(n: nat) {
    (n + 33) % 1024 !in {0, 1021, 1022, 1023}
  }

  /**
   * The script reserves 33 bytes where the header takes 37: the chunk loop stays inside its buffer exactly
   * when the rounding to 1024 leaves the missing four bytes.
   */
  lemma BufferSizeExact(program: seq<u8>)
    ensures ChunksFit(program, BufferSize(|program|)) <==> BufferFits(|program|)
  {
    ChunksFitWhenAllFits(program, BufferSize(|program|));
    BufferSlack(|program|);
  }

  lemma BufferSlack(n: nat)
    ensures BufferSize(n) == n + 33 + (if (n + 33) % 1024 == 0 then 0 else 1024 - (n + 33) % 1024)
  {
    var q, r := (n + 33) / 1024, (n + 33) % 1024;
    assert n + 33 == 1024 * q + r;
    assert (n + 33 + 1023) / 1024 == if r == 0 then q else q + 1;
  }

  lemma BufferFitsMeans(n: nat)
    ensures BufferFits(n) <==> BUFFER_OFFSET + n <= BufferSize(n)
  {
    BufferSlack(n);
  }

  /** A 991-byte program is one the script cannot upload. */
  lemma BufferSizeTooSmall()
    ensures !ChunksFit(Zeros(991), BufferSize(991))
  {
    BufferSizeExact(Zeros(991));
  }

  /** The SDK's own buffer length, header included, always fits. */
  lemma BuilderSizeFits(program: seq<u8>)
    ensures ChunksFit(program, BUFFER_OFFSET + |program|)
  {
    ChunksFitWhenAllFits(program, BUFFER_OFFSET + |program|);
  }

  /** With the buffer's size as maximum length, Deploy never answers that the maximum is too small. */
  lemma FinalizeLengthFits(buffer: Account, n: nat)
    requires |buffer.data| == BufferSize(n) && BufferSize(n) < TWO_64
    ensures DeploySizeGuard(buffer, BufferSize(n)) ==
            if MAX_PERMITTED_DATA_LENGTH < PROGRAMDATA_OFFSET + BufferSize(n) then Some(InvalidArgument) else None
  {
  }

  // ---------- the chunk loop ----------

  /** One transaction sent for a chunk, and what the script was told about it. */
  datatype Attempt = Attempt(chunk: nat, data: seq<u8>, reported: bool)

  predicate AttemptOf(program: seq<u8>, a: Attempt) {
    && a.chunk < TotalChunks(|program|) && a.chunk * CHUNK_SIZE < TWO_32
    && a.data == I.Serialize(I.Write(a.chunk * CHUNK_SIZE, Chunk(program, a.chunk)))
  }

  predicate Reported(attempts: seq<Attempt>, chunk: nat) {
    exists k :: 0 <= k < |attempts| && attempts[k].chunk == chunk && attempts[k].reported
  }

  /** The last attempts are all for one chunk, the first send and every retry, and all failed. */
  predicate GaveUp(attempts: seq<Attempt>) {
    && 4 <= |attempts|
    && forall k :: |attempts| - 4 <= k < |attempts| ==>
         !attempts[k].reported && attempts[k].chunk == attempts[|attempts| - 1].chunk
  }

  /**
   * Sends of one chunk, starting with the `count`-th reply: all but the last failed, and a failure came after every
   * retry.
   */
  ghost predicate TriesOf(tries: seq<Attempt>, i: nat, data: seq<u8>, replies: nat -> bool, count: nat, sent: bool) {
    && 0 < |tries| <= 4
    && (forall k {:trigger tries[k]} :: 0 <= k < |tries| ==> tries[k] == Attempt(i, data, replies(count + k)))
    && (forall k :: 0 <= k < |tries| - 1 ==> !tries[k].reported)
    && sent == tries[|tries| - 1].reported
    && (!sent ==> |tries| == 4)
  }

  /** One chunk: the first send, then up to three retries while sends are reported failed. */
  method SendChunk(program: seq<u8>, i: nat, data: seq<u8>, replies: nat -> bool, count: nat)
    returns (tries: seq<Attempt>, sent: bool)
    requires AttemptOf(program, Attempt(i, data, true))
    ensures TriesOf(tries, i, data, replies, count, sent)
  {
    sent := replies(count);
    tries := [Attempt(i, data, sent)];
    if !sent {
      var retries := 0;
      var retryDelay := 1000;
      while retries < MAX_RETRIES
        invariant retries <= MAX_RETRIES && |tries| == 1 + retries && !sent
        invariant forall k :: 0 <= k < |tries| ==>
                    tries[k] == Attempt(i, data, replies(count + k)) && !tries[k].reported
      {
        sent := replies(count + |tries|);
        tries := tries + [Attempt(i, data, sent)];
        if sent {
          break;
        }
        retries := retries + 1;
        if retries < MAX_RETRIES {
          retryDelay := retryDelay * 2;
        }
      }
    }
  }

  ghost predicate Honest(program: seq<u8>, replies: nat -> bool, attempts: seq<Attempt>) {
    && (forall k {:trigger attempts[k]} :: 0 <= k < |attempts| ==>
           AttemptOf(program, attempts[k]) && attempts[k].reported == replies(k))
    && (forall j, k :: 0 <= j < k < |attempts| ==> attempts[j].chunk <= attempts[k].chunk)
  }

  lemma GaveUpAfter(attempts: seq<Attempt>, tries: seq<Attempt>, i: nat)
    requires |tries| == 4
    requires forall k :: 0 <= k < |tries| ==> tries[k].chunk == i && !tries[k].reported
    ensures GaveUp(attempts + tries)
  {
    var all := attempts + tries;
    forall k | |all| - 4 <= k < |all|
      ensures all[k].chunk == i && !all[k].reported
    {
      assert all[k] == tries[k - |attempts|];
    }
  }

  predicate AllReported(attempts: seq<Attempt>, count: nat) {
    forall j: nat :: j < count ==> Reported(attempts, j)
  }

  predicate Before(attempts: seq<Attempt>, i: nat) {
    forall k :: 0 <= k < |attempts| ==> attempts[k].chunk < i
  }

  /** The record when the loop reaches chunk `i`. */
  ghost predicate Progress(program: seq<u8>, replies: nat -> bool, attempts: seq<Attempt>, i: nat) {
    Honest(program, replies, attempts) && Before(attempts, i) && AllReported(attempts, i)
  }

  /** Tries of chunk `i`, the first of them the `count`-th send. */
  ghost predicate TriesFor(program: seq<u8>, replies: nat -> bool, tries: seq<Attempt>, i: nat, count: nat) {
    forall k {:trigger tries[k]} :: 0 <= k < |tries| ==>
      AttemptOf(program, tries[k]) && tries[k].chunk == i && tries[k].reported == replies(count + k)
  }

  lemma HonestAppended(program: seq<u8>, replies: nat -> bool, attempts: seq<Attempt>, tries: seq<Attempt>, i: nat)
    requires Honest(program, replies, attempts) && Before(attempts, i)
    requires TriesFor(program, replies, tries, i, |attempts|)
    ensures Honest(program, replies, attempts + tries) && Before(attempts + tries, i + 1)
  {
    var all := attempts + tries;
    forall k | 0 <= k < |all|
      ensures AttemptOf(program, all[k]) && all[k].reported == replies(k)
      ensures if k < |attempts| then all[k].chunk < i else all[k].chunk == i
    {
      if k < |attempts| {
        assert all[k] == attempts[k];
      } else {
        assert all[k] == tries[k - |attempts|];
      }
    }
    forall j, k | 0 <= j < k < |all|
      ensures all[j].chunk <= all[k].chunk
    {
      if k < |attempts| {
        assert all[j] == attempts[j] && all[k] == attempts[k];
      }
    }
  }

  lemma ReportedAppended(attempts: seq<Attempt>, tries: seq<Attempt>, i: nat)
    requires AllReported(attempts, i) && tries != []
    requires tries[|tries| - 1].reported && tries[|tries| - 1].chunk == i
    ensures AllReported(attempts + tries, i + 1)
  {
    var all := attempts + tries;
    forall j: nat | j < i + 1
      ensures Reported(all, j)
    {
      if j < i {
        assert Reported(attempts, j);
        var k :| 0 <= k < |attempts| && attempts[k].chunk == j && attempts[k].reported;
        assert all[k] == attempts[k];
      } else {
        assert all[|all| - 1] == tries[|tries| - 1];
      }
    }
  }

  lemma TriesAreFor(program: seq<u8>, replies: nat -> bool, tries: seq<Attempt>, i: nat, data: seq<u8>, count: nat,
                    sent: bool)
    requires AttemptOf(program, Attempt(i, data, true)) && TriesOf(tries, i, data, replies, count, sent)
    ensures TriesFor(program, replies, tries, i, count)
    ensures !sent ==> forall k :: 0 <= k < |tries| ==> !tries[k].reported
  {
  }

  lemma ChunkSent(program: seq<u8>, replies: nat -> bool, attempts: seq<Attempt>, tries: seq<Attempt>, i: nat,
                  data: seq<u8>, sent: bool)
    requires Progress(program, replies, attempts, i)
    requires AttemptOf(program, Attempt(i, data, true)) && TriesOf(tries, i, data, replies, |attempts|, sent)
    ensures Honest(program, replies, attempts + tries)
    ensures if sent then Progress(program, replies, attempts + tries, i + 1) else GaveUp(attempts + tries)
  {
    TriesAreFor(program, replies, tries, i, data, |attempts|, sent);
    HonestAppended(program, replies, attempts, tries, i);
    if sent {
      ReportedAppended(attempts, tries, i);
    } else {
      GaveUpAfter(attempts, tries, i);
    }
  }

  /** The transaction data for one chunk; an offset past 32 bits cannot be encoded. */
  method EncodeChunk(program: seq<u8>, i: nat) returns (data: Option<seq<u8>>)
    requires i < TotalChunks(|program|)
    ensures data.None? ==> TWO_32 < |program|
    ensures data.Some? ==> AttemptOf(program, Attempt(i, data.value, true))
  {
    var offset := i * CHUNK_SIZE;
    var chunk := Chunk(program, i);
    data := I.EncodeWriteInstruction(offset, chunk);
  }

  /**
   * Send every chunk in turn; a failed send is retried up to three times, and a chunk that still fails
   * ends the upload. `replies(k)` is what the k-th send reports.
   */
  method WriteChunks(program: seq<u8>, replies: nat -> bool) returns (attempts: seq<Attempt>, finished: bool)
    ensures Honest(program, replies, attempts)
    ensures finished ==> AllReported(attempts, TotalChunks(|program|))
    ensures !finished ==> GaveUp(attempts) || TWO_32 < |program|
  {
    attempts := [];
    var (_, totalChunks) := CalculateOptimalChunkSize(|program|);
    for i := 0 to totalChunks
      invariant Progress(program, replies, attempts, i)
    {
      var data := EncodeChunk(program, i);
      if data == None {
        return attempts, false;
      }
      var tries, sent := SendChunk(program, i, data.value, replies, |attempts|);
      ChunkSent(program, replies, attempts, tries, i, data.value, sent);
      attempts := attempts + tries;
      if !sent {
        return attempts, false;
      }
    }
    return attempts, true;
  }

  /** The whole script: finalise is sent only after every chunk had an attempt reported successful. */
  method DeployProgram(program: seq<u8>, replies: nat -> bool)
    returns (attempts: seq<Attempt>, finalize: Option<seq<u8>>)
    ensures Honest(program, replies, attempts)
    ensures finalize.Some? ==>
              && AllReported(attempts, TotalChunks(|program|))
              && BufferSize(|program|) < TWO_64
              && finalize.value == I.Serialize(I.DeployWithMaxDataLen(BufferSize(|program|)))
    ensures finalize.None? ==> GaveUp(attempts) || TWO_32 < |program|
  {
    var bufferSize := BufferSize(|program|);
    var finished: bool;
    attempts, finished := WriteChunks(program, replies);
    finalize := None;
    if finished {
      finalize := I.EncodeDeployWithMaxDataLenInstruction(bufferSize);
    }
  }
}
