/** From program file to ProgramData: the script's transactions, run by the loader amid everyone else's. */
module EndToEnd {
  import opened Bytes
  import opened LoaderState
  import opened Runtime
  import opened Loader
  import opened Chain
  import opened Transitions
  import opened Invariant
  import opened Uploader
  import opened Caching
  import opened Conservation
  import Builders
  import Lifecycle
  import I = Instructions

  /** One deployment: the program and the three keys of the script. */
  datatype Plan = Plan(program: seq<u8>, payer: Key, buffer: Key, programKey: Key)

  function InitializeSlots(plan: Plan): seq<KeyedAccount> {
    [KeyedAccount(plan.buffer, false, true), KeyedAccount(plan.payer, false, false)]
  }

  function ChunkSlots(plan: Plan): seq<KeyedAccount> {
    [KeyedAccount(plan.buffer, false, true), KeyedAccount(plan.payer, true, false)]
  }

  function FinalizeSlots(env: Env, plan: Plan): seq<KeyedAccount>
    requires env.HasDerived(plan.programKey)
  {
    [KeyedAccount(plan.payer, true, true),
     KeyedAccount(env.Derive(plan.programKey), false, true),
     KeyedAccount(plan.programKey, false, true),
     KeyedAccount(plan.buffer, false, true),
     KeyedAccount(env.rentSysvar, false, false),
     KeyedAccount(env.clockSysvar, false, false),
     KeyedAccount(SYSTEM_PROGRAM, false, false),
     KeyedAccount(plan.payer, true, false)]
  }

  predicate IsInitialize(env: Env, plan: Plan, c: Call) {
    c.programId == env.upgradeable && c.slots == InitializeSlots(plan) && c.data == [0, 0, 0, 0]
  }

  predicate IsFinalize(env: Env, plan: Plan, c: Call) {
    && BufferSize(|plan.program|) < TWO_64 && env.HasDerived(plan.programKey)
    && c.programId == env.upgradeable && c.slots == FinalizeSlots(env, plan)
    && c.data == I.Serialize(I.DeployWithMaxDataLen(BufferSize(|plan.program|)))
  }

  /** The chunk that a step writes, if it is one of the script's chunk transactions. */
  function ChunkOf(env: Env, plan: Plan, step: Step): (r: Option<nat>)
    ensures r.Some? ==> r.value < TotalChunks(|plan.program|)
  {
    if !step.Submit? || step.call.programId != env.upgradeable || step.call.slots != ChunkSlots(plan) then None
    else
      match I.DeserializeForProcessor(step.call.data)
      case Some(Write(offset, bytes)) =>
        if && offset % CHUNK_SIZE == 0 && offset / CHUNK_SIZE < TotalChunks(|plan.program|)
           && bytes == Chunk(plan.program, offset / CHUNK_SIZE)
        then Some(offset / CHUNK_SIZE) else None
      case _ => None
  }

  lemma ChunkOfWrite(env: Env, plan: Plan, c: Call, i: nat)
    requires i < TotalChunks(|plan.program|) && i * CHUNK_SIZE < TWO_32
    requires c.programId == env.upgradeable && c.slots == ChunkSlots(plan)
    requires I.DeserializeForProcessor(c.data) == Some(I.Write(i * CHUNK_SIZE, Chunk(plan.program, i)))
    ensures ChunkOf(env, plan, Submit(c)) == Some(i)
  {
    assert (i * CHUNK_SIZE) / CHUNK_SIZE == i && (i * CHUNK_SIZE) % CHUNK_SIZE == 0;
  }

  /** The bytes the script sends for a chunk are read by the processor as that chunk. */
  lemma ScriptChunkIsChunk(env: Env, plan: Plan, a: Attempt, c: Call)
    requires AttemptOf(plan.program, a)
    requires c.programId == env.upgradeable && c.slots == ChunkSlots(plan) && c.data == a.data
    ensures ChunkOf(env, plan, Submit(c)) == Some(a.chunk)
  {
    I.EncodedIsRead(I.Write(a.chunk * CHUNK_SIZE, Chunk(plan.program, a.chunk)));
    ChunkOfWrite(env, plan, c, a.chunk);
  }

  /** The payer signs nothing but the script's own chunk transactions. */
  predicate PayerOnlyWritesChunks(env: Env, plan: Plan, step: Step) {
    Lifecycle.SignedStep(step, plan.payer) ==> ChunkOf(env, plan, step).Some?
  }

  /** The chunks whose transactions are somewhere in a run. */
  function SubmittedChunks(env: Env, plan: Plan, steps: seq<Step>): set<nat>
    decreases |steps|
  {
    if steps == [] then {}
    else
      (if ChunkOf(env, plan, steps[0]).Some? then {ChunkOf(env, plan, steps[0]).value} else {})
      + SubmittedChunks(env, plan, steps[1..])
  }

  lemma {:induction false} SubmittedAt(env: Env, plan: Plan, steps: seq<Step>, j: nat)
    requires j < |steps| && ChunkOf(env, plan, steps[j]).Some?
    ensures ChunkOf(env, plan, steps[j]).value in SubmittedChunks(env, plan, steps)
    decreases |steps|
  {
    if j > 0 {
      SubmittedAt(env, plan, steps[1..], j - 1);
    }
  }

  ghost function ChunkCommitted(env: Env, plan: Plan, s: State, step: Step): set<nat> {
    if ChunkOf(env, plan, step).Some? && Commits(env, s, step.call)
    then {ChunkOf(env, plan, step).value} else {}
  }

  /** The chunks whose transactions took effect somewhere in a run. */
  ghost function CommittedChunks(env: Env, plan: Plan, s: State, steps: seq<Step>): set<nat>
    decreases |steps|
  {
    if steps == [] then {}
    else ChunkCommitted(env, plan, s, steps[0]) + CommittedChunks(env, plan, Next(env, s, steps[0]), steps[1..])
  }

  /** What payload byte `y` may be when the chunks in `done` have been written. */
  predicate ByteOk(program: seq<u8>, done: set<nat>, y: nat, b: u8) {
    if |program| <= y then b == 0
    else b == program[y] || (b == 0 && y / CHUNK_SIZE !in done)
  }

  predicate PayloadOk(program: seq<u8>, done: set<nat>, payload: seq<u8>) {
    forall y: nat :: y < |payload| ==> ByteOk(program, done, y, payload[y])
  }

  /** The script's buffer account, partly filled. */
  ghost predicate FilledAccount(env: Env, plan: Plan, a: Account, done: set<nat>) {
    && a.owner == env.upgradeable && 0 < a.lamports
    && Decode(a.data) == Some(Buffer(Some(plan.payer)))
    && BUFFER_OFFSET <= |a.data| == BufferSize(|plan.program|)
    && PayloadOk(plan.program, done, a.data[BUFFER_OFFSET..])
    && (forall i :: i in done ==>
          i < TotalChunks(|plan.program|) && BUFFER_OFFSET + i * CHUNK_SIZE + |Chunk(plan.program, i)| <= |a.data|)
  }

  ghost predicate Filled(env: Env, plan: Plan, s: Store, done: set<nat>) {
    FilledAccount(env, plan, Get(s, plan.buffer), done)
  }

  /** Writing a chunk settles its bytes and disturbs no others, in whatever order and however often. */
  lemma ChunkWriteFills(program: seq<u8>, payload: seq<u8>, i: nat, done: set<nat>)
    requires i < TotalChunks(|program|) && i * CHUNK_SIZE + |Chunk(program, i)| <= |payload|
    requires PayloadOk(program, done, payload)
    ensures PayloadOk(program, done + {i}, Splice(payload, i * CHUNK_SIZE, Chunk(program, i)))
  {
    var bytes := Chunk(program, i);
    var off := i * CHUNK_SIZE;
    var after := Splice(payload, off, bytes);
    forall y: nat | y < |after|
      ensures ByteOk(program, done + {i}, y, after[y])
    {
      assert ByteOk(program, done, y, payload[y]);
      if off <= y < off + |bytes| {
        assert after[y] == bytes[y - off] == program[y];
      }
    }
  }

  lemma ChunkWriteFillsAccount(env: Env, plan: Plan, a: Account, i: nat, done: set<nat>)
    requires FilledAccount(env, plan, a, done) && i < TotalChunks(|plan.program|)
    requires BUFFER_OFFSET + i * CHUNK_SIZE + |Chunk(plan.program, i)| <= |a.data|
    requires var d := Splice(a.data, BUFFER_OFFSET + i * CHUNK_SIZE, Chunk(plan.program, i));
             Decode(d) == Decode(a.data)
    ensures var d := Splice(a.data, BUFFER_OFFSET + i * CHUNK_SIZE, Chunk(plan.program, i));
            FilledAccount(env, plan, a.(data := d), done + {i})
  {
    var d := Splice(a.data, BUFFER_OFFSET + i * CHUNK_SIZE, Chunk(plan.program, i));
    ChunkWriteFills(plan.program, a.data[BUFFER_OFFSET..], i, done);
    assert d[BUFFER_OFFSET..] == Splice(a.data[BUFFER_OFFSET..], i * CHUNK_SIZE, Chunk(plan.program, i));
  }

  lemma ChunkOfReads(env: Env, plan: Plan, c: Call)
    requires ChunkOf(env, plan, Submit(c)).Some?
    ensures var i := ChunkOf(env, plan, Submit(c)).value;
            && c.programId == env.upgradeable && 2 <= |c.slots| && c.slots[0].key == plan.buffer
            && i * CHUNK_SIZE < TWO_32
            && I.DeserializeForProcessor(c.data) == Some(I.Write(i * CHUNK_SIZE, Chunk(plan.program, i)))
  {
  }

  lemma CommittedWrite(env: Env, s: State, c: Call, offset: u32, bytes: I.Payload)
    requires Commits(env, s, c) && c.programId == env.upgradeable
    requires I.DeserializeForProcessor(c.data) == Some(I.Write(offset, bytes))
    ensures WriteGuard(s.accounts, c, offset, bytes) == None
    ensures Next(env, s, Submit(c)).accounts == WriteEffect(s.accounts, c, offset, bytes)
  {
    CommittedIsApplied(env, s, c);
  }

  /** A committed chunk transaction is exactly that write on the buffer. */
  lemma CommittedChunkWrites(env: Env, plan: Plan, s: State, c: Call)
    requires ChunkOf(env, plan, Submit(c)).Some? && Commits(env, s, c)
    ensures var i := ChunkOf(env, plan, Submit(c)).value;
            var a := Get(s.accounts, plan.buffer);
            && BUFFER_OFFSET + i * CHUNK_SIZE + |Chunk(plan.program, i)| <= |a.data|
            && var d := Splice(a.data, BUFFER_OFFSET + i * CHUNK_SIZE, Chunk(plan.program, i));
               Decode(d) == Decode(a.data) && Get(Next(env, s, Submit(c)).accounts, plan.buffer) == a.(data := d)
  {
    ChunkOfReads(env, plan, c);
    var i := ChunkOf(env, plan, Submit(c)).value;
    CommittedWrite(env, s, c, i * CHUNK_SIZE, Chunk(plan.program, i));
    WriteMoves(s.accounts, c, i * CHUNK_SIZE, Chunk(plan.program, i));
  }

  lemma StepFills(env: Env, plan: Plan, s: State, step: Step, done: set<nat>)
    requires env.Valid() && Filled(env, plan, s.accounts, done) && PayerOnlyWritesChunks(env, plan, step)
    ensures Filled(env, plan, Next(env, s, step).accounts, done + ChunkCommitted(env, plan, s, step))
  {
    if step.Submit? && ChunkOf(env, plan, step).Some? && Commits(env, s, step.call) {
      CommittedChunkWrites(env, plan, s, step.call);
      ChunkWriteFillsAccount(env, plan, Get(s.accounts, plan.buffer), ChunkOf(env, plan, step).value, done);
    } else {
      assert done + ChunkCommitted(env, plan, s, step) == done;
      if step.Submit? && ChunkOf(env, plan, step).Some? {
        assert Next(env, s, step).accounts == s.accounts;
      } else {
        Lifecycle.NoChangeWithoutAuthority(env, s, step, plan.buffer);
        assert Credited(Get(s.accounts, plan.buffer), Get(Next(env, s, step).accounts, plan.buffer));
      }
    }
  }

  lemma {:induction false} RunFills(env: Env, plan: Plan, s: State, steps: seq<Step>, done: set<nat>)
    requires env.Valid() && Filled(env, plan, s.accounts, done)
    requires forall i :: 0 <= i < |steps| ==> PayerOnlyWritesChunks(env, plan, steps[i])
    ensures Filled(env, plan, Run(env, s, steps).accounts, done + CommittedChunks(env, plan, s, steps))
    decreases |steps|
  {
    if steps == [] {
      assert done + CommittedChunks(env, plan, s, steps) == done;
    } else {
      StepFills(env, plan, s, steps[0], done);
      var now := done + ChunkCommitted(env, plan, s, steps[0]);
      RunFills(env, plan, Next(env, s, steps[0]), steps[1..], now);
      assert done + CommittedChunks(env, plan, s, steps) ==
             now + CommittedChunks(env, plan, Next(env, s, steps[0]), steps[1..]);
    }
  }

  ghost predicate AllChunks(program: seq<u8>, done: set<nat>) {
    forall i: nat :: i < TotalChunks(|program|) ==> i in done
  }

  /** A buffer in which every chunk was written holds the program, then zeros. */
  lemma FilledHoldsProgram(env: Env, plan: Plan, s: Store, done: set<nat>)
    requires Filled(env, plan, s, done) && AllChunks(plan.program, done)
    ensures var data := Get(s, plan.buffer).data;
            && BUFFER_OFFSET + |plan.program| <= |data|
            && data[BUFFER_OFFSET..] == plan.program + Zeros(|data| - BUFFER_OFFSET - |plan.program|)
  {
    var data := Get(s, plan.buffer).data;
    var n := |plan.program|;
    if n > 0 {
      var last := TotalChunks(n) - 1;
      assert last in done;
      assert last * CHUNK_SIZE + |Chunk(plan.program, last)| == n;
    }
    forall y | 0 <= y < |data| - BUFFER_OFFSET
      ensures data[BUFFER_OFFSET..][y] == (plan.program + Zeros(|data| - BUFFER_OFFSET - n))[y]
    {
      assert ByteOk(plan.program, done, y, data[BUFFER_OFFSET..][y]);
      if y < n {
        assert y / CHUNK_SIZE < TotalChunks(n);
      }
    }
  }

  /** InitializeBuffer on the freshly created account leaves an empty buffer that the payer controls. */
  lemma InitializeFills(env: Env, plan: Plan, s: State, c: Call)
    requires env.Valid() && IsInitialize(env, plan, c) && Commits(env, s, c)
    requires FreshBuffer(env, plan, s.accounts)
    ensures Filled(env, plan, Next(env, s, Submit(c)).accounts, {})
  {
    I.ScriptInitializeBuffer();
    CommittedIsApplied(env, s, c);
    InitializedAccount(env, plan, Get(s.accounts, plan.buffer));
  }

  /** The script's buffer account as the system program creates it. */
  predicate FreshBuffer(env: Env, plan: Plan, s: Store) {
    var a := Get(s, plan.buffer);
    a.owner == env.upgradeable && 0 < a.lamports && AllZero(a.data) && |a.data| == BufferSize(|plan.program|)
  }

  lemma InitializedAccount(env: Env, plan: Plan, a: Account)
    requires a.owner == env.upgradeable && 0 < a.lamports && AllZero(a.data) && |a.data| == BufferSize(|plan.program|)
    requires SetState(a.data, Buffer(Some(plan.payer))).Some?
    ensures FilledAccount(env, plan, a.(data := SetState(a.data, Buffer(Some(plan.payer))).value), {})
  {
    var st := Buffer(Some(plan.payer));
    HeaderSizes(st);
    SetStateReads(a.data, st);
  }

  lemma FinalizeReads(env: Env, plan: Plan, c: Call)
    requires IsFinalize(env, plan, c)
    ensures I.DeserializeForProcessor(c.data) == Some(I.DeployWithMaxDataLen(BufferSize(|plan.program|)))
    ensures 8 <= |c.slots| && c.slots[2].key == plan.programKey && c.slots[3].key == plan.buffer
  {
    I.EncodedIsRead(I.DeployWithMaxDataLen(BufferSize(|plan.program|)));
  }

  lemma FilledImage(env: Env, plan: Plan, s: Store, done: set<nat>)
    requires Filled(env, plan, s, done) && AllChunks(plan.program, done)
    ensures var data, len := Get(s, plan.buffer).data, BufferSize(|plan.program|);
            && |plan.program| <= |data| - BUFFER_OFFSET <= len
            && data[BUFFER_OFFSET..] + Zeros(len - (|data| - BUFFER_OFFSET)) ==
               plan.program + Zeros(len - |plan.program|)
  {
    FilledHoldsProgram(env, plan, s, done);
    ZerosJoin(plan.program, Get(s, plan.buffer).data[BUFFER_OFFSET..], BufferSize(|plan.program|));
  }

  /** Finalise moves the whole buffer into ProgramData. */
  lemma FinalizeDeploys(env: Env, plan: Plan, s: State, c: Call, done: set<nat>)
    requires env.Valid() && Filled(env, plan, s.accounts, done) && AllChunks(plan.program, done)
    requires IsFinalize(env, plan, c) && Commits(env, s, c)
    ensures var after := Next(env, s, Submit(c)).accounts;
            && Live(env, after, plan.programKey)
            && ProgramBytes(env, after, plan.programKey) ==
               plan.program + Zeros(BufferSize(|plan.program|) - |plan.program|)
  {
    FinalizeReads(env, plan, c);
    FilledImage(env, plan, s.accounts, done);
    DeployedBytes(env, s, c, BufferSize(|plan.program|));
  }

  lemma ZerosJoin(part: seq<u8>, whole: seq<u8>, len: nat)
    requires |part| <= |whole| <= len && whole == part + Zeros(|whole| - |part|)
    ensures whole + Zeros(len - |whole|) == part + Zeros(len - |part|)
  {
  }

  // ---------- when the script's calls take effect ----------

  /** The script's two-slot calls reach the processor unless the payer's address is the loader itself. */
  lemma BufferCallDispatch(env: Env, plan: Plan, s: Store, c: Call)
    requires Inv(env, s) && c.programId == env.upgradeable && 2 <= |c.slots|
    requires c.slots[0].key == plan.buffer && c.slots[1].key == plan.payer
    requires Get(s, plan.buffer).owner == env.upgradeable && !InState(env, Get(s, plan.buffer), 2)
    ensures ReachesProcessor(s, c) <==> plan.payer != env.upgradeable
  {
    assert Sound(env, s, plan.buffer) && Sound(env, s, env.upgradeable);
  }

  /**
   * InitializeBuffer takes effect exactly on a large enough account of the loader that nobody has initialised
   * before.
   */
  lemma InitializeCommitsExactly(env: Env, plan: Plan, s: State, c: Call)
    requires Inv(env, s.accounts) && IsInitialize(env, plan, c)
    ensures var a := Get(s.accounts, plan.buffer);
            Commits(env, s, c) <==>
            && plan.payer != env.upgradeable && a.owner == env.upgradeable
            && Decode(a.data) == Some(Uninitialized) && BUFFER_OFFSET <= |a.data|
  {
    I.ScriptInitializeBuffer();
    InitializeBufferCommitsExactly(env, s, c);
    var a := Get(s.accounts, plan.buffer);
    if a.owner == env.upgradeable && Decode(a.data) == Some(Uninitialized) {
      BufferCallDispatch(env, plan, s.accounts, c);
    }
  }

  lemma FreshBufferInitializes(env: Env, plan: Plan, s: State, c: Call)
    requires Inv(env, s.accounts) && IsInitialize(env, plan, c) && FreshBuffer(env, plan, s.accounts)
    requires plan.payer != env.upgradeable
    ensures Commits(env, s, c)
  {
    InitializeCommitsExactly(env, plan, s, c);
    ZeroDataIsUninitialized(Get(s.accounts, plan.buffer).data);
    BufferSlack(|plan.program|);
  }

  /** A chunk's transaction takes effect exactly when the chunk ends inside the buffer. */
  lemma ChunkCommitsExactly(env: Env, plan: Plan, s: State, c: Call, done: set<nat>)
    requires Inv(env, s.accounts) && Filled(env, plan, s.accounts, done) && ChunkOf(env, plan, Submit(c)).Some?
    ensures var i := ChunkOf(env, plan, Submit(c)).value;
            Commits(env, s, c) <==>
            && plan.payer != env.upgradeable
            && BUFFER_OFFSET + i * CHUNK_SIZE + |Chunk(plan.program, i)| <= BufferSize(|plan.program|)
  {
    var i := ChunkOf(env, plan, Submit(c)).value;
    ChunkOfReads(env, plan, c);
    BufferCallDispatch(env, plan, s.accounts, c);
    WriteCommitsExactly(env, s, c, i * CHUNK_SIZE, Chunk(plan.program, i));
  }

  /** In a buffer that fits, every chunk's transaction takes effect. */
  lemma FittingChunkCommits(env: Env, plan: Plan, s: State, c: Call, done: set<nat>)
    requires Inv(env, s.accounts) && Filled(env, plan, s.accounts, done) && ChunkOf(env, plan, Submit(c)).Some?
    requires plan.payer != env.upgradeable && BufferFits(|plan.program|)
    ensures Commits(env, s, c)
  {
    ChunkCommitsExactly(env, plan, s, c, done);
    BufferFitsMeans(|plan.program|);
  }

  /** The last chunk's takes effect exactly in a buffer that fits. */
  lemma LastChunkCommitsExactly(env: Env, plan: Plan, s: State, c: Call, done: set<nat>)
    requires Inv(env, s.accounts) && Filled(env, plan, s.accounts, done) && plan.payer != env.upgradeable
    requires ChunkOf(env, plan, Submit(c)) == Some(TotalChunks(|plan.program|) - 1)
    ensures Commits(env, s, c) <==> BufferFits(|plan.program|)
  {
    ChunkCommitsExactly(env, plan, s, c, done);
    BufferFitsMeans(|plan.program|);
    LastChunkEnds(plan.program);
  }

  lemma LastChunkEnds(program: seq<u8>)
    requires program != []
    ensures 0 < TotalChunks(|program|)
    ensures var last := TotalChunks(|program|) - 1; last * CHUNK_SIZE + |Chunk(program, last)| == |program|
  {
  }

  /** Over a run in a buffer that fits, the chunks that take effect are the chunks that were submitted. */
  lemma {:induction false} SubmittedIsCommitted(env: Env, plan: Plan, s: State, steps: seq<Step>, done: set<nat>)
    requires env.Valid() && Inv(env, s.accounts) && Filled(env, plan, s.accounts, done)
    requires plan.payer != env.upgradeable && BufferFits(|plan.program|)
    requires forall i :: 0 <= i < |steps| ==> PayerOnlyWritesChunks(env, plan, steps[i])
    ensures CommittedChunks(env, plan, s, steps) == SubmittedChunks(env, plan, steps)
    decreases |steps|
  {
    if steps != [] {
      if ChunkOf(env, plan, steps[0]).Some? {
        FittingChunkCommits(env, plan, s, steps[0].call, done);
      }
      InvNext(env, s, steps[0]);
      StepFills(env, plan, s, steps[0], done);
      SubmittedIsCommitted(env, plan, Next(env, s, steps[0]), steps[1..],
                           done + ChunkCommitted(env, plan, s, steps[0]));
    }
  }

  /** In a buffer that does not fit, the last chunk never takes effect, in any run. */
  lemma LastChunkNeverCommitted(env: Env, plan: Plan, s: State, steps: seq<Step>, done: set<nat>)
    requires env.Valid() && Filled(env, plan, s.accounts, done) && !BufferFits(|plan.program|)
    requires forall i :: 0 <= i < |steps| ==> PayerOnlyWritesChunks(env, plan, steps[i])
    ensures plan.program != [] && TotalChunks(|plan.program|) - 1 !in CommittedChunks(env, plan, s, steps)
  {
    RunFills(env, plan, s, steps, done);
    LastChunkNotIn(env, plan, Run(env, s, steps).accounts, done + CommittedChunks(env, plan, s, steps));
  }

  lemma LastChunkNotIn(env: Env, plan: Plan, s: Store, done: set<nat>)
    requires Filled(env, plan, s, done) && !BufferFits(|plan.program|)
    ensures plan.program != [] && TotalChunks(|plan.program|) - 1 !in done
  {
    LastChunkEnds(plan.program);
    BufferFitsMeans(|plan.program|);
  }

  /** An upload is complete if and only if every chunk was submitted, in whatever order, and the buffer fits. */
  lemma UploadCompletesExactly(env: Env, plan: Plan, s: State, steps: seq<Step>)
    requires env.Valid() && Inv(env, s.accounts) && Filled(env, plan, s.accounts, {}) && plan.payer != env.upgradeable
    requires forall i :: 0 <= i < |steps| ==> PayerOnlyWritesChunks(env, plan, steps[i])
    ensures AllChunks(plan.program, CommittedChunks(env, plan, s, steps)) <==>
            BufferFits(|plan.program|) && AllChunks(plan.program, SubmittedChunks(env, plan, steps))
  {
    if BufferFits(|plan.program|) {
      SubmittedIsCommitted(env, plan, s, steps, {});
    } else {
      LastChunkNeverCommitted(env, plan, s, steps, {});
      LastChunkEnds(plan.program);
      assert TotalChunks(|plan.program|) - 1 !in CommittedChunks(env, plan, s, steps);
    }
  }

  /** What finalise needs of the store once the program is in the buffer. */
  predicate FinalizeReady(env: Env, plan: Plan, s: Store, predrain: bool)
    requires |plan.program| <= BufferSize(|plan.program|) - BUFFER_OFFSET && BufferSize(|plan.program|) < TWO_64
  {
    var payer, p, size := Get(s, plan.payer), Get(s, plan.programKey), BufferSize(|plan.program|);
    && payer.owner == SYSTEM_PROGRAM && payer.data == [] && !payer.executable
    && plan.payer != env.Derive(plan.programKey)
    && p.owner == env.upgradeable && Decode(p.data) == Some(Uninitialized)
    && PROGRAM_SIZE <= |p.data| && env.rent(|p.data|) <= p.lamports
    && PROGRAMDATA_OFFSET + size <= MAX_PERMITTED_DATA_LENGTH
    && env.load(plan.program + Zeros(size - BUFFER_OFFSET - |plan.program|)).Ok?
    && Unused(Get(s, env.Derive(plan.programKey)))
    && Max(1, env.rent(PROGRAMDATA_OFFSET + size)) <= payer.lamports +
       (if predrain then Get(s, plan.buffer).lamports else 0)
  }

  /** Finalise on a filled buffer takes effect if and only if the store is ready for it. */
  lemma FinalizeCommitsExactly(env: Env, plan: Plan, s: State, c: Call, done: set<nat>)
    requires env.Valid() && Total(s.accounts) < TWO_64 && IsFinalize(env, plan, c)
    requires Filled(env, plan, s.accounts, done) && AllChunks(plan.program, done)
    ensures |plan.program| <= BufferSize(|plan.program|) - BUFFER_OFFSET
    ensures Commits(env, s, c) <==> FinalizeReady(env, plan, s.accounts, c.predrain)
  {
    BufferHoldsProgram(env, plan, s.accounts, done);
    FinalizeIsBuiltDeploy(env, plan, c);
    Builders.BuiltDeployCommitsExactly(env, s, plan.payer, plan.programKey, plan.buffer, plan.payer,
                                       BufferSize(|plan.program|), c);
    FilledReady(env, plan, s.accounts, c.predrain);
  }

  /** The buffer account with the whole program in it. */
  predicate HoldsProgram(env: Env, plan: Plan, a: Account)
    requires |plan.program| <= BufferSize(|plan.program|) - BUFFER_OFFSET
  {
    && a.owner == env.upgradeable && Decode(a.data) == Some(Buffer(Some(plan.payer)))
    && BUFFER_OFFSET < |a.data| == BufferSize(|plan.program|)
    && a.data[BUFFER_OFFSET..] == plan.program + Zeros(BufferSize(|plan.program|) - BUFFER_OFFSET - |plan.program|)
  }

  lemma BufferHoldsProgram(env: Env, plan: Plan, s: Store, done: set<nat>)
    requires Filled(env, plan, s, done) && AllChunks(plan.program, done)
    ensures |plan.program| <= BufferSize(|plan.program|) - BUFFER_OFFSET
    ensures HoldsProgram(env, plan, Get(s, plan.buffer))
  {
    FilledHoldsProgram(env, plan, s, done);
    BufferSlack(|plan.program|);
  }

  lemma FilledReady(env: Env, plan: Plan, s: Store, predrain: bool)
    requires |plan.program| <= BufferSize(|plan.program|) - BUFFER_OFFSET && BufferSize(|plan.program|) < TWO_64
    requires HoldsProgram(env, plan, Get(s, plan.buffer))
    ensures Builders.DeployReady(env, s, plan.payer, plan.programKey, plan.buffer, plan.payer,
                                 BufferSize(|plan.program|), predrain)
            <==> FinalizeReady(env, plan, s, predrain)
  {
  }

  lemma FinalizeIsBuiltDeploy(env: Env, plan: Plan, c: Call)
    requires IsFinalize(env, plan, c)
    ensures Builders.Carries(c, Builders.Deploy(env, plan.payer, plan.programKey, plan.buffer, plan.payer,
                                                BufferSize(|plan.program|)))
  {
  }

  // ---------- end to end ----------

  /** The chain after InitializeBuffer and a run of steps. */
  ghost function Uploaded(env: Env, s: State, initialize: Call, steps: seq<Step>): State {
    Run(env, Next(env, s, Submit(initialize)), steps)
  }

  /** Where the script starts: a reachable chain with the freshly created buffer account. */
  ghost predicate UploadStarts(env: Env, plan: Plan, s: State, initialize: Call, steps: seq<Step>) {
    && env.Valid() && Inv(env, s.accounts) && FreshBuffer(env, plan, s.accounts)
    && plan.payer != env.upgradeable && IsInitialize(env, plan, initialize)
    && (forall i :: 0 <= i < |steps| ==> PayerOnlyWritesChunks(env, plan, steps[i]))
  }

  /** Submitting every chunk of a program whose buffer fits fills the buffer. */
  lemma UploadFills(env: Env, plan: Plan, s: State, initialize: Call, steps: seq<Step>)
    requires UploadStarts(env, plan, s, initialize, steps) && BufferFits(|plan.program|)
    requires AllChunks(plan.program, SubmittedChunks(env, plan, steps))
    ensures Inv(env, Uploaded(env, s, initialize, steps).accounts)
    ensures Filled(env, plan, Uploaded(env, s, initialize, steps).accounts, SubmittedChunks(env, plan, steps))
  {
    FreshBufferInitializes(env, plan, s, initialize);
    InitializeFills(env, plan, s, initialize);
    var s1 := Next(env, s, Submit(initialize));
    InvNext(env, s, Submit(initialize));
    InvRun(env, s1, steps);
    SubmittedIsCommitted(env, plan, s1, steps, {});
    RunFills(env, plan, s1, steps, {});
    assert {} + CommittedChunks(env, plan, s1, steps) == SubmittedChunks(env, plan, steps);
  }

  /**
   * End to end. A program whose buffer fits; InitializeBuffer on the zero-filled buffer account; then any run in which
   * the payer signs only chunk transactions, in any order and with any repeats, covering every chunk, and anyone else
   * does anything. Then finalise takes effect if and only if the store is ready for it, and if so ProgramData holds
   * the program followed by zeros up to the maximum length.
   */
  lemma UploadDeploys(env: Env, plan: Plan, s: State, initialize: Call, steps: seq<Step>, finalize: Call)
    requires UploadStarts(env, plan, s, initialize, steps) && BufferFits(|plan.program|)
    requires AllChunks(plan.program, SubmittedChunks(env, plan, steps))
    requires IsFinalize(env, plan, finalize) && Total(Uploaded(env, s, initialize, steps).accounts) < TWO_64
    ensures |plan.program| <= BufferSize(|plan.program|) - BUFFER_OFFSET
    ensures var t := Uploaded(env, s, initialize, steps);
            && (Commits(env, t, finalize) <==> FinalizeReady(env, plan, t.accounts, finalize.predrain))
            && (FinalizeReady(env, plan, t.accounts, finalize.predrain) ==>
                  && Live(env, Next(env, t, Submit(finalize)).accounts, plan.programKey)
                  && ProgramBytes(env, Next(env, t, Submit(finalize)).accounts, plan.programKey) ==
                     plan.program + Zeros(BufferSize(|plan.program|) - |plan.program|))
  {
    var t := Uploaded(env, s, initialize, steps);
    UploadFills(env, plan, s, initialize, steps);
    FinalizeCommitsExactly(env, plan, t, finalize, SubmittedChunks(env, plan, steps));
    if Commits(env, t, finalize) {
      FinalizeDeploys(env, plan, t, finalize, SubmittedChunks(env, plan, steps));
    }
  }

  /** An attempt's transaction is in the run. */
  predicate Landed(env: Env, plan: Plan, a: Attempt, steps: seq<Step>) {
    exists j :: 0 <= j < |steps| && steps[j].Submit? && CarriesAttempt(env, plan, a, steps[j].call)
  }

  predicate CarriesAttempt(env: Env, plan: Plan, a: Attempt, c: Call) {
    c.programId == env.upgradeable && c.slots == ChunkSlots(plan) && c.data == a.data
  }

  lemma LandedIsSubmitted(env: Env, plan: Plan, a: Attempt, steps: seq<Step>)
    requires AttemptOf(plan.program, a) && Landed(env, plan, a, steps)
    ensures a.chunk in SubmittedChunks(env, plan, steps)
  {
    var j :| 0 <= j < |steps| && steps[j].Submit? && CarriesAttempt(env, plan, a, steps[j].call);
    ScriptChunkIsChunk(env, plan, a, steps[j].call);
    assert ChunkOf(env, plan, steps[j]) == Some(a.chunk);
    SubmittedAt(env, plan, steps, j);
  }

  /** The same for what the script did: if every send reported successful landed, every chunk was submitted. */
  lemma ScriptUploadDeploys(env: Env, plan: Plan, s: State, initialize: Call, steps: seq<Step>, finalize: Call,
                            replies: nat -> bool, attempts: seq<Attempt>)
    requires UploadStarts(env, plan, s, initialize, steps) && BufferFits(|plan.program|)
    requires Honest(plan.program, replies, attempts) && AllReported(attempts, TotalChunks(|plan.program|))
    requires forall k :: 0 <= k < |attempts| && attempts[k].reported ==> Landed(env, plan, attempts[k], steps)
    requires IsFinalize(env, plan, finalize) && Total(Uploaded(env, s, initialize, steps).accounts) < TWO_64
    ensures |plan.program| <= BufferSize(|plan.program|) - BUFFER_OFFSET
    ensures var t := Uploaded(env, s, initialize, steps);
            && (Commits(env, t, finalize) <==> FinalizeReady(env, plan, t.accounts, finalize.predrain))
            && (FinalizeReady(env, plan, t.accounts, finalize.predrain) ==>
                  ProgramBytes(env, Next(env, t, Submit(finalize)).accounts, plan.programKey) ==
                  plan.program + Zeros(BufferSize(|plan.program|) - |plan.program|))
  {
    forall i: nat | i < TotalChunks(|plan.program|)
      ensures i in SubmittedChunks(env, plan, steps)
    {
      assert Reported(attempts, i);
      var k :| 0 <= k < |attempts| && attempts[k].chunk == i && attempts[k].reported;
      LandedIsSubmitted(env, plan, attempts[k], steps);
    }
    UploadDeploys(env, plan, s, initialize, steps, finalize);
  }

  // ---------- from upload to invocation ----------

  /** A Deploy that takes effect has compiled the buffer's payload. */
  lemma FinalizeLoads(env: Env, plan: Plan, s: State, c: Call, done: set<nat>)
    requires env.Valid() && ZerosDoNotMatter(env) && IsFinalize(env, plan, c) && Commits(env, s, c)
    requires Filled(env, plan, s.accounts, done) && AllChunks(plan.program, done)
    ensures env.load(plan.program).Ok?
  {
    FinalizeReads(env, plan, c);
    CommittedIsApplied(env, s, c);
    FilledHoldsProgram(env, plan, s.accounts, done);
    var payload := Get(s.accounts, plan.buffer).data[BUFFER_OFFSET..];
    assert ZeroExtends(payload, plan.program);
    DeployLoads(env, s.accounts, c, BufferSize(|plan.program|));
  }

  lemma DeployLoads(env: Env, s: Store, c: Call, len: u64)
    requires DeployGuard(env, s, c, len) == None
    ensures BUFFER_OFFSET <= |At(s, c, 3).data| && env.load(At(s, c, 3).data[BUFFER_OFFSET..]).Ok?
  {
  }

  lemma FinalizedLive(env: Env, plan: Plan, s: State, c: Call, done: set<nat>)
    requires env.Valid() && Filled(env, plan, s.accounts, done) && AllChunks(plan.program, done)
    requires IsFinalize(env, plan, c) && Commits(env, s, c)
    ensures Live(env, Next(env, s, Submit(c)).accounts, plan.programKey)
    ensures ZeroExtends(ProgramBytes(env, Next(env, s, Submit(c)).accounts, plan.programKey), plan.program)
  {
    FinalizeDeploys(env, plan, s, c, done);
    BufferHoldsProgram(env, plan, s.accounts, done);
  }

  /** A call of the loader's own instructions keeps store and cache sound. */
  lemma LoaderCallKeeps(env: Env, s: State, c: Call)
    requires env.Valid() && Inv(env, s.accounts) && CacheSound(env, s) && env.IsLoader(c.programId)
    ensures Inv(env, Next(env, s, Submit(c)).accounts) && CacheSound(env, Next(env, s, Submit(c)))
  {
    LoaderCallLaidOut(env, s, c);
    CacheNext(env, s, Submit(c));
    InvNext(env, s, Submit(c));
  }

  /**
   * A finalised upload runs: in every later run without an Upgrade or Close of it, a laid-out call of the program is
   * answered by the code that the program's own bytes compile to, whatever the cache holds by then.
   */
  lemma FinalizedRuns(env: Env, plan: Plan, t: State, finalize: Call, done: set<nat>, later: seq<Step>, call: Call)
    requires env.Valid() && ZerosDoNotMatter(env) && Inv(env, t.accounts) && CacheSound(env, t)
    requires Filled(env, plan, t.accounts, done) && AllChunks(plan.program, done)
    requires IsFinalize(env, plan, finalize) && Commits(env, t, finalize)
    requires RunLaidOut(env, Next(env, t, Submit(finalize)), later)
    requires forall i :: 0 <= i < |later| ==> LeavesProgram(env, later[i], plan.programKey)
    requires Lifecycle.CallsProgram(env, call, plan.programKey)
    ensures var now := Run(env, Next(env, t, Submit(finalize)), later);
            && env.load(plan.program).Ok?
            && ReplyOf(Process(env, now.accounts, now.executors, call)) == Runs(env.load(plan.program).value)
  {
    FinalizeLoads(env, plan, t, finalize, done);
    FinalizedLive(env, plan, t, finalize, done);
    LoaderCallKeeps(env, t, finalize);
    LiveProgramRunsLater(env, Next(env, t, Submit(finalize)), later, plan.programKey, plan.program, call);
  }

  /** From the first transaction of the script to any later call of the program. */
  lemma UploadedProgramRuns(env: Env, plan: Plan, s: State, initialize: Call, steps: seq<Step>, finalize: Call,
                            later: seq<Step>, call: Call)
    requires UploadStarts(env, plan, s, initialize, steps) && BufferFits(|plan.program|)
    requires AllChunks(plan.program, SubmittedChunks(env, plan, steps)) && IsFinalize(env, plan, finalize)
    requires ZerosDoNotMatter(env) && CacheSound(env, s)
    requires RunLaidOut(env, Next(env, s, Submit(initialize)), steps)
    requires Commits(env, Uploaded(env, s, initialize, steps), finalize)
    requires RunLaidOut(env, Next(env, Uploaded(env, s, initialize, steps), Submit(finalize)), later)
    requires forall i :: 0 <= i < |later| ==> LeavesProgram(env, later[i], plan.programKey)
    requires Lifecycle.CallsProgram(env, call, plan.programKey)
    ensures var now := Run(env, Next(env, Uploaded(env, s, initialize, steps), Submit(finalize)), later);
            && env.load(plan.program).Ok?
            && ReplyOf(Process(env, now.accounts, now.executors, call)) == Runs(env.load(plan.program).value)
  {
    LoaderCallKeeps(env, s, initialize);
    CacheRun(env, Next(env, s, Submit(initialize)), steps);
    UploadFills(env, plan, s, initialize, steps);
    FinalizedRuns(env, plan, Uploaded(env, s, initialize, steps), finalize, SubmittedChunks(env, plan, steps), later,
                  call);
  }

  /** In a buffer that does not fit, the last chunk's transaction takes effect in no state at all. */
  lemma BadResidueNeverLands(env: Env, plan: Plan, s: State, c: Call)
    requires !BufferFits(|plan.program|) && |Get(s.accounts, plan.buffer).data| == BufferSize(|plan.program|)
    requires ChunkOf(env, plan, Submit(c)) == Some(TotalChunks(|plan.program|) - 1)
    ensures !Commits(env, s, c)
  {
    LastChunkEnds(plan.program);
    BufferFitsMeans(|plan.program|);
    if Commits(env, s, c) {
      CommittedChunkWrites(env, plan, s, c);
      assert false;
    }
  }
}
