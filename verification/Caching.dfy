/** The executor cache never shows: a run with it answers every call as a run that always loads afresh. */
module Caching {
  import opened Bytes
  import opened LoaderState
  import opened Runtime
  import opened Loader
  import opened Chain
  import opened Transitions
  import opened Invariant
  import opened Lifecycle
  import I = Instructions

  /** An upgradeable program that the invocation checks let through. */
  predicate Live(env: Env, s: Store, p: Key) {
    InState(env, Get(s, p), 2) && IsProgramData(env, Get(s, env.Derive(p)))
  }

  function ProgramBytes(env: Env, s: Store, p: Key): seq<u8> {
    Payload(Get(s, env.Derive(p)).data, PROGRAMDATA_OFFSET)
  }

  /** A cached executor was loaded from the program's bytes, perhaps without some of their trailing zeros. */
  ghost predicate EntrySound(env: Env, s: Store, p: Key, x: Executor) {
    && env.load(x.image) == Ok(x.code)
    && (Live(env, s, p) ==> ZeroExtends(ProgramBytes(env, s, p), x.image))
    && (LegacyProgram(env, Get(s, p)) ==> x.image == Get(s, p).data)
  }

  ghost predicate CacheSound(env: Env, s: State) {
    forall p: Key :: p in s.executors ==> EntrySound(env, s.accounts, p, s.executors[p])
  }

  /** The runtime puts a non-upgradeable program into the first slot of a call to it. */
  predicate LaidOut(env: Env, s: State, c: Call) {
    LegacyProgram(env, Get(s.accounts, c.programId)) ==> 1 <= |c.slots| && c.slots[0].key == c.programId
  }

  predicate StepLaidOut(env: Env, s: State, step: Step) {
    step.Submit? ==> LaidOut(env, s, step.call)
  }

  ghost predicate RunLaidOut(env: Env, s: State, steps: seq<Step>)
    decreases |steps|
  {
    steps != [] ==> StepLaidOut(env, s, steps[0]) && RunLaidOut(env, Next(env, s, steps[0]), steps[1..])
  }

  /** The program whose code a committed call replaces, if any. */
  function Subject(env: Env, c: Call): Option<Key> {
    if IsDeploy(env, c) && 8 <= |c.slots| then Some(c.slots[2].key)
    else if IsUpgrade(env, c) && 7 <= |c.slots| then Some(c.slots[1].key)
    else if c.programId != env.upgradeable && 1 <= |c.slots| && env.legacyInstruction(c.data) == Some(Finalize) then
      Some(c.slots[0].key)
    else None
  }

  // ---------- what a step does to programs it is not about ----------

  /** A committed call about another program leaves a live `p` live from before, payload and all. */
  lemma OtherProgramKept(env: Env, s: State, c: Call, p: Key)
    requires env.Valid() && Inv(env, s.accounts) && Commits(env, s, c)
    requires Subject(env, c) != Some(p)
    requires Live(env, Next(env, s, Submit(c)).accounts, p)
    ensures Live(env, s.accounts, p)
    ensures ProgramBytes(env, Next(env, s, Submit(c)).accounts, p) == ProgramBytes(env, s.accounts, p)
  {
    var pre, post, d := s.accounts, Next(env, s, Submit(c)).accounts, env.Derive(p);
    CommittedMoves(env, s, c, p);
    CommittedMoves(env, s, c, d);
    assert Sound(env, pre, p) && Sound(env, pre, d);
    ProgramNotMade(env, c, pre, post, p);
    ProgramDataNotMade(env, c, pre, post, p, d);
    if IsUpgrade(env, c) {
      UpgradedElsewhere(env, s, c, p);
    }
    PayloadKept(env, c, pre, post, d);
  }

  lemma UpgradedElsewhere(env: Env, s: State, c: Call, p: Key)
    requires env.Valid() && Inv(env, s.accounts) && Commits(env, s, c) && IsUpgrade(env, c)
    requires Subject(env, c) != Some(p) && env.HasDerived(p)
    ensures 7 <= |c.slots| && c.slots[0].key != env.Derive(p)
  {
    UpgradedPointer(env, s, c);
    assert env.HasDerived(c.slots[1].key) && c.slots[0].key == env.Derive(c.slots[1].key);
  }

  lemma ProgramNotMade(env: Env, c: Call, pre: Store, post: Store, p: Key)
    requires env.Valid() && Moved(env, c, pre, post, p) && InState(env, Get(post, p), 2)
    requires Subject(env, c) != Some(p)
    ensures InState(env, Get(pre, p), 2)
  {
  }

  lemma ProgramDataNotMade(env: Env, c: Call, pre: Store, post: Store, p: Key, d: Key)
    requires env.Valid() && env.HasDerived(p) && d == env.Derive(p) && Moved(env, c, pre, post, d)
    requires IsProgramData(env, Get(post, d))
    requires Subject(env, c) != Some(p)
    ensures IsProgramData(env, Get(pre, d))
  {
  }

  /** A ProgramData account that stays one and is not upgraded keeps its payload. */
  lemma PayloadKept(env: Env, c: Call, pre: Store, post: Store, d: Key)
    requires env.Valid() && Sound(env, pre, d) && Moved(env, c, pre, post, d)
    requires IsProgramData(env, Get(pre, d)) && IsProgramData(env, Get(post, d))
    requires IsUpgrade(env, c) && 7 <= |c.slots| ==> c.slots[0].key != d
    ensures Payload(Get(post, d).data, PROGRAMDATA_OFFSET) == Payload(Get(pre, d).data, PROGRAMDATA_OFFSET)
  {
    var a, b := Get(pre, d), Get(post, d);
    assert Credited(a, b) || Reauthorized(c, a, b);
    assert a.data[PROGRAMDATA_OFFSET..] == b.data[PROGRAMDATA_OFFSET..];
  }

  /** An Upgrade's ProgramData slot is the address derived from its Program slot. */
  lemma UpgradedPointer(env: Env, s: State, c: Call)
    requires env.Valid() && Inv(env, s.accounts) && Commits(env, s, c) && IsUpgrade(env, c)
    ensures 7 <= |c.slots| && env.findProgramAddress(c.slots[1].key) == Some(c.slots[0].key)
  {
    CommittedIsApplied(env, s, c);
    assert Sound(env, s.accounts, c.slots[1].key);
  }

  lemma OutsideProgramKept(env: Env, s: State, accounts: Store, p: Key)
    requires env.Valid() && Inv(env, s.accounts) && OutsideRule(env, s.accounts, accounts)
    ensures Live(env, accounts, p) ==>
              Live(env, s.accounts, p) && ProgramBytes(env, accounts, p) == ProgramBytes(env, s.accounts, p)
    ensures LegacyProgram(env, Get(accounts, p)) ==>
              LegacyProgram(env, Get(s.accounts, p)) && Get(accounts, p).data == Get(s.accounts, p).data
  {
    var d := env.Derive(p);
    assert OutsideAllows(env, p, Get(s.accounts, p), Get(accounts, p));
    assert OutsideAllows(env, d, Get(s.accounts, d), Get(accounts, d));
    if AllZero(Get(accounts, p).data) {
      ZeroInNoState(env, Get(accounts, p));
    }
    if AllZero(Get(accounts, d).data) {
      ZeroInNoState(env, Get(accounts, d));
    }
    assert Sound(env, s.accounts, p);
    assert env.HasDerived(p) ==> env.IsDerived(d);
  }

  /** Of the non-upgradeable loader's instructions only Finalize makes an account executable. */
  lemma OnlyFinalizeFinalizes(env: Env, s: State, c: Call)
    requires env.Valid() && Inv(env, s.accounts) && Commits(env, s, c) && c.programId != env.upgradeable
    ensures 1 <= |c.slots|
    ensures At(Next(env, s, Submit(c)).accounts, c, 0).executable ==> Subject(env, c) == Some(c.slots[0].key)
  {
    CommittedIsApplied(env, s, c);
    LegacyTargetNotExecutable(env, s, c);
  }

  /** Whatever else a call does, an account it leaves to a non-upgradeable loader keeps its bytes. */
  lemma LegacyMovedKept(env: Env, c: Call, pre: Store, post: Store, p: Key)
    requires env.Valid() && Sound(env, pre, p) && Moved(env, c, pre, post, p)
    requires LegacyProgram(env, Get(post, p))
    ensures || (LegacyProgram(env, Get(pre, p)) && Get(post, p).data == Get(pre, p).data)
            || (c.programId != env.upgradeable && 1 <= |c.slots| && p == c.slots[0].key)
  {
  }

  lemma LegacyKept(env: Env, s: State, c: Call, p: Key)
    requires env.Valid() && Inv(env, s.accounts) && Commits(env, s, c)
    requires LegacyProgram(env, Get(Next(env, s, Submit(c)).accounts, p))
    ensures || (&& LegacyProgram(env, Get(s.accounts, p))
                && Get(Next(env, s, Submit(c)).accounts, p).data == Get(s.accounts, p).data)
            || Subject(env, c) == Some(p)
  {
    CommittedMoves(env, s, c, p);
    assert Sound(env, s.accounts, p);
    LegacyMovedKept(env, c, s.accounts, Next(env, s, Submit(c)).accounts, p);
    if c.programId != env.upgradeable {
      OnlyFinalizeFinalizes(env, s, c);
    }
  }

  // ---------- the three ways an entry is made ----------

  lemma DeployEntry(env: Env, s: State, c: Call, len: u64)
    requires env.Valid() && DeployGuard(env, s.accounts, c, len) == None && IsDeploy(env, c)
    requires At(s.accounts, c, 2).owner == env.upgradeable
    ensures EntrySound(env, DeployEffect(env, s.accounts, c, len), c.slots[2].key,
                       DeployExecutor(env, s.accounts, c, len))
  {
    DeployFunds(env, s.accounts, c, len);
    DeployChecked(env, s.accounts, c, len);
    DeployResult(env, s.accounts, c, len);
    ImageReads(c.clock, c.slots[7].key, At(s.accounts, c, 3).data, PROGRAMDATA_OFFSET + len);
  }

  lemma UpgradeEntry(env: Env, s: State, c: Call)
    requires env.Valid() && UpgradeGuard(env, s.accounts, c) == None && IsUpgrade(env, c)
    requires env.findProgramAddress(c.slots[1].key) == Some(c.slots[0].key)
    requires At(s.accounts, c, 1).owner == env.upgradeable
    ensures EntrySound(env, UpgradeEffect(env, s.accounts, c), c.slots[1].key, UpgradeExecutor(env, s.accounts, c))
  {
    UpgradeImage(env, s.accounts, c);
    assert env.Derive(c.slots[1].key) != c.slots[1].key;
  }

  /** After Upgrade the payload is the buffer's payload and zeros, whatever was there before. */
  lemma UpgradeImage(env: Env, s: Store, c: Call)
    requires UpgradeGuard(env, s, c) == None
    ensures c.slots[0].key != c.slots[2].key && c.slots[0].key != c.slots[3].key
    ensures 0 < |At(s, c, 2).data| - BUFFER_OFFSET <= |At(s, c, 0).data| - PROGRAMDATA_OFFSET
    ensures At(UpgradeEffect(env, s, c), c, 0).data ==
            ProgramImage(c.clock, c.slots[6].key, At(s, c, 2).data, |At(s, c, 0).data|)
    ensures Payload(At(UpgradeEffect(env, s, c), c, 0).data, PROGRAMDATA_OFFSET) ==
            At(s, c, 2).data[BUFFER_OFFSET..]
            + Zeros(|At(s, c, 0).data| - PROGRAMDATA_OFFSET - (|At(s, c, 2).data| - BUFFER_OFFSET))
  {
    ImageReads(c.clock, c.slots[6].key, At(s, c, 2).data, |At(s, c, 0).data|);
  }

  /** A miss caches what it loads: the padded ProgramData payload, or the whole non-upgradeable account. */
  lemma InvokeEntry(env: Env, s: State, c: Call)
    requires env.Valid() && Inv(env, s.accounts) && LaidOut(env, s, c)
    requires Process(env, s.accounts, s.executors, c).Execute? && c.programId !in s.executors
    ensures var x := Process(env, s.accounts, s.executors, c).executors;
            && c.programId in x && x == s.executors[c.programId := x[c.programId]]
            && EntrySound(env, s.accounts, c.programId, x[c.programId])
  {
    var p := c.programId;
    assert Sound(env, s.accounts, p) && Sound(env, s.accounts, env.Derive(p));
    InvokedProgram(env, s, c);
    var program := Get(s.accounts, p);
    if program.owner == env.upgradeable {
      assert c.slots[0].key == env.Derive(p);
    } else {
      assert c.slots[0].key == p;
      assert program.data[0..] == program.data;
    }
  }

  /** Code runs only for the account the call names, and only past the invocation checks. */
  lemma InvokedProgram(env: Env, s: State, c: Call)
    requires env.Valid() && Inv(env, s.accounts) && Process(env, s.accounts, s.executors, c).Execute?
    ensures 1 <= |c.slots| && Get(s.accounts, c.programId).executable
    ensures InvokeOffset(env, s.accounts, c, Get(s.accounts, c.programId)).Ok?
    ensures Process(env, s.accounts, s.executors, c) ==
            ProcessInvoke(env, s.accounts, s.executors, c, Get(s.accounts, c.programId))
  {
  }

  // ---------- the invariant ----------

  lemma CacheNext(env: Env, s: State, step: Step)
    requires env.Valid() && Inv(env, s.accounts) && CacheSound(env, s) && StepLaidOut(env, s, step)
    ensures CacheSound(env, Next(env, s, step))
  {
    match step {
      case Evict(_) =>
      case Outside(accounts) =>
        if OutsideRule(env, s.accounts, accounts) {
          forall p: Key | p in s.executors
            ensures EntrySound(env, accounts, p, s.executors[p])
          {
            OutsideProgramKept(env, s, accounts, p);
          }
        }
      case Submit(c) =>
        if Process(env, s.accounts, s.executors, c).Execute? {
          if c.programId !in s.executors {
            InvokeEntry(env, s, c);
          } else {
            InvokedProgram(env, s, c);
          }
        } else if Commits(env, s, c) {
          CacheCommit(env, s, c);
        }
    }
  }

  /** `t` differs from `s` in the cache by one sound entry for the program the call is about, if there is one. */
  ghost predicate OneEntry(env: Env, s: State, c: Call, t: State) {
    match Subject(env, c)
    case None => t.executors == s.executors
    case Some(p) =>
      && p in t.executors && t.executors == s.executors[p := t.executors[p]]
      && EntrySound(env, t.accounts, p, t.executors[p])
  }

  lemma CommittedDeployEntry(env: Env, s: State, c: Call, len: u64)
    requires env.Valid() && Commits(env, s, c) && c.programId == env.upgradeable
    requires I.DeserializeForProcessor(c.data) == Some(I.DeployWithMaxDataLen(len))
    ensures OneEntry(env, s, c, Next(env, s, Submit(c)))
  {
    CommittedIsApplied(env, s, c);
    DeployOwner(env, s.accounts, c, len);
    DeployEntry(env, s, c, len);
  }

  lemma CommittedUpgradeEntry(env: Env, s: State, c: Call)
    requires env.Valid() && Inv(env, s.accounts) && Commits(env, s, c) && IsUpgrade(env, c)
    ensures OneEntry(env, s, c, Next(env, s, Submit(c)))
  {
    CommittedIsApplied(env, s, c);
    UpgradedPointer(env, s, c);
    UpgradeEntry(env, s, c);
  }

  lemma CommittedOtherEntry(env: Env, s: State, c: Call)
    requires Commits(env, s, c) && c.programId == env.upgradeable && !IsDeploy(env, c) && !IsUpgrade(env, c)
    ensures OneEntry(env, s, c, Next(env, s, Submit(c)))
  {
    CommittedIsApplied(env, s, c);
  }

  lemma CommittedLegacyEntry(env: Env, s: State, c: Call)
    requires env.Valid() && Commits(env, s, c) && c.programId != env.upgradeable
    ensures OneEntry(env, s, c, Next(env, s, Submit(c)))
  {
    CommittedIsApplied(env, s, c);
    var data := At(s.accounts, c, 0).data;
    assert data[0..] == data;
  }

  /** The cache after a committed call: a new entry for the program the call is about, and no other change. */
  lemma CommittedExecutors(env: Env, s: State, c: Call)
    requires env.Valid() && Inv(env, s.accounts) && Commits(env, s, c)
    ensures OneEntry(env, s, c, Next(env, s, Submit(c)))
  {
    if c.programId != env.upgradeable {
      CommittedLegacyEntry(env, s, c);
    } else {
      match I.DeserializeForProcessor(c.data) {
        case Some(DeployWithMaxDataLen(len)) => CommittedDeployEntry(env, s, c, len);
        case Some(Upgrade) => CommittedUpgradeEntry(env, s, c);
        case _ => CommittedOtherEntry(env, s, c);
      }
    }
  }

  lemma CacheCommit(env: Env, s: State, c: Call)
    requires env.Valid() && Inv(env, s.accounts) && CacheSound(env, s) && Commits(env, s, c)
    ensures CacheSound(env, Next(env, s, Submit(c)))
  {
    var t := Next(env, s, Submit(c));
    CommittedExecutors(env, s, c);
    forall p: Key | p in t.executors
      ensures EntrySound(env, t.accounts, p, t.executors[p])
    {
      if Subject(env, c) != Some(p) {
        assert t.executors[p] == s.executors[p];
        if Live(env, t.accounts, p) {
          OtherProgramKept(env, s, c, p);
        }
        if LegacyProgram(env, Get(t.accounts, p)) {
          LegacyKept(env, s, c, p);
        }
      }
    }
  }

  lemma {:induction false} CacheRun(env: Env, s: State, steps: seq<Step>)
    requires env.Valid() && Inv(env, s.accounts) && CacheSound(env, s) && RunLaidOut(env, s, steps)
    ensures Inv(env, Run(env, s, steps).accounts) && CacheSound(env, Run(env, s, steps))
    decreases |steps|
  {
    if steps != [] {
      InvNext(env, s, steps[0]);
      CacheNext(env, s, steps[0]);
      CacheRun(env, Next(env, s, steps[0]), steps[1..]);
    }
  }

  // ---------- with and without the cache ----------

  /** Loading does not depend on zero bytes at the end of the program. */
  ghost predicate ZerosDoNotMatter(env: Env) {
    forall whole: seq<u8>, part: seq<u8> :: ZeroExtends(whole, part) ==> env.load(whole) == env.load(part)
  }

  /** What the caller of the loader sees. */
  datatype Reply = Finished | Runs(code: nat) | Refused(error: Error)

  function ReplyOf(o: Outcome): Reply {
    match o
    case Done(_, _) => Finished
    case Execute(code, _) => Runs(code)
    case Fail(e) => Refused(e)
  }

  /** The call goes to a program's code rather than to the loader's own instructions. */
  predicate IsInvocation(s: Store, c: Call) {
    ProgramSlot(s, c).Ok? && At(s, c, ProgramSlot(s, c).value).executable
  }

  /** Same reply and same accounts, whatever happened to the cache. */
  predicate SameButCache(o: Outcome, o': Outcome) {
    match o
    case Done(a, _) => o'.Done? && o'.accounts == a
    case Fail(e) => o' == Fail(e)
    case Execute(_, _) => false
  }

  lemma DeployIgnoresCache(env: Env, s: Store, c: Call, len: u64, x: Cache, y: Cache)
    requires I.DeserializeForProcessor(c.data) == Some(I.DeployWithMaxDataLen(len))
    ensures SameButCache(ProcessUpgradeable(env, s, x, c), ProcessUpgradeable(env, s, y, c))
  {
  }

  lemma UpgradeIgnoresCache(env: Env, s: Store, c: Call, x: Cache, y: Cache)
    requires I.DeserializeForProcessor(c.data) == Some(I.Upgrade)
    ensures SameButCache(ProcessUpgradeable(env, s, x, c), ProcessUpgradeable(env, s, y, c))
  {
  }

  lemma OthersIgnoreCache(env: Env, s: Store, c: Call, x: Cache, y: Cache)
    requires !I.DeserializeForProcessor(c.data).Some? || !I.DeserializeForProcessor(c.data).value.DeployWithMaxDataLen?
    requires !I.DeserializeForProcessor(c.data).Some? || !I.DeserializeForProcessor(c.data).value.Upgrade?
    ensures SameButCache(ProcessUpgradeable(env, s, x, c), ProcessUpgradeable(env, s, y, c))
  {
  }

  lemma UpgradeableIgnoresCache(env: Env, s: Store, c: Call, x: Cache, y: Cache)
    ensures SameButCache(ProcessUpgradeable(env, s, x, c), ProcessUpgradeable(env, s, y, c))
  {
    match I.DeserializeForProcessor(c.data) {
      case Some(DeployWithMaxDataLen(len)) => DeployIgnoresCache(env, s, c, len, x, y);
      case Some(Upgrade) => UpgradeIgnoresCache(env, s, c, x, y);
      case _ => OthersIgnoreCache(env, s, c, x, y);
    }
  }

  /** The loader's own instructions never read the cache. */
  lemma InstructionsIgnoreCache(env: Env, s: Store, c: Call, x: Cache, y: Cache)
    requires !IsInvocation(s, c)
    ensures SameButCache(Process(env, s, x, c), Process(env, s, y, c))
  {
    UpgradeableIgnoresCache(env, s, c, x, y);
  }

  /** A cached executor of a program that passes the checks is what loading it again would give. */
  lemma CachedIsFresh(env: Env, s: State, c: Call, program: Account)
    requires env.Valid() && ZerosDoNotMatter(env) && Inv(env, s.accounts) && CacheSound(env, s) && LaidOut(env, s, c)
    requires 1 <= |c.slots| && program == Get(s.accounts, c.programId) && program.executable
    requires InvokeOffset(env, s.accounts, c, program).Ok? && c.programId in s.executors
    ensures CreateExecutor(env, At(s.accounts, c, 0).data, InvokeOffset(env, s.accounts, c, program).value).Ok?
    ensures CreateExecutor(env, At(s.accounts, c, 0).data,
                           InvokeOffset(env, s.accounts, c, program).value).value.code ==
            s.executors[c.programId].code
  {
    var p := c.programId;
    assert Sound(env, s.accounts, p) && Sound(env, s.accounts, env.Derive(p));
    assert EntrySound(env, s.accounts, p, s.executors[p]);
    var image := s.executors[p].image;
    if program.owner == env.upgradeable {
      assert c.slots[0].key == env.Derive(p);
      assert ZeroExtends(ProgramBytes(env, s.accounts, p), image);
    } else {
      assert image == At(s.accounts, c, 0).data[0..];
    }
  }

  /** One call: the same reply, and the same accounts, with the cache and with none. */
  lemma CacheTransparent(env: Env, s: State, c: Call)
    requires env.Valid() && ZerosDoNotMatter(env)
    requires Inv(env, s.accounts) && CacheSound(env, s) && LaidOut(env, s, c)
    ensures ReplyOf(Process(env, s.accounts, s.executors, c)) == ReplyOf(Process(env, s.accounts, map[], c))
    ensures Next(env, s, Submit(c)).accounts == Next(env, State(s.accounts, map[]), Submit(c)).accounts
  {
    if IsInvocation(s.accounts, c) {
      var program := At(s.accounts, c, ProgramSlot(s.accounts, c).value);
      assert program == Get(s.accounts, c.programId);
      if InvokeOffset(env, s.accounts, c, program).Ok? && c.programId in s.executors {
        CachedIsFresh(env, s, c, program);
      }
    } else {
      InstructionsIgnoreCache(env, s.accounts, c, s.executors, map[]);
    }
  }

  /** The replies along a run; without the cache, every call starts from an empty one. */
  ghost function Replies(env: Env, s: State, steps: seq<Step>, cached: bool): seq<Reply>
    decreases |steps|
  {
    if steps == [] then []
    else
      var start := if cached then s else State(s.accounts, map[]);
      (if steps[0].Submit? then [ReplyOf(Process(env, start.accounts, start.executors, steps[0].call))] else [])
      + Replies(env, Next(env, start, steps[0]), steps[1..], cached)
  }

  /** Where the accounts end up when every call starts from an empty cache. */
  ghost function RunUncached(env: Env, accounts: Store, steps: seq<Step>): Store
    decreases |steps|
  {
    if steps == [] then accounts
    else RunUncached(env, Next(env, State(accounts, map[]), steps[0]).accounts, steps[1..])
  }

  /** The whole run: same accounts, same replies. */
  lemma {:induction false} CacheNeverShows(env: Env, s: State, plain: State, steps: seq<Step>)
    requires env.Valid() && ZerosDoNotMatter(env)
    requires Inv(env, s.accounts) && CacheSound(env, s) && RunLaidOut(env, s, steps)
    requires plain.accounts == s.accounts
    ensures Replies(env, s, steps, true) == Replies(env, plain, steps, false)
    ensures Run(env, s, steps).accounts == RunUncached(env, plain.accounts, steps)
    decreases |steps|
  {
    if steps != [] {
      if steps[0].Submit? {
        CacheTransparent(env, s, steps[0].call);
      }
      InvNext(env, s, steps[0]);
      CacheNext(env, s, steps[0]);
      CacheNeverShows(env, Next(env, s, steps[0]), Next(env, State(plain.accounts, map[]), steps[0]), steps[1..]);
    }
  }

  /** In particular from a chain without upgradeable programs and an empty cache. */
  lemma FreshCacheNeverShows(env: Env, accounts: Store, steps: seq<Step>)
    requires env.Valid() && ZerosDoNotMatter(env) && NoPrograms(env, accounts)
    requires RunLaidOut(env, State(accounts, map[]), steps)
    ensures Replies(env, State(accounts, map[]), steps, true) == Replies(env, State(accounts, map[]), steps, false)
    ensures Run(env, State(accounts, map[]), steps).accounts == RunUncached(env, accounts, steps)
  {
    var s := State(accounts, map[]);
    NoProgramsIsSound(env, accounts);
    CacheNeverShows(env, s, s, steps);
  }

  /**
   * With a finalised program in the second slot, a miss compiles the first slot's account and caches that for the
   * program.
   */
  lemma MislaidCallCaches(env: Env, s: State, c: Call)
    requires env.Valid() && LegacyProgram(env, Get(s.accounts, c.programId)) && c.programId !in s.executors
    requires 2 <= |c.slots| && c.slots[0].key != c.programId && c.slots[1].key == c.programId
    ensures var first := At(s.accounts, c, 0).data;
            Next(env, s, Submit(c)) ==
            match env.load(first)
            case Ok(code) => s.(executors := s.executors[c.programId := Executor(first, code)])
            case Err(_) => s
  {
    var first := At(s.accounts, c, 0).data;
    assert first[0..] == first;
  }

  lemma LaidOutLegacyReply(env: Env, s: Store, executors: Cache, c: Call)
    requires LegacyProgram(env, Get(s, c.programId)) && env.Valid()
    requires 1 <= |c.slots| && c.slots[0].key == c.programId
    ensures ReplyOf(Process(env, s, executors, c)) ==
            if c.programId in executors then Runs(executors[c.programId].code)
            else
              match env.load(Get(s, c.programId).data)
              case Ok(code) => Runs(code)
              case Err(e) => Refused(e)
  {
    var data := Get(s, c.programId).data;
    assert data[0..] == data;
  }

  /**
   * The layout is needed: after one call with a finalised program in the second slot, the next call that is laid out
   * is answered as without the cache exactly if the first slot's bytes did not compile, or compile to the same code.
   */
  lemma MislaidCallShows(env: Env, s: State, mislaid: Call, c: Call)
    requires env.Valid() && LegacyProgram(env, Get(s.accounts, c.programId)) && c.programId !in s.executors
    requires mislaid.programId == c.programId && 2 <= |mislaid.slots|
    requires mislaid.slots[0].key != c.programId && mislaid.slots[1].key == c.programId
    requires 1 <= |c.slots| && c.slots[0].key == c.programId
    ensures var t := Next(env, s, Submit(mislaid));
            var first, program := At(s.accounts, mislaid, 0).data, Get(s.accounts, c.programId).data;
            ReplyOf(Process(env, t.accounts, t.executors, c)) == ReplyOf(Process(env, t.accounts, map[], c)) <==>
            env.load(first).Err? || env.load(first) == env.load(program)
  {
    var t := Next(env, s, Submit(mislaid));
    MislaidCallCaches(env, s, mislaid);
    LaidOutLegacyReply(env, t.accounts, t.executors, c);
    LaidOutLegacyReply(env, t.accounts, map[], c);
  }

  // ---------- upgrades forget ----------

  /** The bytes a committed call gives a program: the payload of the buffer it deploys or upgrades from. */
  function NewImage(env: Env, s: Store, c: Call): seq<u8> {
    if IsDeploy(env, c) && 8 <= |c.slots| then Payload(At(s, c, 3).data, BUFFER_OFFSET)
    else if IsUpgrade(env, c) && 7 <= |c.slots| then Payload(At(s, c, 2).data, BUFFER_OFFSET)
    else []
  }

  /** The image of the last committed Deploy or Upgrade of `p` in a run, starting from `image`. */
  ghost function LastImage(env: Env, s: State, steps: seq<Step>, p: Key, image: seq<u8>): seq<u8>
    decreases |steps|
  {
    if steps == [] then image
    else
      var now :=
        if steps[0].Submit? && Commits(env, s, steps[0].call) && Subject(env, steps[0].call) == Some(p)
        then NewImage(env, s.accounts, steps[0].call) else image;
      LastImage(env, Next(env, s, steps[0]), steps[1..], p, now)
  }

  /**
   * After a committed Deploy the program is live and its bytes are the buffer's payload, then zeros to the maximum
   * length.
   */
  lemma DeployedBytes(env: Env, s: State, c: Call, len: u64)
    requires env.Valid() && Commits(env, s, c)
    requires c.programId == env.upgradeable && I.DeserializeForProcessor(c.data) == Some(I.DeployWithMaxDataLen(len))
    ensures 8 <= |c.slots| && BUFFER_OFFSET <= |At(s.accounts, c, 3).data| <= BUFFER_OFFSET + len
    ensures Live(env, Next(env, s, Submit(c)).accounts, c.slots[2].key)
    ensures ProgramBytes(env, Next(env, s, Submit(c)).accounts, c.slots[2].key) ==
            At(s.accounts, c, 3).data[BUFFER_OFFSET..] + Zeros(len - (|At(s.accounts, c, 3).data| - BUFFER_OFFSET))
  {
    CommittedIsApplied(env, s, c);
    DeployOwner(env, s.accounts, c, len);
    DeployFunds(env, s.accounts, c, len);
    DeployChecked(env, s.accounts, c, len);
    DeployResult(env, s.accounts, c, len);
    SetStateReads(At(s.accounts, c, 2).data, Program(c.slots[1].key));
    ImageReads(c.clock, c.slots[7].key, At(s.accounts, c, 3).data, PROGRAMDATA_OFFSET + len);
  }

  lemma DeployedImage(env: Env, s: State, c: Call)
    requires env.Valid() && Commits(env, s, c) && IsDeploy(env, c)
    ensures 8 <= |c.slots|
    ensures ZeroExtends(ProgramBytes(env, Next(env, s, Submit(c)).accounts, c.slots[2].key),
                        NewImage(env, s.accounts, c))
  {
    match I.DeserializeForProcessor(c.data) {
      case Some(DeployWithMaxDataLen(len)) => DeployedBytes(env, s, c, len);
    }
  }

  lemma UpgradedImage(env: Env, s: State, c: Call)
    requires env.Valid() && Inv(env, s.accounts) && Commits(env, s, c) && IsUpgrade(env, c)
    ensures 7 <= |c.slots|
    ensures ZeroExtends(ProgramBytes(env, Next(env, s, Submit(c)).accounts, c.slots[1].key),
                        NewImage(env, s.accounts, c))
  {
    CommittedIsApplied(env, s, c);
    UpgradedPointer(env, s, c);
    UpgradeImage(env, s.accounts, c);
  }

  lemma NewImageLoaded(env: Env, s: State, c: Call, p: Key)
    requires env.Valid() && Inv(env, s.accounts) && Commits(env, s, c) && Subject(env, c) == Some(p)
    requires Live(env, Next(env, s, Submit(c)).accounts, p)
    ensures ZeroExtends(ProgramBytes(env, Next(env, s, Submit(c)).accounts, p), NewImage(env, s.accounts, c))
  {
    if IsDeploy(env, c) {
      DeployedImage(env, s, c);
    } else if IsUpgrade(env, c) {
      UpgradedImage(env, s, c);
    } else {
      CommittedMoves(env, s, c, p);
      assert false;
    }
  }

  lemma ImageNext(env: Env, s: State, step: Step, p: Key, image: seq<u8>)
    requires env.Valid() && Inv(env, s.accounts)
    requires Live(env, s.accounts, p) ==> ZeroExtends(ProgramBytes(env, s.accounts, p), image)
    requires Live(env, Next(env, s, step).accounts, p)
    ensures ZeroExtends(ProgramBytes(env, Next(env, s, step).accounts, p),
                        if step.Submit? && Commits(env, s, step.call) && Subject(env, step.call) == Some(p)
                        then NewImage(env, s.accounts, step.call) else image)
  {
    if step.Submit? && Commits(env, s, step.call) {
      if Subject(env, step.call) == Some(p) {
        NewImageLoaded(env, s, step.call, p);
      } else {
        OtherProgramKept(env, s, step.call, p);
      }
    } else if step.Outside? && OutsideRule(env, s.accounts, step.accounts) {
      OutsideProgramKept(env, s, step.accounts, p);
    }
  }

  /**
   * Upgrades forget: after any run, a live program's payload is the last deployed or upgraded buffer's
   * payload followed by zeros, whatever payloads came before.
   */
  lemma {:induction false} PayloadIsLastImage(env: Env, s: State, steps: seq<Step>, p: Key, image: seq<u8>)
    requires env.Valid() && Inv(env, s.accounts)
    requires Live(env, s.accounts, p) ==> ZeroExtends(ProgramBytes(env, s.accounts, p), image)
    requires Live(env, Run(env, s, steps).accounts, p)
    ensures ZeroExtends(ProgramBytes(env, Run(env, s, steps).accounts, p), LastImage(env, s, steps, p, image))
    decreases |steps|
  {
    if steps != [] {
      InvNext(env, s, steps[0]);
      var t := Next(env, s, steps[0]);
      var now :=
        if steps[0].Submit? && Commits(env, s, steps[0].call) && Subject(env, steps[0].call) == Some(p)
        then NewImage(env, s.accounts, steps[0].call) else image;
      if Live(env, t.accounts, p) {
        ImageNext(env, s, steps[0], p, image);
      }
      PayloadIsLastImage(env, t, steps[1..], p, now);
    }
  }

  // ---------- live programs stay live ----------

  /** The step is no Upgrade of the program and no Close of its ProgramData. */
  predicate LeavesProgram(env: Env, step: Step, p: Key) {
    step.Submit? ==>
      && !(IsUpgrade(env, step.call) && 2 <= |step.call.slots| && step.call.slots[1].key == p)
      && !(IsClose(env, step.call) && 1 <= |step.call.slots| && step.call.slots[0].key == env.Derive(p))
  }

  lemma MovedStaysProgramData(env: Env, c: Call, pre: Store, post: Store, d: Key)
    requires env.Valid() && Sound(env, pre, d) && Moved(env, c, pre, post, d) && IsProgramData(env, Get(pre, d))
    requires IsClose(env, c) && 1 <= |c.slots| ==> c.slots[0].key != d
    ensures IsProgramData(env, Get(post, d))
  {
  }

  lemma LiveCommit(env: Env, s: State, c: Call, p: Key)
    requires env.Valid() && Inv(env, s.accounts) && Live(env, s.accounts, p) && Commits(env, s, c)
    requires LeavesProgram(env, Submit(c), p)
    ensures Live(env, Next(env, s, Submit(c)).accounts, p)
    ensures ProgramBytes(env, Next(env, s, Submit(c)).accounts, p) == ProgramBytes(env, s.accounts, p)
  {
    var pre, post, d := s.accounts, Next(env, s, Submit(c)).accounts, env.Derive(p);
    CommittedMoves(env, s, c, d);
    NextSteps(env, s, Submit(c), p);
    assert Sound(env, pre, p) && Sound(env, pre, d);
    ProgramStays(env, pre, post, p);
    MovedStaysProgramData(env, c, pre, post, d);
    if IsUpgrade(env, c) {
      CommittedIsApplied(env, s, c);
      UpgradedElsewhere(env, s, c, p);
    }
    PayloadKept(env, c, pre, post, d);
  }

  lemma LiveNext(env: Env, s: State, step: Step, p: Key)
    requires env.Valid() && Inv(env, s.accounts) && Live(env, s.accounts, p) && LeavesProgram(env, step, p)
    ensures Live(env, Next(env, s, step).accounts, p)
    ensures ProgramBytes(env, Next(env, s, step).accounts, p) == ProgramBytes(env, s.accounts, p)
  {
    if step.Submit? {
      if Commits(env, s, step.call) {
        LiveCommit(env, s, step.call, p);
      }
    } else {
      NeverPurged(env, s, step, p);
      NeverPurged(env, s, step, env.Derive(p));
    }
  }

  /**
   * A live program stays live, with its bytes, over every run without an Upgrade of it or a Close of its
   * ProgramData.
   */
  lemma {:induction false} LiveRun(env: Env, s: State, steps: seq<Step>, p: Key)
    requires env.Valid() && Inv(env, s.accounts) && Live(env, s.accounts, p)
    requires forall i :: 0 <= i < |steps| ==> LeavesProgram(env, steps[i], p)
    ensures Live(env, Run(env, s, steps).accounts, p)
    ensures ProgramBytes(env, Run(env, s, steps).accounts, p) == ProgramBytes(env, s.accounts, p)
    decreases |steps|
  {
    if steps != [] {
      InvNext(env, s, steps[0]);
      LiveNext(env, s, steps[0], p);
      LiveRun(env, Next(env, s, steps[0]), steps[1..], p);
    }
  }

  /** The loader's own instructions are always laid out. */
  lemma LoaderCallLaidOut(env: Env, s: State, c: Call)
    requires Inv(env, s.accounts) && env.IsLoader(c.programId)
    ensures LaidOut(env, s, c)
  {
    assert Sound(env, s.accounts, c.programId);
  }

  /** A laid-out call of a live program runs the code its bytes compile to, whatever a sound cache holds. */
  lemma LiveProgramRuns(env: Env, s: State, p: Key, program: seq<u8>, c: Call)
    requires env.Valid() && ZerosDoNotMatter(env) && Inv(env, s.accounts) && CacheSound(env, s)
    requires Live(env, s.accounts, p) && ZeroExtends(ProgramBytes(env, s.accounts, p), program)
    requires env.load(program).Ok? && CallsProgram(env, c, p)
    ensures ReplyOf(Process(env, s.accounts, s.executors, c)) == Runs(env.load(program).value)
  {
    LiveProgramPasses(env, s.accounts, s.executors, p, c);
    var bytes := ProgramBytes(env, s.accounts, p);
    assert env.load(bytes) == env.load(program);
    if p in s.executors {
      assert EntrySound(env, s.accounts, p, s.executors[p]);
      assert env.load(bytes) == env.load(s.executors[p].image);
    }
  }

  /** So it does in every later run that leaves the program alone. */
  lemma LiveProgramRunsLater(env: Env, s: State, steps: seq<Step>, p: Key, program: seq<u8>, c: Call)
    requires env.Valid() && ZerosDoNotMatter(env) && Inv(env, s.accounts) && CacheSound(env, s)
    requires Live(env, s.accounts, p) && ZeroExtends(ProgramBytes(env, s.accounts, p), program)
    requires env.load(program).Ok? && RunLaidOut(env, s, steps)
    requires forall i :: 0 <= i < |steps| ==> LeavesProgram(env, steps[i], p)
    requires CallsProgram(env, c, p)
    ensures var now := Run(env, s, steps);
            ReplyOf(Process(env, now.accounts, now.executors, c)) == Runs(env.load(program).value)
  {
    CacheRun(env, s, steps);
    LiveRun(env, s, steps, p);
    LiveProgramRuns(env, Run(env, s, steps), p, program, c);
  }
}
