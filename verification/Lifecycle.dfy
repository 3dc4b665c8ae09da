/** Whole-run guarantees about single programs and buffers. */
module Lifecycle {
  import opened Bytes
  import opened LoaderState
  import opened Runtime
  import opened Loader
  import opened Chain
  import opened Transitions
  import opened Invariant
  import I = Instructions

  // ---------- where runs start ----------

  /** No program has been deployed yet: the loader's accounts are blank and nobody holds a derived address. */
  ghost predicate NoPrograms(env: Env, s: Store) {
    forall k: Key ::
      var a := Get(s, k);
      && (a.owner == env.upgradeable ==> AllZero(a.data) && !a.executable)
      && (env.IsDerived(k) ==> a.data == [] && a.owner == SYSTEM_PROGRAM && !a.executable)
      && (env.IsLoader(k) ==> a.executable && !env.IsLoader(a.owner))
  }

  lemma NoProgramsIsSound(env: Env, s: Store)
    requires env.Valid() && NoPrograms(env, s)
    ensures Inv(env, s)
  {
    forall k: Key
      ensures Sound(env, s, k)
    {
      var a := Get(s, k);
      if AllZero(a.data) {
        ZeroInNoState(env, a);
      }
      assert a.owner == env.upgradeable ==> AllZero(a.data);
    }
  }

  /** Such stores exist: the loaders' own accounts and nothing else. */
  lemma StartExists(env: Env)
    requires env.Valid()
    ensures exists s: Store :: NoPrograms(env, s)
  {
    var loader := Account(1, SYSTEM_PROGRAM, true, []);
    var s: Store := map[env.upgradeable := loader, env.bpfLoader := loader, env.bpfLoaderDeprecated := loader];
    assert NoPrograms(env, s);
  }

  ghost predicate PointsAt(env: Env, s: Store, p: Key, programdata: Key) {
    IsProgram(env, Get(s, p), programdata)
  }

  /**
   * In every state reachable from one without programs: a Program account is executable, rent-exempt and
   * points at its derived address; a ProgramData account is rent-exempt and exactly one Program points at it;
   * a Buffer has an authority.
   */
  lemma ReachableLinkage(env: Env, s: State, steps: seq<Step>, k: Key)
    requires env.Valid() && NoPrograms(env, s.accounts)
    ensures var now := Run(env, s, steps).accounts;
            var a := Get(now, k);
            && (forall d: Key :: IsProgram(env, a, d) ==>
                  env.findProgramAddress(k) == Some(d) && a.executable && 0 < env.rent(|a.data|) <= a.lamports)
            && (IsProgramData(env, a) ==>
                  && Max(1, env.rent(|a.data|)) <= a.lamports
                  && (exists p: Key ::
                        PointsAt(env, now, p, k) && (forall q: Key :: PointsAt(env, now, q, k) ==> q == p)))
            && (IsBuffer(env, a) ==> Recorded(Decode(a.data).value).Some?)
  {
    NoProgramsIsSound(env, s.accounts);
    InvRun(env, s, steps);
    var now := Run(env, s, steps).accounts;
    assert Sound(env, now, k);
    if IsProgramData(env, Get(now, k)) {
      var p: Key :| env.HasDerived(p) && env.Derive(p) == k && IsProgram(env, Get(now, p), k);
      assert PointsAt(env, now, p, k);
      forall q: Key | PointsAt(env, now, q, k)
        ensures q == p
      {
        assert Sound(env, now, q);
      }
    }
  }

  /** Program and ProgramData accounts are never purged: no step of any kind removes one or its lamports. */
  lemma NeverPurged(env: Env, s: State, step: Step, k: Key)
    requires env.Valid() && Inv(env, s.accounts)
    requires InState(env, Get(s.accounts, k), 2) || InState(env, Get(s.accounts, k), 3)
    requires !step.Submit?
    ensures Credited(Get(s.accounts, k), Get(Next(env, s, step).accounts, k))
  {
    assert Sound(env, s.accounts, k);
    if step.Outside? && OutsideRule(env, s.accounts, step.accounts) {
      assert OutsideAllows(env, k, Get(s.accounts, k), Get(step.accounts, k));
    }
  }

  lemma WriteNotImmutable(s: Store, c: Call, offset: u32, bytes: seq<u8>)
    requires 1 <= |c.slots| && Decode(At(s, c, 0).data).Some?
    requires Decode(At(s, c, 0).data).value.Buffer? && Decode(At(s, c, 0).data).value.authority.Some?
    ensures WriteGuard(s, c, offset, bytes) != Some(Immutable)
  {
  }

  lemma SetAuthorityNotImmutable(s: Store, c: Call)
    requires 1 <= |c.slots| && Decode(At(s, c, 0).data).Some?
    requires Decode(At(s, c, 0).data).value.Buffer? && Decode(At(s, c, 0).data).value.authority.Some?
    ensures SetAuthorityGuard(s, c) != Some(Immutable)
  {
  }

  lemma CloseNotImmutable(s: Store, c: Call)
    requires 1 <= |c.slots| && Decode(At(s, c, 0).data).Some?
    requires Decode(At(s, c, 0).data).value.Buffer? && Decode(At(s, c, 0).data).value.authority.Some?
    ensures CloseGuard(s, c) != Some(Immutable)
  {
  }

  lemma BufferNext(env: Env, s: State, step: Step, k: Key)
    requires env.Valid() && BufferSound(env, s.accounts, k)
    ensures BufferSound(env, Next(env, s, step).accounts, k)
  {
    NextSteps(env, s, step, k);
    BufferStep(env, s.accounts, Next(env, s, step).accounts, k);
  }

  lemma {:induction false} BufferRun(env: Env, s: State, steps: seq<Step>, k: Key)
    requires env.Valid() && BufferSound(env, s.accounts, k)
    ensures BufferSound(env, Run(env, s, steps).accounts, k)
    decreases |steps|
  {
    if steps != [] {
      BufferNext(env, s, steps[0], k);
      BufferRun(env, Next(env, s, steps[0]), steps[1..], k);
    }
  }

  /**
   * The loader's "buffer is immutable" answers are never given for a buffer the loader owns, after any run from a
   * state in which that one account is not already a buffer without authority.
   */
  lemma ImmutableBufferUnreachable(env: Env, s: State, steps: seq<Step>, c: Call, offset: u32, bytes: seq<u8>)
    requires env.Valid() && 1 <= |c.slots| && BufferSound(env, s.accounts, c.slots[0].key)
    requires IsBuffer(env, At(Run(env, s, steps).accounts, c, 0))
    ensures WriteGuard(Run(env, s, steps).accounts, c, offset, bytes) != Some(Immutable)
    ensures SetAuthorityGuard(Run(env, s, steps).accounts, c) != Some(Immutable)
    ensures CloseGuard(Run(env, s, steps).accounts, c) != Some(Immutable)
  {
    var now := Run(env, s, steps).accounts;
    BufferRun(env, s, steps, c.slots[0].key);
    WriteNotImmutable(now, c, offset, bytes);
    SetAuthorityNotImmutable(now, c);
    CloseNotImmutable(now, c);
  }

  /** Program state is never left: over every run a Program account can only be credited. */
  lemma {:induction false} ProgramForever(env: Env, s: State, steps: seq<Step>, p: Key)
    requires env.Valid() && Inv(env, s.accounts) && InState(env, Get(s.accounts, p), 2)
    ensures Credited(Get(s.accounts, p), Get(Run(env, s, steps).accounts, p))
    decreases |steps|
  {
    if steps != [] {
      NextSteps(env, s, steps[0], p);
      assert Sound(env, s.accounts, p);
      ProgramStays(env, s.accounts, Next(env, s, steps[0]).accounts, p);
      InvNext(env, s, steps[0]);
      ProgramForever(env, Next(env, s, steps[0]), steps[1..], p);
    }
  }

  // ---------- closed programs ----------

  /** A Program account whose ProgramData is gone. */
  ghost predicate ClosedProgram(env: Env, s: Store, p: Key) {
    InState(env, Get(s, p), 2) && !IsProgramData(env, Get(s, env.Derive(p)))
  }

  /** ProgramData comes into being only for an uninitialised account that then becomes its Program. */
  lemma NewProgramDataNeedsProgram(env: Env, pre: Store, post: Store, p: Key)
    requires env.Valid() && env.HasDerived(p) && Steps(env, pre, post, env.Derive(p))
    requires !InState(env, Get(pre, env.Derive(p)), 3) && InState(env, Get(post, env.Derive(p)), 3)
    ensures Decode(Get(pre, p).data) == Some(Uninitialized)
  {
    BecomesProgramData(env, pre, post, env.Derive(p));
  }

  lemma ClosedStep(env: Env, pre: Store, post: Store, p: Key)
    requires env.Valid() && ClosedProgram(env, pre, p) && env.HasDerived(p)
    requires Credited(Get(pre, p), Get(post, p)) && Steps(env, pre, post, env.Derive(p))
    ensures ClosedProgram(env, post, p)
  {
    if InState(env, Get(post, env.Derive(p)), 3) {
      NewProgramDataNeedsProgram(env, pre, post, p);
      assert false;
    }
  }

  lemma ClosedNext(env: Env, s: State, step: Step, p: Key)
    requires env.Valid() && Inv(env, s.accounts) && ClosedProgram(env, s.accounts, p)
    ensures ClosedProgram(env, Next(env, s, step).accounts, p)
  {
    NextSteps(env, s, step, p);
    NextSteps(env, s, step, env.Derive(p));
    assert Sound(env, s.accounts, p);
    ProgramStays(env, s.accounts, Next(env, s, step).accounts, p);
    ClosedStep(env, s.accounts, Next(env, s, step).accounts, p);
  }

  lemma {:induction false} ClosedRun(env: Env, s: State, steps: seq<Step>, p: Key)
    requires env.Valid() && Inv(env, s.accounts) && ClosedProgram(env, s.accounts, p)
    ensures Inv(env, Run(env, s, steps).accounts) && ClosedProgram(env, Run(env, s, steps).accounts, p)
    decreases |steps|
  {
    if steps != [] {
      InvNext(env, s, steps[0]);
      ClosedNext(env, s, steps[0], p);
      ClosedRun(env, Next(env, s, steps[0]), steps[1..], p);
    }
  }

  /** No call of a closed program runs any code, whatever the cache still holds for it. */
  lemma ClosedNotInvocable(env: Env, s: State, p: Key, c: Call)
    requires env.Valid() && Inv(env, s.accounts) && ClosedProgram(env, s.accounts, p) && c.programId == p
    ensures Process(env, s.accounts, s.executors, c).Fail?
  {
    assert Sound(env, s.accounts, p) && Sound(env, s.accounts, env.Derive(p));
    assert env.IsDerived(env.Derive(p));
  }

  /** Closing a ProgramData account closes the one program that points at it. */
  lemma CloseCloses(env: Env, s: State, c: Call, p: Key)
    requires env.Valid() && Inv(env, s.accounts) && Commits(env, s, c) && IsClose(env, c)
    requires IsProgramData(env, At(s.accounts, c, 0)) && IsProgram(env, Get(s.accounts, p), c.slots[0].key)
    ensures ClosedProgram(env, Next(env, s, Submit(c)).accounts, p)
  {
    var pre, post, d := s.accounts, Next(env, s, Submit(c)).accounts, env.Derive(p);
    assert Sound(env, pre, p);
    NextSteps(env, s, Submit(c), p);
    ProgramStays(env, pre, post, p);
    CommittedIsApplied(env, s, c);
    SetStateReads(Get(pre, d).data, Uninitialized);
  }

  /** A closed program stays closed: after a committed Close, no later run makes its program callable again. */
  lemma ClosedForever(env: Env, s: State, c: Call, p: Key, steps: seq<Step>, call: Call)
    requires env.Valid() && Inv(env, s.accounts) && Commits(env, s, c) && IsClose(env, c)
    requires IsProgramData(env, At(s.accounts, c, 0)) && IsProgram(env, Get(s.accounts, p), c.slots[0].key)
    requires call.programId == p
    ensures var later := Run(env, Next(env, s, Submit(c)), steps);
            Process(env, later.accounts, later.executors, call).Fail?
  {
    InvNext(env, s, Submit(c));
    CloseCloses(env, s, c, p);
    ClosedRun(env, Next(env, s, Submit(c)), steps, p);
    ClosedNotInvocable(env, Run(env, Next(env, s, Submit(c)), steps), p, call);
  }

  // ---------- frozen programs ----------

  /** A program whose ProgramData has no upgrade authority. */
  ghost predicate FrozenProgram(env: Env, s: Store, p: Key) {
    && InState(env, Get(s, p), 2)
    && IsProgramData(env, Get(s, env.Derive(p)))
    && Recorded(Decode(Get(s, env.Derive(p)).data).value) == None
  }

  lemma MovedFrozen(env: Env, c: Call, pre: Store, post: Store, d: Key)
    requires env.Valid() && Moved(env, c, pre, post, d)
    requires IsProgramData(env, Get(pre, d)) && Recorded(Decode(Get(pre, d).data).value) == None
    ensures Credited(Get(pre, d), Get(post, d))
  {
  }

  /** Without a recorded authority nobody can have signed, so a step can only credit the account. */
  lemma FrozenProgramDataStays(env: Env, pre: Store, post: Store, d: Key)
    requires env.Valid() && Sound(env, pre, d) && Steps(env, pre, post, d)
    requires IsProgramData(env, Get(pre, d)) && Recorded(Decode(Get(pre, d).data).value) == None
    ensures Credited(Get(pre, d), Get(post, d))
  {
    forall c: Call | Moved(env, c, pre, post, d)
      ensures Credited(Get(pre, d), Get(post, d))
    {
      MovedFrozen(env, c, pre, post, d);
    }
  }

  lemma FrozenNext(env: Env, s: State, step: Step, p: Key)
    requires env.Valid() && Inv(env, s.accounts) && FrozenProgram(env, s.accounts, p)
    ensures Credited(Get(s.accounts, p), Get(Next(env, s, step).accounts, p))
    ensures Credited(Get(s.accounts, env.Derive(p)), Get(Next(env, s, step).accounts, env.Derive(p)))
  {
    var pre, post, d := s.accounts, Next(env, s, step).accounts, env.Derive(p);
    NextSteps(env, s, step, p);
    NextSteps(env, s, step, d);
    assert Sound(env, pre, p) && Sound(env, pre, d);
    ProgramStays(env, pre, post, p);
    FrozenProgramDataStays(env, pre, post, d);
  }

  /** Once frozen: header, payload and both accounts stay byte for byte, and neither loses a lamport, over every run. */
  lemma {:induction false} FrozenForever(env: Env, s: State, steps: seq<Step>, p: Key)
    requires env.Valid() && Inv(env, s.accounts) && FrozenProgram(env, s.accounts, p)
    ensures Inv(env, Run(env, s, steps).accounts) && FrozenProgram(env, Run(env, s, steps).accounts, p)
    ensures Credited(Get(s.accounts, p), Get(Run(env, s, steps).accounts, p))
    ensures Credited(Get(s.accounts, env.Derive(p)), Get(Run(env, s, steps).accounts, env.Derive(p)))
    decreases |steps|
  {
    if steps != [] {
      InvNext(env, s, steps[0]);
      FrozenNext(env, s, steps[0], p);
      FrozenForever(env, Next(env, s, steps[0]), steps[1..], p);
    }
  }

  /** The slots the runtime gives an upgradeable program: its ProgramData, then itself. */
  predicate CallsProgram(env: Env, c: Call, p: Key) {
    c.programId == p && 2 <= |c.slots| && c.slots[0].key == env.Derive(p) && c.slots[1].key == p
  }

  /** A live program passes every check before its code runs; what is loaded is its payload. */
  lemma LiveProgramPasses(env: Env, s: Store, executors: Cache, p: Key, c: Call)
    requires env.Valid() && Inv(env, s) && InState(env, Get(s, p), 2) && IsProgramData(env, Get(s, env.Derive(p)))
    requires CallsProgram(env, c, p)
    ensures PROGRAMDATA_OFFSET <= |Get(s, env.Derive(p)).data|
    ensures var payload := Get(s, env.Derive(p)).data[PROGRAMDATA_OFFSET..];
            Process(env, s, executors, c) ==
            if p in executors then Execute(executors[p].code, executors)
            else
              match env.load(payload)
              case Ok(code) => Execute(code, executors[p := Executor(payload, code)])
              case Err(e) => Fail(e)
  {
    assert Sound(env, s, p) && Sound(env, s, env.Derive(p));
  }

  /** A frozen program stays callable, with the payload it was frozen with. */
  lemma FrozenAlive(env: Env, s: State, steps: seq<Step>, p: Key, c: Call, executors: Cache)
    requires env.Valid() && Inv(env, s.accounts) && FrozenProgram(env, s.accounts, p)
    requires CallsProgram(env, c, p) && p !in executors
    requires PROGRAMDATA_OFFSET <= |Get(s.accounts, env.Derive(p)).data|
    ensures var payload := Get(s.accounts, env.Derive(p)).data[PROGRAMDATA_OFFSET..];
            Process(env, Run(env, s, steps).accounts, executors, c) ==
            match env.load(payload)
            case Ok(code) => Execute(code, executors[p := Executor(payload, code)])
            case Err(e) => Fail(e)
  {
    FrozenForever(env, s, steps, p);
    LiveProgramPasses(env, Run(env, s, steps).accounts, executors, p, c);
  }

  /** SetAuthority without a new authority freezes the program that points at the account. */
  lemma OmittedAuthorityFreezes(env: Env, s: State, c: Call, p: Key)
    requires env.Valid() && Inv(env, s.accounts) && Commits(env, s, c)
    requires c.programId == env.upgradeable && I.DeserializeForProcessor(c.data) == Some(I.SetAuthority)
    requires |c.slots| == 2 && IsProgramData(env, At(s.accounts, c, 0))
    requires IsProgram(env, Get(s.accounts, p), c.slots[0].key)
    ensures FrozenProgram(env, Next(env, s, Submit(c)).accounts, p)
  {
    var pre, post, d := s.accounts, Next(env, s, Submit(c)).accounts, env.Derive(p);
    assert Sound(env, pre, p);
    NextSteps(env, s, Submit(c), p);
    ProgramStays(env, pre, post, p);
    CommittedIsApplied(env, s, c);
    var st := WithAuthority(Decode(Get(pre, d).data).value, None);
    assert NewAuthority(c) == None;
    SetStateReads(Get(pre, d).data, st);
  }

  // ---------- finalised programs of the non-upgradeable loader ----------

  /** A finalised program of the non-upgradeable loader. */
  predicate LegacyProgram(env: Env, a: Account) {
    (a.owner == env.bpfLoader || a.owner == env.bpfLoaderDeprecated) && a.executable
  }

  /** The dispatcher never hands an executable account to the non-upgradeable loader's instructions. */
  lemma LegacyTargetNotExecutable(env: Env, s: State, c: Call)
    requires env.Valid() && Inv(env, s.accounts) && Commits(env, s, c) && c.programId != env.upgradeable
    ensures !At(s.accounts, c, 0).executable
  {
    CommittedIsApplied(env, s, c);
    assert Sound(env, s.accounts, c.programId);
  }

  lemma FinalizedNext(env: Env, s: State, step: Step, k: Key)
    requires env.Valid() && Inv(env, s.accounts)
    requires LegacyProgram(env, Get(s.accounts, k)) && 0 < Get(s.accounts, k).lamports
    ensures Credited(Get(s.accounts, k), Get(Next(env, s, step).accounts, k))
  {
    var pre, post := s.accounts, Next(env, s, step).accounts;
    if step.Submit? && Commits(env, s, step.call) {
      CommittedMoves(env, s, step.call, k);
      if step.call.programId != env.upgradeable {
        LegacyTargetNotExecutable(env, s, step.call);
      }
    } else {
      NextSteps(env, s, step, k);
    }
  }

  /** Once finalised, no run changes the program's bytes, owner or executable flag. */
  lemma {:induction false} FinalizedForever(env: Env, s: State, steps: seq<Step>, k: Key)
    requires env.Valid() && Inv(env, s.accounts)
    requires LegacyProgram(env, Get(s.accounts, k)) && 0 < Get(s.accounts, k).lamports
    ensures Credited(Get(s.accounts, k), Get(Run(env, s, steps).accounts, k))
    decreases |steps|
  {
    if steps != [] {
      InvNext(env, s, steps[0]);
      FinalizedNext(env, s, steps[0], k);
      FinalizedForever(env, Next(env, s, steps[0]), steps[1..], k);
    }
  }

  /** No run changes the account except by crediting it. */
  ghost predicate OnlyEverCredited(env: Env, s: State, k: Key) {
    forall steps: seq<Step> :: Credited(Get(s.accounts, k), Get(Run(env, s, steps).accounts, k))
  }

  lemma EmptyAccountPurged(env: Env, s: State, k: Key)
    requires Get(s.accounts, k).lamports == 0 && !env.IsLoader(k)
    ensures Get(Run(env, s, [Outside(s.accounts - {k})]).accounts, k) == NO_ACCOUNT
  {
    var purged := s.accounts - {k};
    var steps := [Outside(purged)];
    assert OutsideRule(env, s.accounts, purged);
    assert Run(env, s, steps) == Run(env, Next(env, s, steps[0]), steps[1..]);
    assert steps[1..] == [];
  }

  /** Finalize asks for no rent: the program is immutable for good if and only if its account holds any lamports. */
  lemma FinalizedForeverExactly(env: Env, s: State, k: Key)
    requires env.Valid() && Inv(env, s.accounts) && LegacyProgram(env, Get(s.accounts, k))
    ensures OnlyEverCredited(env, s, k) <==> 0 < Get(s.accounts, k).lamports
  {
    if 0 < Get(s.accounts, k).lamports {
      forall steps: seq<Step>
        ensures Credited(Get(s.accounts, k), Get(Run(env, s, steps).accounts, k))
      {
        FinalizedForever(env, s, steps, k);
      }
    } else {
      assert Sound(env, s.accounts, k);
      EmptyAccountPurged(env, s, k);
      assert !Credited(Get(s.accounts, k), NO_ACCOUNT);
    }
  }

  // ---------- authority ----------

  /**
   * A Buffer or ProgramData account of the loader changes or loses lamports only in a call that its
   * recorded authority signed. The one exception: without lamports it may be purged between calls.
   */
  lemma NoChangeWithoutAuthority(env: Env, s: State, step: Step, k: Key)
    requires env.Valid()
    requires IsBuffer(env, Get(s.accounts, k)) || IsProgramData(env, Get(s.accounts, k))
    ensures var a, b := Get(s.accounts, k), Get(Next(env, s, step).accounts, k);
            || Credited(a, b)
            || (step.Submit? && SignedBy(step.call, Recorded(Decode(a.data).value)))
            || (step.Outside? && a.lamports == 0 && b == NO_ACCOUNT)
  {
    var pre, post := s.accounts, Next(env, s, step).accounts;
    if step.Submit? && Commits(env, s, step.call) {
      CommittedMoves(env, s, step.call, k);
    } else if step.Outside? && OutsideRule(env, pre, step.accounts) {
      assert OutsideAllows(env, k, Get(pre, k), Get(post, k));
    }
  }

  predicate SignedStep(step: Step, authority: Key) {
    step.Submit? && authority in Signers(step.call)
  }

  /** Without a step signed by its authority, a funded Buffer or ProgramData account keeps every byte and lamport. */
  lemma {:induction false} UntouchedWithoutAuthority(env: Env, s: State, steps: seq<Step>, k: Key, authority: Key)
    requires env.Valid() && 0 < Get(s.accounts, k).lamports
    requires IsBuffer(env, Get(s.accounts, k)) || IsProgramData(env, Get(s.accounts, k))
    requires Recorded(Decode(Get(s.accounts, k).data).value) == Some(authority)
    requires forall i :: 0 <= i < |steps| ==> !SignedStep(steps[i], authority)
    ensures Credited(Get(s.accounts, k), Get(Run(env, s, steps).accounts, k))
    decreases |steps|
  {
    if steps != [] {
      assert !SignedStep(steps[0], authority);
      NoChangeWithoutAuthority(env, s, steps[0], k);
      UntouchedWithoutAuthority(env, Next(env, s, steps[0]), steps[1..], k, authority);
    }
  }

  // ---------- header and payload ----------

  /** Write puts its bytes at 37 + offset and nothing else moves: not the header, not the length. */
  lemma WriteKeepsHeader(s: Store, c: Call, offset: u32, bytes: seq<u8>)
    requires WriteGuard(s, c, offset, bytes) == None
    ensures var a, b := At(s, c, 0), At(WriteEffect(s, c, offset, bytes), c, 0);
            && Decode(b.data) == Decode(a.data) && |b.data| == |a.data|
            && BUFFER_OFFSET <= |a.data| && b.data[..BUFFER_OFFSET] == a.data[..BUFFER_OFFSET]
            && (forall i :: 0 <= i < |a.data| ==>
                  b.data[i] == if 37 + offset <= i < 37 + offset + |bytes| then bytes[i - 37 - offset] else a.data[i])
  {
    WriteMoves(s, c, offset, bytes);
  }

  /** SetAuthority keeps every payload byte, also when the header it writes is the shorter one without authority. */
  lemma SetAuthorityKeepsPayload(s: Store, c: Call)
    requires SetAuthorityGuard(s, c) == None
    ensures var a, b := At(s, c, 0), At(SetAuthorityEffect(s, c), c, 0);
            var offset := if Decode(a.data).value.Buffer? then BUFFER_OFFSET else PROGRAMDATA_OFFSET;
            && Decode(a.data).Some? && |b.data| == |a.data|
            && (forall i :: offset <= i < |a.data| ==> b.data[i] == a.data[i])
            && Decode(b.data) == Some(WithAuthority(Decode(a.data).value, NewAuthority(c)))
  {
    SetAuthorityMoves(s, c);
    var a := At(s, c, 0);
    DecodedFits(a.data);
    SetStateReads(a.data, WithAuthority(Decode(a.data).value, NewAuthority(c)));
  }
}
