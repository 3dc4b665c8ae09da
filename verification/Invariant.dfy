/** What holds in every reachable store: how Program and ProgramData accounts hang together. */
module Invariant {
  import opened Bytes
  import opened LoaderState
  import opened Runtime
  import opened Loader
  import opened Chain
  import opened Transitions

  predicate IsBuffer(env: Env, a: Account) {
    a.owner == env.upgradeable && Decode(a.data).Some? && Decode(a.data).value.Buffer?
  }

  /** A Program account is executable, rent-exempt, and points at the address derived from its own. */
  ghost predicate ProgramSound(env: Env, s: Store, k: Key) {
    var a := Get(s, k);
    a.owner == env.upgradeable && Decode(a.data).Some? && Decode(a.data).value.Program? ==>
      && env.HasDerived(k) && Decode(a.data).value == Program(env.Derive(k))
      && a.executable && PROGRAM_SIZE <= |a.data| && env.rent(|a.data|) <= a.lamports
  }

  /** A ProgramData account is rent-exempt, not executable, and its Program account points at it. */
  ghost predicate ProgramDataSound(env: Env, s: Store, k: Key) {
    var a := Get(s, k);
    IsProgramData(env, a) ==>
      && PROGRAMDATA_OFFSET <= |a.data| && Max(1, env.rent(|a.data|)) <= a.lamports && !a.executable
      && (exists p: Key :: env.HasDerived(p) && env.Derive(p) == k && IsProgram(env, Get(s, p), k))
  }

  /** Executable accounts of the upgradeable loader are Program accounts. */
  ghost predicate ExecutableSound(env: Env, s: Store, k: Key) {
    var a := Get(s, k);
    a.owner == env.upgradeable && a.executable ==> Decode(a.data).Some? && Decode(a.data).value.Program?
  }

  ghost predicate BufferSound(env: Env, s: Store, k: Key) {
    IsBuffer(env, Get(s, k)) ==> Recorded(Decode(Get(s, k).data).value).Some?
  }

  /** A derived address is the loader's or nobody's. */
  ghost predicate DerivedSound(env: Env, s: Store, k: Key) {
    var a := Get(s, k);
    env.IsDerived(k) && a.owner != env.upgradeable ==> a.data == [] && a.owner == SYSTEM_PROGRAM && !a.executable
  }

  /** The loaders' own accounts are executable and not owned by a loader. */
  ghost predicate LoaderSound(env: Env, s: Store, k: Key) {
    env.IsLoader(k) ==> Get(s, k).executable && !env.IsLoader(Get(s, k).owner)
  }

  ghost predicate Sound(env: Env, s: Store, k: Key) {
    && ProgramSound(env, s, k) && ProgramDataSound(env, s, k) && ExecutableSound(env, s, k)
    && BufferSound(env, s, k) && DerivedSound(env, s, k) && LoaderSound(env, s, k)
  }

  ghost predicate Inv(env: Env, s: Store) {
    forall k: Key :: Sound(env, s, k)
  }

  // ---------- preservation ----------

  /** What one step, of whatever kind, may do to an account. */
  ghost predicate Steps(env: Env, pre: Store, post: Store, k: Key) {
    || (exists c: Call :: Moved(env, c, pre, post, k))
    || OutsideAllows(env, k, Get(pre, k), Get(post, k))
  }

  lemma NextSteps(env: Env, s: State, step: Step, k: Key)
    requires env.Valid()
    ensures Steps(env, s.accounts, Next(env, s, step).accounts, k)
  {
    var pre, post := s.accounts, Next(env, s, step).accounts;
    if step.Submit? && Commits(env, s, step.call) {
      CommittedMoves(env, s, step.call, k);
    } else if step.Outside? && OutsideRule(env, pre, step.accounts) {
      assert OutsideAllows(env, k, Get(pre, k), Get(post, k));
    } else {
      assert Credited(Get(pre, k), Get(post, k));
    }
  }

  /** A Program account stays exactly the Program account it is; it can only be credited. */
  lemma ProgramStays(env: Env, pre: Store, post: Store, k: Key)
    requires env.Valid() && Sound(env, pre, k) && Steps(env, pre, post, k)
    requires Get(pre, k).owner == env.upgradeable && Decode(Get(pre, k).data).Some?
    requires Decode(Get(pre, k).data).value.Program?
    ensures Credited(Get(pre, k), Get(post, k))
  {
  }

  predicate InState(env: Env, a: Account, tag: nat) {
    a.owner == env.upgradeable && Decode(a.data).Some? && Tag(Decode(a.data).value) == tag
  }

  /** Zero-filled data, the only data a newly assigned account can have, is in no initialised state. */
  lemma ZeroInNoState(env: Env, a: Account)
    requires AllZero(a.data)
    ensures !InState(env, a, 1) && !InState(env, a, 2) && !InState(env, a, 3)
  {
    ZeroDataIsUninitialized(a.data);
  }

  /** Nothing but the loader puts an account into an initialised state. */
  lemma OutsideKeepsOut(env: Env, k: Key, a: Account, b: Account)
    requires OutsideAllows(env, k, a, b)
    ensures !InState(env, a, 1) ==> !InState(env, b, 1)
    ensures !InState(env, a, 2) ==> !InState(env, b, 2)
    ensures !InState(env, a, 3) ==> !InState(env, b, 3)
  {
    if AllZero(b.data) {
      ZeroInNoState(env, b);
    }
  }

  /** The only way to become a Program account. */
  lemma BecomesProgram(env: Env, pre: Store, post: Store, k: Key)
    requires env.Valid() && Steps(env, pre, post, k)
    requires !InState(env, Get(pre, k), 2) && InState(env, Get(post, k), 2)
    ensures exists c: Call :: ProgramMade(env, c, post, k, Get(pre, k), Get(post, k))
  {
    var a, b := Get(pre, k), Get(post, k);
    if OutsideAllows(env, k, a, b) {
      OutsideKeepsOut(env, k, a, b);
      assert false;
    }
    var c: Call :| Moved(env, c, pre, post, k);
    assert ProgramMade(env, c, post, k, a, b);
  }

  /** The only way to become a ProgramData account. */
  lemma BecomesProgramData(env: Env, pre: Store, post: Store, k: Key)
    requires env.Valid() && Steps(env, pre, post, k)
    requires !InState(env, Get(pre, k), 3) && InState(env, Get(post, k), 3)
    ensures exists c: Call :: ProgramDataMade(env, c, pre, post, k, Get(pre, k), Get(post, k))
  {
    var a, b := Get(pre, k), Get(post, k);
    if OutsideAllows(env, k, a, b) {
      OutsideKeepsOut(env, k, a, b);
      assert false;
    }
    var c: Call :| Moved(env, c, pre, post, k);
    assert ProgramDataMade(env, c, pre, post, k, a, b);
  }

  lemma MovedProgramData(env: Env, c: Call, pre: Store, post: Store, k: Key)
    requires env.Valid() && Sound(env, pre, k) && Moved(env, c, pre, post, k)
    requires InState(env, Get(pre, k), 3) && InState(env, Get(post, k), 3)
    ensures |Get(post, k).data| == |Get(pre, k).data| && !Get(post, k).executable
    ensures Max(1, env.rent(|Get(post, k).data|)) <= Get(post, k).lamports
  {
  }

  /** What a ProgramData account can go through while it stays one. */
  lemma ProgramDataStays(env: Env, pre: Store, post: Store, k: Key)
    requires env.Valid() && Sound(env, pre, k) && Steps(env, pre, post, k)
    requires InState(env, Get(pre, k), 3) && InState(env, Get(post, k), 3)
    ensures |Get(post, k).data| == |Get(pre, k).data| && !Get(post, k).executable
    ensures Max(1, env.rent(|Get(post, k).data|)) <= Get(post, k).lamports
  {
    if !OutsideAllows(env, k, Get(pre, k), Get(post, k)) {
      var c: Call :| Moved(env, c, pre, post, k);
      MovedProgramData(env, c, pre, post, k);
    }
  }

  lemma ProgramStep(env: Env, pre: Store, post: Store, k: Key)
    requires env.Valid() && Sound(env, pre, k) && Steps(env, pre, post, k)
    ensures ProgramSound(env, post, k)
  {
    if InState(env, Get(pre, k), 2) {
      ProgramStays(env, pre, post, k);
    } else if InState(env, Get(post, k), 2) {
      BecomesProgram(env, pre, post, k);
    }
  }

  lemma MovedExecutable(env: Env, c: Call, pre: Store, post: Store, k: Key)
    requires env.Valid() && Sound(env, pre, k) && Moved(env, c, pre, post, k)
    ensures ExecutableSound(env, post, k)
  {
  }

  lemma ExecutableStep(env: Env, pre: Store, post: Store, k: Key)
    requires env.Valid() && Sound(env, pre, k) && Steps(env, pre, post, k)
    ensures ExecutableSound(env, post, k)
  {
    if !OutsideAllows(env, k, Get(pre, k), Get(post, k)) {
      var c: Call :| Moved(env, c, pre, post, k);
      MovedExecutable(env, c, pre, post, k);
    }
  }

  lemma MovedBuffer(env: Env, c: Call, pre: Store, post: Store, k: Key)
    requires env.Valid() && BufferSound(env, pre, k) && Moved(env, c, pre, post, k)
    ensures BufferSound(env, post, k)
  {
  }

  lemma BufferStep(env: Env, pre: Store, post: Store, k: Key)
    requires env.Valid() && BufferSound(env, pre, k) && Steps(env, pre, post, k)
    ensures BufferSound(env, post, k)
  {
    if OutsideAllows(env, k, Get(pre, k), Get(post, k)) {
      if AllZero(Get(post, k).data) {
        ZeroInNoState(env, Get(post, k));
      }
    } else {
      var c: Call :| Moved(env, c, pre, post, k);
      MovedBuffer(env, c, pre, post, k);
    }
  }

  lemma MovedAddress(env: Env, c: Call, pre: Store, post: Store, k: Key)
    requires env.Valid() && Sound(env, pre, k) && Moved(env, c, pre, post, k)
    ensures DerivedSound(env, post, k)
  {
  }

  lemma MovedLoader(env: Env, c: Call, pre: Store, post: Store, k: Key)
    requires env.Valid() && Sound(env, pre, k) && Moved(env, c, pre, post, k)
    ensures LoaderSound(env, post, k)
  {
  }

  lemma AddressStep(env: Env, pre: Store, post: Store, k: Key)
    requires env.Valid() && Sound(env, pre, k) && Steps(env, pre, post, k)
    ensures DerivedSound(env, post, k) && LoaderSound(env, post, k)
  {
    if !OutsideAllows(env, k, Get(pre, k), Get(post, k)) {
      var c: Call :| Moved(env, c, pre, post, k);
      MovedAddress(env, c, pre, post, k);
      MovedLoader(env, c, pre, post, k);
    }
  }

  lemma ProgramDataStep(env: Env, pre: Store, post: Store, k: Key)
    requires env.Valid() && Inv(env, pre) && (forall q: Key :: Steps(env, pre, post, q))
    ensures ProgramDataSound(env, post, k)
  {
    assert Sound(env, pre, k) && Steps(env, pre, post, k);
    if InState(env, Get(post, k), 3) {
      if InState(env, Get(pre, k), 3) {
        ProgramDataStays(env, pre, post, k);
        var p: Key :| env.HasDerived(p) && env.Derive(p) == k && IsProgram(env, Get(pre, p), k);
        assert Sound(env, pre, p) && Steps(env, pre, post, p);
        ProgramStays(env, pre, post, p);
        assert IsProgram(env, Get(post, p), k);
      } else {
        BecomesProgramData(env, pre, post, k);
        var c: Call :| ProgramDataMade(env, c, pre, post, k, Get(pre, k), Get(post, k));
        assert IsProgram(env, Get(post, c.slots[2].key), k);
      }
    }
  }

  lemma InvNext(env: Env, s: State, step: Step)
    requires env.Valid() && Inv(env, s.accounts)
    ensures Inv(env, Next(env, s, step).accounts)
  {
    var pre, post := s.accounts, Next(env, s, step).accounts;
    forall k: Key
      ensures Steps(env, pre, post, k)
    {
      NextSteps(env, s, step, k);
    }
    forall k: Key
      ensures Sound(env, post, k)
    {
      assert Sound(env, pre, k);
      ProgramStep(env, pre, post, k);
      ExecutableStep(env, pre, post, k);
      BufferStep(env, pre, post, k);
      AddressStep(env, pre, post, k);
      ProgramDataStep(env, pre, post, k);
    }
  }

  /** The linkage of Program and ProgramData accounts survives every run. */
  lemma {:induction false} InvRun(env: Env, s: State, steps: seq<Step>)
    requires env.Valid() && Inv(env, s.accounts)
    ensures Inv(env, Run(env, s, steps).accounts)
    decreases |steps|
  {
    if steps != [] {
      InvNext(env, s, steps[0]);
      InvRun(env, Next(env, s, steps[0]), steps[1..]);
    }
  }
}
