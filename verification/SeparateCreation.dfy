/**
 * The script creates its Program account in a transaction of its own. Until finalise, anyone may initialise or
 * close that account; this is what then becomes of finalise.
 */
module SeparateCreation {
  import opened Bytes
  import opened LoaderState
  import opened Runtime
  import opened Loader
  import opened Chain
  import opened Transitions
  import opened Invariant
  import opened Effects
  import opened EndToEnd
  import Lifecycle
  import Uploader
  import I = Instructions

  /** The space the script gives its Program account; the SDK's builder gives PROGRAM_SIZE. */
  const PROGRAM_ACCOUNT_SPACE: nat := 44

  /** The Program account as the system program creates it. */
  predicate CreatedProgram(env: Env, plan: Plan, s: Store, space: nat) {
    var a := Get(s, plan.programKey);
    a.owner == env.upgradeable && 0 < a.lamports && !a.executable && AllZero(a.data) && |a.data| == space
  }

  /** There are sound stores with such an account at any address but a loader's. */
  lemma CreatedProgramExists(env: Env, plan: Plan, space: nat)
    requires env.Valid() && !env.IsLoader(plan.programKey)
    ensures exists s: Store :: Inv(env, s) && CreatedProgram(env, plan, s, space)
  {
    var loader := Account(1, SYSTEM_PROGRAM, true, []);
    var created := Account(1, env.upgradeable, false, Zeros(space));
    var s: Store := map[env.upgradeable := loader, env.bpfLoader := loader, env.bpfLoaderDeprecated := loader,
                        plan.programKey := created];
    ZeroInNoState(env, created);
    assert CreatedProgram(env, plan, s, space);
    forall k: Key
      ensures Sound(env, s, k)
    {
    }
  }

  /** Finalise takes effect only on an uninitialised, rent-exempt Program account. */
  lemma FinalizeNeedsUninitialized(env: Env, plan: Plan, s: State, c: Call)
    requires IsFinalize(env, plan, c) && Commits(env, s, c)
    ensures Decode(Get(s.accounts, plan.programKey).data) == Some(Uninitialized)
    ensures env.rent(|Get(s.accounts, plan.programKey).data|) <= Get(s.accounts, plan.programKey).lamports
  {
    FinalizeReads(env, plan, c);
    DeployCommitsExactly(env, s, c, Uploader.BufferSize(|plan.program|));
    DeployChecked(env, s.accounts, c, Uploader.BufferSize(|plan.program|));
  }

  /** Once the address holds a Program, finalise takes effect in no later state. */
  lemma ProgramNeverRedeployed(env: Env, plan: Plan, s: State, steps: seq<Step>, finalize: Call)
    requires env.Valid() && Inv(env, s.accounts) && InState(env, Get(s.accounts, plan.programKey), 2)
    requires IsFinalize(env, plan, finalize)
    ensures !Commits(env, Run(env, s, steps), finalize)
  {
    Lifecycle.ProgramForever(env, s, steps, plan.programKey);
    if Commits(env, Run(env, s, steps), finalize) {
      FinalizeNeedsUninitialized(env, plan, Run(env, s, steps), finalize);
      assert false;
    }
  }

  /** Somebody else's InitializeBuffer, unsigned, on the script's Program account. */
  predicate IsForeignInitialize(env: Env, plan: Plan, other: Key, c: Call) {
    && c.programId == env.upgradeable && c.data == [0, 0, 0, 0]
    && c.slots == [KeyedAccount(plan.programKey, false, true), KeyedAccount(other, false, false)]
  }

  lemma CreatedDispatch(env: Env, plan: Plan, s: Store, space: nat, c: Call)
    requires Inv(env, s) && CreatedProgram(env, plan, s, space)
    requires c.programId == env.upgradeable && 2 <= |c.slots| && c.slots[0].key == plan.programKey
    ensures ReachesProcessor(s, c) <==> c.slots[1].key != env.upgradeable
  {
    assert Sound(env, s, plan.programKey) && Sound(env, s, env.upgradeable);
  }

  /** It takes effect exactly when a buffer header fits: in the script's 44 bytes, but not in the SDK's 36. */
  lemma ForeignInitializeCommitsExactly(env: Env, plan: Plan, s: State, space: nat, other: Key, c: Call)
    requires Inv(env, s.accounts) && CreatedProgram(env, plan, s.accounts, space) && other != env.upgradeable
    requires IsForeignInitialize(env, plan, other, c)
    ensures Signers(c) == {}
    ensures Commits(env, s, c) <==> BUFFER_OFFSET <= space
    ensures space == PROGRAM_ACCOUNT_SPACE ==> Commits(env, s, c)
    ensures space == PROGRAM_SIZE ==> !Commits(env, s, c)
  {
    I.ScriptInitializeBuffer();
    InitializeBufferCommitsExactly(env, s, c);
    CreatedDispatch(env, plan, s.accounts, space, c);
    ZeroDataIsUninitialized(Get(s.accounts, plan.programKey).data);
  }

  lemma ForeignInitializeTakes(env: Env, plan: Plan, s: State, space: nat, other: Key, c: Call)
    requires CreatedProgram(env, plan, s.accounts, space)
    requires IsForeignInitialize(env, plan, other, c) && Commits(env, s, c)
    ensures ForeignBuffer(env, plan, Next(env, s, Submit(c)).accounts, other)
  {
    I.ScriptInitializeBuffer();
    InitializeBufferCommitsExactly(env, s, c);
  }

  /** The Program account's address holds somebody else's buffer. */
  predicate ForeignBuffer(env: Env, plan: Plan, s: Store, other: Key) {
    var a := Get(s, plan.programKey);
    a.owner == env.upgradeable && 0 < a.lamports && Decode(a.data) == Some(Buffer(Some(other)))
  }

  lemma ForeignBufferBlocks(env: Env, plan: Plan, s: State, other: Key, steps: seq<Step>, finalize: Call)
    requires env.Valid() && ForeignBuffer(env, plan, s.accounts, other) && IsFinalize(env, plan, finalize)
    requires forall i :: 0 <= i < |steps| ==> !Lifecycle.SignedStep(steps[i], other)
    ensures !Commits(env, Run(env, s, steps), finalize)
  {
    Lifecycle.UntouchedWithoutAuthority(env, s, steps, plan.programKey, other);
    if Commits(env, Run(env, s, steps), finalize) {
      FinalizeNeedsUninitialized(env, plan, Run(env, s, steps), finalize);
      assert false;
    }
  }

  /**
   * After it, finalise takes effect in no later state of any run that the other party does not sign: the account stays
   * that party's buffer.
   */
  lemma ForeignInitializeBlocks(env: Env, plan: Plan, s: State, space: nat, other: Key, initialize: Call,
                                steps: seq<Step>, finalize: Call)
    requires env.Valid() && Inv(env, s.accounts) && other != env.upgradeable
    requires CreatedProgram(env, plan, s.accounts, space) && BUFFER_OFFSET <= space
    requires IsForeignInitialize(env, plan, other, initialize)
    requires forall i :: 0 <= i < |steps| ==> !Lifecycle.SignedStep(steps[i], other)
    requires IsFinalize(env, plan, finalize)
    ensures Commits(env, s, initialize)
    ensures !Commits(env, Run(env, Next(env, s, Submit(initialize)), steps), finalize)
  {
    ForeignInitializeCommitsExactly(env, plan, s, space, other, initialize);
    ForeignInitializeTakes(env, plan, s, space, other, initialize);
    ForeignBufferBlocks(env, plan, Next(env, s, Submit(initialize)), other, steps, finalize);
  }

  /** Somebody else's Close, unsigned, of the script's Program account. */
  predicate IsForeignClose(env: Env, plan: Plan, recipient: Key, c: Call) {
    && c.programId == env.upgradeable && c.data == I.Serialize(I.Close)
    && c.slots == [KeyedAccount(plan.programKey, false, true), KeyedAccount(recipient, false, true)]
  }

  /** What an unsigned Close of an uninitialised account leaves, where it passes. */
  lemma ForeignCloseEffect(env: Env, plan: Plan, s: Store, recipient: Key, c: Call)
    requires IsForeignClose(env, plan, recipient, c)
    requires Get(s, plan.programKey).owner == env.upgradeable
    requires Decode(Get(s, plan.programKey).data) == Some(Uninitialized)
    ensures CloseGuard(s, c) == None <==>
            recipient != plan.programKey && Get(s, plan.programKey).lamports + Get(s, recipient).lamports < TWO_64
    ensures CloseGuard(s, c) == None ==>
              && OwnerRule(c.programId, s, CloseEffect(s, c), {})
              && Get(CloseEffect(s, c), plan.programKey).lamports == 0
  {
  }

  /** It takes effect for any recipient that can hold the lamports, and finalise is then refused until they are back. */
  lemma ForeignCloseBlocks(env: Env, plan: Plan, s: State, space: nat, recipient: Key, close: Call, finalize: Call)
    requires env.Valid() && Inv(env, s.accounts) && CreatedProgram(env, plan, s.accounts, space)
    requires PROGRAM_SIZE <= space
    requires recipient != env.upgradeable && IsForeignClose(env, plan, recipient, close)
    requires IsFinalize(env, plan, finalize)
    ensures Signers(close) == {}
    ensures Commits(env, s, close) <==>
            && recipient != plan.programKey
            && Get(s.accounts, plan.programKey).lamports + Get(s.accounts, recipient).lamports < TWO_64
    ensures Commits(env, s, close) ==> !Commits(env, Next(env, s, Submit(close)), finalize)
  {
    I.EncodedIsRead(I.Close);
    ZeroDataIsUninitialized(Get(s.accounts, plan.programKey).data);
    CreatedDispatch(env, plan, s.accounts, space, close);
    ForeignCloseEffect(env, plan, s.accounts, recipient, close);
    CloseCommitted(env, s, close);
    var t := Next(env, s, Submit(close));
    if Commits(env, s, close) && Commits(env, t, finalize) {
      FinalizeNeedsUninitialized(env, plan, t, finalize);
      assert false;
    }
  }
}
