/** The SDK's instruction builders, and what their account lists mean to the processor. */
module Builders {
  import opened Bytes
  import opened LoaderState
  import opened Runtime
  import opened Loader
  import opened Chain
  import opened Transitions
  import opened Invariant
  import opened Conservation
  import opened Effects
  import opened Refusals
  import Lifecycle
  import I = Instructions

  datatype BuiltInstruction = BuiltInstruction(programId: Key, data: seq<u8>, accounts: seq<KeyedAccount>)

  /** AccountMeta::new: writable. */
  function Meta(key: Key, isSigner: bool): KeyedAccount {
    KeyedAccount(key, isSigner, true)
  }

  function ReadonlyMeta(key: Key, isSigner: bool): KeyedAccount {
    KeyedAccount(key, isSigner, false)
  }

  function Built(env: Env, ix: I.Instruction, accounts: seq<KeyedAccount>): BuiltInstruction {
    BuiltInstruction(env.upgradeable, I.Serialize(ix), accounts)
  }

  function Write(env: Env, buffer: Key, authority: Key, offset: u32, bytes: I.Payload): BuiltInstruction {
    Built(env, I.Write(offset, bytes), [Meta(buffer, false), ReadonlyMeta(authority, true)])
  }

  /** The deploy half of deploy_with_max_program_len; the other half creates the Program account. */
  function Deploy(env: Env, payer: Key, program: Key, buffer: Key, authority: Key, maxDataLen: u64): BuiltInstruction
    requires env.HasDerived(program)
  {
    Built(env, I.DeployWithMaxDataLen(maxDataLen),
          [Meta(payer, true), Meta(env.Derive(program), false), Meta(program, false), Meta(buffer, false),
           ReadonlyMeta(env.rentSysvar, false), ReadonlyMeta(env.clockSysvar, false),
           ReadonlyMeta(SYSTEM_PROGRAM, false), ReadonlyMeta(authority, true)])
  }

  function Upgrade(env: Env, program: Key, buffer: Key, authority: Key, spill: Key): BuiltInstruction
    requires env.HasDerived(program)
  {
    Built(env, I.Upgrade,
          [Meta(env.Derive(program), false), Meta(program, false), Meta(buffer, false), Meta(spill, false),
           ReadonlyMeta(env.rentSysvar, false), ReadonlyMeta(env.clockSysvar, false), ReadonlyMeta(authority, true)])
  }

  function SetUpgradeAuthority(env: Env, program: Key, current: Key, new_: Option<Key>): BuiltInstruction
    requires env.HasDerived(program)
  {
    var metas := [Meta(env.Derive(program), false), ReadonlyMeta(current, true)];
    Built(env, I.SetAuthority, if new_.Some? then metas + [ReadonlyMeta(new_.value, false)] else metas)
  }

  function CloseAny(env: Env, close: Key, recipient: Key, authority: Option<Key>,
                    program: Option<Key>): BuiltInstruction {
    var metas := [Meta(close, false), Meta(recipient, false)];
    var signed := if authority.Some? then metas + [ReadonlyMeta(authority.value, true)] else metas;
    Built(env, I.Close, if program.Some? then signed + [Meta(program.value, false)] else signed)
  }

  /** A call carries a built instruction. */
  predicate Carries(c: Call, b: BuiltInstruction) {
    c.programId == b.programId && c.data == b.data && c.slots == b.accounts
  }

  /** The processor reads from a built instruction the one it was built from. */
  lemma BuiltIsRead(env: Env, ix: I.Instruction, accounts: seq<KeyedAccount>, c: Call)
    requires Carries(c, Built(env, ix, accounts)) && I.Tag(ix) < 6
    ensures c.programId == env.upgradeable && I.DeserializeForProcessor(c.data) == Some(ix)
  {
    I.EncodedIsRead(ix);
  }

  /** A built write to a buffer of the same authority is refused only when its bytes run past the end. */
  lemma BuiltWritePasses(env: Env, s: Store, buffer: Key, authority: Key, offset: u32, bytes: I.Payload, c: Call)
    requires Carries(c, Write(env, buffer, authority, offset, bytes))
    requires Decode(Get(s, buffer).data) == Some(Buffer(Some(authority)))
    ensures I.DeserializeForProcessor(c.data) == Some(I.Write(offset, bytes))
    ensures WriteGuard(s, c, offset, bytes) ==
            if |Get(s, buffer).data| < BUFFER_OFFSET + offset + |bytes| then Some(AccountDataTooSmall) else None
  {
    BuiltIsRead(env, I.Write(offset, bytes), Write(env, buffer, authority, offset, bytes).accounts, c);
  }

  /** What a built Deploy needs of the store; draining the buffer first lets it help to pay. */
  predicate DeployReady(env: Env, s: Store, payer: Key, program: Key, buffer: Key, authority: Key, maxDataLen: u64,
                        predrain: bool)
  {
    var from, p, b := Get(s, payer), Get(s, program), Get(s, buffer);
    && from.owner == SYSTEM_PROGRAM && from.data == [] && !from.executable && payer != env.Derive(program)
    && p.owner == env.upgradeable && Decode(p.data) == Some(Uninitialized)
    && PROGRAM_SIZE <= |p.data| && env.rent(|p.data|) <= p.lamports
    && (b.owner == env.upgradeable || b.lamports == 0) && Decode(b.data) == Some(Buffer(Some(authority)))
    && 0 < |b.data| - BUFFER_OFFSET <= maxDataLen && PROGRAMDATA_OFFSET + maxDataLen <= MAX_PERMITTED_DATA_LENGTH
    && env.load(b.data[BUFFER_OFFSET..]).Ok?
    && Unused(Get(s, env.Derive(program)))
    && Max(1, env.rent(PROGRAMDATA_OFFSET + maxDataLen)) <= from.lamports + (if predrain then b.lamports else 0)
  }

  lemma BuiltDeployChecks(env: Env, s: Store, payer: Key, program: Key, buffer: Key, authority: Key, maxDataLen: u64,
                          c: Call)
    requires env.HasDerived(program) && Carries(c, Deploy(env, payer, program, buffer, authority, maxDataLen))
    ensures DeployCheck(env, s, c, maxDataLen) == None <==>
            && Decode(Get(s, program).data) == Some(Uninitialized)
            && PROGRAM_SIZE <= |Get(s, program).data| && env.rent(|Get(s, program).data|) <= Get(s, program).lamports
            && Decode(Get(s, buffer).data) == Some(Buffer(Some(authority)))
            && 0 < |Get(s, buffer).data| - BUFFER_OFFSET <= maxDataLen
            && PROGRAMDATA_OFFSET + maxDataLen <= MAX_PERMITTED_DATA_LENGTH
  {
    assert SysvarGuard(env, c, 8) == None;
    SourceBufferChecked(Get(s, buffer), c.slots[7]);
  }

  /** Each answer the built Deploy can get before lamports move. */
  lemma BuiltDeployRefusals(env: Env, s: Store, x: Cache, payer: Key, program: Key, buffer: Key, authority: Key,
                            maxDataLen: u64, c: Call)
    requires env.Valid() && env.HasDerived(program) && !Get(s, payer).executable
    requires Carries(c, Deploy(env, payer, program, buffer, authority, maxDataLen))
    ensures var p, b := Get(s, program), Get(s, buffer);
            && (Unreadable(p) ==> Refused(env, s, x, c, InvalidAccountData))
            && (Decode(p.data).Some? && Decode(p.data) != Some(Uninitialized) ==>
                  Refused(env, s, x, c, AccountAlreadyInitialized))
            && (Decode(p.data) == Some(Uninitialized) && |p.data| < 36 ==> Refused(env, s, x, c, AccountDataTooSmall))
            && (Decode(p.data) == Some(Uninitialized) && 36 <= |p.data| && p.lamports < env.rent(|p.data|) ==>
                  Refused(env, s, x, c, ExecutableAccountNotRentExempt))
            && (Decode(p.data) == Some(Uninitialized) && 36 <= |p.data| && env.rent(|p.data|) <= p.lamports ==>
                  match Decode(b.data)
                  case None => Refused(env, s, x, c, InvalidAccountData)
                  case Some(Buffer(recorded)) =>
                    && (recorded != Some(authority) ==> Refused(env, s, x, c, IncorrectAuthority))
                    && (recorded == Some(authority) ==>
                          && (|b.data| <= 37 ==> Refused(env, s, x, c, InvalidAccountData))
                          && (37 < |b.data| && maxDataLen < |b.data| - 37 ==>
                                Refused(env, s, x, c, AccountDataTooSmall))
                          && (37 < |b.data| <= 37 + maxDataLen && MAX_PERMITTED_DATA_LENGTH < 45 + maxDataLen ==>
                                Refused(env, s, x, c, InvalidArgument)))
                  case Some(_) => Refused(env, s, x, c, InvalidArgument))
  {
    BuiltIsRead(env, I.DeployWithMaxDataLen(maxDataLen),
                Deploy(env, payer, program, buffer, authority, maxDataLen).accounts, c);
    BuiltDeployDispatch(env, s, payer, program, buffer, authority, maxDataLen, c);
    CheckRefuses(env, s, x, c, maxDataLen);
    assert SysvarGuard(env, c, 8) == None;
    assert c.slots[7] == ReadonlyMeta(authority, true);
  }

  lemma CheckRefuses(env: Env, s: Store, x: Cache, c: Call, len: u64)
    requires Arrives(env, s, c, I.DeployWithMaxDataLen(len))
    ensures DeployCheck(env, s, c, len).Some? ==> Refused(env, s, x, c, DeployCheck(env, s, c, len).value)
  {
  }

  lemma BuiltDeployFunds(env: Env, s: Store, payer: Key, program: Key, buffer: Key, authority: Key, maxDataLen: u64,
                         c: Call)
    requires env.HasDerived(program) && Carries(c, Deploy(env, payer, program, buffer, authority, maxDataLen))
    requires Total(s) < TWO_64 && DeployCheck(env, s, c, maxDataLen) == None
    ensures DeployGuard(env, s, c, maxDataLen) == None <==>
            && payer != buffer && payer != env.Derive(program)
            && Unused(Get(s, env.Derive(program)))
            && Get(s, payer).data == [] && Get(s, payer).owner == SYSTEM_PROGRAM
            && CreateExecutor(env, Get(s, buffer).data, BUFFER_OFFSET).Ok?
            && Max(1, env.rent(PROGRAMDATA_OFFSET + maxDataLen)) <=
               Get(s, payer).lamports + (if c.predrain then Get(s, buffer).lamports else 0)
  {
    if c.predrain {
      assert c == Early(c);
      EarlyDeploySucceeds(env, s, c, maxDataLen);
    } else {
      assert c == Late(c);
      LateDeploySucceeds(env, s, c, maxDataLen);
    }
  }

  /** A built Deploy is handed to the loader's own instructions unless the payer's account is executable. */
  lemma BuiltDeployDispatch(env: Env, s: Store, payer: Key, program: Key, buffer: Key, authority: Key,
                            maxDataLen: u64, c: Call)
    requires env.Valid() && env.HasDerived(program)
    requires Carries(c, Deploy(env, payer, program, buffer, authority, maxDataLen))
    ensures ReachesProcessor(s, c) <==> !Get(s, payer).executable
  {
  }

  /** The built Deploy takes effect if and only if the store is ready for it. */
  lemma BuiltDeployCommitsExactly(env: Env, s: State, payer: Key, program: Key, buffer: Key, authority: Key,
                                  maxDataLen: u64, c: Call)
    requires env.Valid() && env.HasDerived(program) && Total(s.accounts) < TWO_64
    requires Carries(c, Deploy(env, payer, program, buffer, authority, maxDataLen))
    ensures Commits(env, s, c) <==>
            DeployReady(env, s.accounts, payer, program, buffer, authority, maxDataLen, c.predrain)
  {
    BuiltIsRead(env, I.DeployWithMaxDataLen(maxDataLen),
                Deploy(env, payer, program, buffer, authority, maxDataLen).accounts, c);
    DeployCommitsExactly(env, s, c, maxDataLen);
    BuiltDeployDispatch(env, s.accounts, payer, program, buffer, authority, maxDataLen, c);
    BuiltDeployChecks(env, s.accounts, payer, program, buffer, authority, maxDataLen, c);
    if DeployCheck(env, s.accounts, c, maxDataLen) == None {
      BuiltDeployFunds(env, s.accounts, payer, program, buffer, authority, maxDataLen, c);
    }
  }

  lemma LiveProgram(env: Env, s: Store, p: Key)
    requires env.Valid() && Inv(env, s)
    requires InState(env, Get(s, p), 2) && IsProgramData(env, Get(s, env.Derive(p)))
    ensures IsProgram(env, Get(s, p), env.Derive(p)) && Get(s, p).executable
    ensures PROGRAMDATA_OFFSET <= |Get(s, env.Derive(p)).data|
  {
    assert Sound(env, s, p) && Sound(env, s, env.Derive(p));
  }

  /** The account list is right: only the buffer and the ProgramData account themselves are left to check. */
  lemma UpgradeListPasses(env: Env, s: Store, program: Key, buffer: Key, authority: Key, spill: Key, c: Call)
    requires env.HasDerived(program) && Carries(c, Upgrade(env, program, buffer, authority, spill))
    requires IsProgram(env, Get(s, program), env.Derive(program)) && Get(s, program).executable
    requires Decode(Get(s, buffer).data) == Some(Buffer(Some(authority)))
    ensures 7 <= |c.slots| && c.slots[0].key == env.Derive(program)
    ensures c.slots[2].key == buffer && c.slots[3].key == spill
    ensures UpgradeCheck(env, s, c) ==
            UpgradeTargetGuard(env, Get(s, env.Derive(program)), Get(s, buffer), ReadonlyMeta(authority, true))
  {
    assert SysvarGuard(env, c, 7) == None;
    assert UpgradeProgramGuard(c, Get(s, program)) == None;
  }

  lemma UpgradeGuardSplits(env: Env, s: Store, c: Call, programdata: Key, buffer: Key, spill: Key)
    requires 7 <= |c.slots| && c.slots[0].key == programdata && c.slots[2].key == buffer && c.slots[3].key == spill
    ensures UpgradeGuard(env, s, c) ==
            if UpgradeCheck(env, s, c) != None then UpgradeCheck(env, s, c)
            else if CreateExecutor(env, Get(s, buffer).data, BUFFER_OFFSET).Err?
            then Some(CreateExecutor(env, Get(s, buffer).data, BUFFER_OFFSET).error)
            else SpillGuard(s, programdata, buffer, spill, Max(1, env.rent(|Get(s, programdata).data|)))
  {
  }

  lemma UpgradeTargetPasses(env: Env, target: Account, source: Account, authority: KeyedAccount)
    requires IsProgramData(env, target) && PROGRAMDATA_OFFSET <= |target.data|
    requires Recorded(Decode(target.data).value) == Some(authority.key) && authority.isSigner
    ensures UpgradeTargetGuard(env, target, source, authority) ==
            if |source.data| <= BUFFER_OFFSET then Some(InvalidAccountData)
            else if |target.data| - PROGRAMDATA_OFFSET < |source.data| - BUFFER_OFFSET then Some(AccountDataTooSmall)
            else if WrappingAdd(target.lamports, source.lamports) < Max(1, env.rent(|target.data|)) then
              Some(InsufficientFunds)
            else None
  {
  }

  /**
   * Upgrading a live program from a buffer of the same authority with the built instruction can only fail
   * for size, funds, the program's code, or the spill account: never for its account list or its signatures.
   */
  lemma BuiltUpgradePasses(env: Env, s: Store, program: Key, buffer: Key, authority: Key, spill: Key, c: Call)
    requires env.Valid() && Inv(env, s) && env.HasDerived(program)
    requires Carries(c, Upgrade(env, program, buffer, authority, spill))
    requires InState(env, Get(s, program), 2) && IsProgramData(env, Get(s, env.Derive(program)))
    requires Recorded(Decode(Get(s, env.Derive(program)).data).value) == Some(authority)
    requires Decode(Get(s, buffer).data) == Some(Buffer(Some(authority)))
    ensures var source, target := Get(s, buffer), Get(s, env.Derive(program));
            UpgradeGuard(env, s, c) ==
            if |source.data| <= BUFFER_OFFSET then Some(InvalidAccountData)
            else if |target.data| - PROGRAMDATA_OFFSET < |source.data| - BUFFER_OFFSET then Some(AccountDataTooSmall)
            else if WrappingAdd(target.lamports, source.lamports) < Max(1, env.rent(|target.data|)) then
              Some(InsufficientFunds)
            else if CreateExecutor(env, source.data, BUFFER_OFFSET).Err? then
              Some(CreateExecutor(env, source.data, BUFFER_OFFSET).error)
            else if spill == env.Derive(program) || spill == buffer then Some(AccountBorrowFailed)
            else if TWO_64 <= Get(s, spill).lamports + WrappingAdd(target.lamports, source.lamports)
                              - Max(1, env.rent(|target.data|)) then
              Some(ArithmeticOverflow)
            else None
  {
    LiveProgram(env, s, program);
    UpgradeListPasses(env, s, program, buffer, authority, spill, c);
    UpgradeTargetPasses(env, Get(s, env.Derive(program)), Get(s, buffer), ReadonlyMeta(authority, true));
    UpgradeGuardSplits(env, s, c, env.Derive(program), buffer, spill);
  }

  /** Building set_upgrade_authority without a new authority, and committing it, freezes that program for good. */
  lemma BuiltFreezeIsForever(env: Env, s: State, program: Key, current: Key, c: Call, steps: seq<Step>)
    requires env.Valid() && Inv(env, s.accounts) && Commits(env, s, c)
    requires env.HasDerived(program) && Carries(c, SetUpgradeAuthority(env, program, current, None))
    requires IsProgram(env, Get(s.accounts, program), env.Derive(program))
    requires IsProgramData(env, Get(s.accounts, env.Derive(program)))
    ensures var frozen := Next(env, s, Submit(c)).accounts;
            var later := Run(env, Next(env, s, Submit(c)), steps).accounts;
            && Lifecycle.FrozenProgram(env, later, program)
            && Credited(Get(frozen, program), Get(later, program))
            && Credited(Get(frozen, env.Derive(program)), Get(later, env.Derive(program)))
  {
    BuiltIsRead(env, I.SetAuthority, SetUpgradeAuthority(env, program, current, None).accounts, c);
    Lifecycle.OmittedAuthorityFreezes(env, s, c, program);
    InvNext(env, s, Submit(c));
    Lifecycle.FrozenForever(env, Next(env, s, Submit(c)), steps, program);
  }

  /** The instructions that act on a ProgramData account in their first slot. */
  predicate ActsOn(env: Env, c: Call, programdata: Key) {
    && 1 <= |c.slots| && c.slots[0].key == programdata
    && (IsUpgrade(env, c) || IsClose(env, c) || (c.programId == env.upgradeable && Reads(c, I.SetAuthority)))
  }

  /** They take effect only with the recorded authority's signature, in the slot meant for it. */
  lemma OnlyAuthorityActs(env: Env, s: State, programdata: Key, authority: Key, c: Call)
    requires IsProgramData(env, Get(s.accounts, programdata))
    requires Recorded(Decode(Get(s.accounts, programdata).data).value) == Some(authority)
    requires ActsOn(env, c, programdata) && Commits(env, s, c)
    ensures var i := if IsUpgrade(env, c) then 6 else if IsClose(env, c) then 2 else 1;
            i < |c.slots| && c.slots[i].key == authority && c.slots[i].isSigner
  {
    CommittedIsApplied(env, s, c);
    if IsUpgrade(env, c) {
      UpgradeAccounts(env, s.accounts, c);
    } else if IsClose(env, c) {
      CloseChecked(s.accounts, c);
    } else {
      SetAuthorityChecked(s.accounts, c);
    }
  }

  lemma HandOverRecords(env: Env, s: State, program: Key, current: Key, successor: Key, c: Call)
    requires env.HasDerived(program) && Carries(c, SetUpgradeAuthority(env, program, current, Some(successor)))
    requires IsProgramData(env, Get(s.accounts, env.Derive(program))) && Commits(env, s, c)
    ensures var a := Get(s.accounts, env.Derive(program));
            var b := Get(Next(env, s, Submit(c)).accounts, env.Derive(program));
            && b == a.(data := b.data)
            && Decode(b.data) == Some(ProgramData(Decode(a.data).value.slot, Some(successor)))
            && |b.data| == |a.data| && (forall i :: 45 <= i < |a.data| ==> b.data[i] == a.data[i])
  {
    BuiltIsRead(env, I.SetAuthority, SetUpgradeAuthority(env, program, current, Some(successor)).accounts, c);
    SetAuthorityCommitsExactly(env, s, c);
    HeaderSizes(ProgramData(Decode(Get(s.accounts, env.Derive(program)).data).value.slot, Some(successor)));
  }

  /**
   * Building set_upgrade_authority with a successor, and committing it, hands the program over: from then on only the
   * successor can upgrade it, close it or hand it on, and until it signs no run changes a byte of ProgramData.
   */
  lemma BuiltHandOver(env: Env, s: State, program: Key, current: Key, successor: Key, c: Call, steps: seq<Step>,
                      later: Call)
    requires env.Valid() && Inv(env, s.accounts) && Commits(env, s, c)
    requires env.HasDerived(program) && Carries(c, SetUpgradeAuthority(env, program, current, Some(successor)))
    requires IsProgramData(env, Get(s.accounts, env.Derive(program)))
    requires forall i :: 0 <= i < |steps| ==> !Lifecycle.SignedStep(steps[i], successor)
    requires ActsOn(env, later, env.Derive(program))
    ensures var t := Next(env, s, Submit(c));
            && Credited(Get(t.accounts, env.Derive(program)), Get(Run(env, t, steps).accounts, env.Derive(program)))
            && (Commits(env, Run(env, t, steps), later) ==> successor in Signers(later))
  {
    var d, t := env.Derive(program), Next(env, s, Submit(c));
    HandOverRecords(env, s, program, current, successor, c);
    InvNext(env, s, Submit(c));
    assert Sound(env, t.accounts, d);
    Lifecycle.UntouchedWithoutAuthority(env, t, steps, d, successor);
    if Commits(env, Run(env, t, steps), later) {
      OnlyAuthorityActs(env, Run(env, t, steps), d, successor, later);
    }
  }

  /**
   * close_any on a ProgramData account passes exactly with both optional accounts given, the authority being the
   * recorded one and the program the one that points there. Without an authority the program takes its slot.
   */
  lemma CloseAnyProgramData(env: Env, s: Store, close: Key, recipient: Key, authority: Option<Key>,
                            program: Option<Key>, c: Call)
    requires Carries(c, CloseAny(env, close, recipient, authority, program)) && IsProgramData(env, Get(s, close))
    ensures CloseGuard(s, c) == None <==>
            && close != recipient
            && authority.Some? && Recorded(Decode(Get(s, close).data).value) == authority
            && program.Some? && IsProgram(env, Get(s, program.value), close)
            && Get(s, close).lamports + Get(s, recipient).lamports < TWO_64
  {
  }

  /** The error in the case without an authority: with or without a program, the list is one account short. */
  lemma CloseAnyNeedsAuthority(env: Env, s: Store, close: Key, recipient: Key, program: Option<Key>, c: Call)
    requires Carries(c, CloseAny(env, close, recipient, None, program)) && close != recipient
    requires IsProgramData(env, Get(s, close))
    ensures CloseGuard(s, c) == Some(NotEnoughAccountKeys)
  {
  }

  /** On a Buffer: exactly with the recorded authority, whether or not a program is given besides. */
  lemma CloseAnyBuffer(env: Env, s: Store, close: Key, recipient: Key, authority: Option<Key>, program: Option<Key>,
                       c: Call)
    requires Carries(c, CloseAny(env, close, recipient, authority, program)) && IsBuffer(env, Get(s, close))
    ensures CloseGuard(s, c) == None <==>
            && close != recipient
            && authority.Some? && Recorded(Decode(Get(s, close).data).value) == authority
            && Get(s, close).lamports + Get(s, recipient).lamports < TWO_64
  {
  }

  /** On an uninitialised account: whatever is given besides. */
  lemma CloseAnyUninitialized(env: Env, s: Store, close: Key, recipient: Key, authority: Option<Key>,
                              program: Option<Key>, c: Call)
    requires Carries(c, CloseAny(env, close, recipient, authority, program))
    requires Decode(Get(s, close).data) == Some(Uninitialized)
    ensures CloseGuard(s, c) == None <==>
            close != recipient && Get(s, close).lamports + Get(s, recipient).lamports < TWO_64
  {
  }
}
