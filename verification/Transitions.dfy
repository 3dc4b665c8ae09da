/** Everything a committed loader call can do to one account. */
module Transitions {
  import opened Bytes
  import opened LoaderState
  import opened Runtime
  import opened Loader
  import opened Chain
  import I = Instructions

  /** The authority recorded in a Buffer or ProgramData header. */
  function Recorded(st: LoaderState): Option<Key> {
    match st
    case Buffer(a) => a
    case ProgramData(_, a) => a
    case _ => None
  }

  predicate SignedBy(c: Call, recorded: Option<Key>) {
    recorded.Some? && recorded.value in Signers(c)
  }

  /** Only the first `n` data bytes may differ. */
  predicate HeadChanged(a: Account, b: Account, n: nat) {
    && b == a.(data := b.data) && |b.data| == |a.data|
    && (forall i :: n <= i < |a.data| ==> b.data[i] == a.data[i])
  }

  predicate SystemDebited(a: Account, b: Account) {
    a.owner == SYSTEM_PROGRAM && a.data == [] && b == a.(lamports := b.lamports)
  }

  ghost predicate Initialized(a: Account, b: Account) {
    && Decode(a.data) == Some(Uninitialized)
    && HeadChanged(a, b, BUFFER_OFFSET)
    && (exists authority: Key :: Decode(b.data) == Some(Buffer(Some(authority))))
  }

  predicate Written(c: Call, a: Account, b: Account) {
    && Decode(a.data).Some? && Decode(a.data).value.Buffer? && SignedBy(c, Recorded(Decode(a.data).value))
    && b == a.(data := b.data) && |b.data| == |a.data|
    && Decode(b.data) == Decode(a.data)
    && BUFFER_OFFSET <= |a.data| && b.data[..BUFFER_OFFSET] == a.data[..BUFFER_OFFSET]
  }

  predicate BufferDrained(c: Call, a: Account, b: Account) {
    && Decode(a.data).Some? && Decode(a.data).value.Buffer? && SignedBy(c, Recorded(Decode(a.data).value))
    && b == a.(lamports := 0)
  }

  predicate Reauthorized(c: Call, a: Account, b: Account) {
    && Decode(a.data).Some? && SignedBy(c, Recorded(Decode(a.data).value))
    && Decode(b.data).Some?
    && match Decode(a.data).value
       case Buffer(_) =>
         && HeadChanged(a, b, BUFFER_OFFSET)
         && Decode(b.data).value.Buffer? && Recorded(Decode(b.data).value).Some?
       case ProgramData(slot, _) =>
         && HeadChanged(a, b, PROGRAMDATA_OFFSET)
         && Decode(b.data).value == ProgramData(slot, Recorded(Decode(b.data).value))
       case _ => false
  }

  predicate ProgramMade(env: Env, c: Call, post: Store, k: Key, a: Account, b: Account) {
    && IsDeploy(env, c) && 8 <= |c.slots| && k == c.slots[2].key
    && Decode(a.data) == Some(Uninitialized)
    && b == a.(data := b.data, executable := true) && |b.data| == |a.data|
    && env.HasDerived(k) && Decode(b.data) == Some(Program(env.Derive(k)))
    && PROGRAM_SIZE <= |b.data| && env.rent(|b.data|) <= b.lamports
    && IsProgramData(env, Get(post, env.Derive(k)))
  }

  predicate IsProgramData(env: Env, a: Account) {
    a.owner == env.upgradeable && Decode(a.data).Some? && Decode(a.data).value.ProgramData?
  }

  predicate IsProgram(env: Env, a: Account, programdata: Key) {
    a.owner == env.upgradeable && Decode(a.data) == Some(Program(programdata))
  }

  predicate ProgramDataMade(env: Env, c: Call, pre: Store, post: Store, k: Key, a: Account, b: Account) {
    && IsDeploy(env, c) && 8 <= |c.slots| && k == c.slots[1].key
    && env.HasDerived(c.slots[2].key) && k == env.Derive(c.slots[2].key)
    && Unused(a) && IsProgramData(env, b) && !b.executable
    && PROGRAMDATA_OFFSET <= |b.data| && Max(1, env.rent(|b.data|)) <= b.lamports
    && Decode(Get(pre, c.slots[2].key).data) == Some(Uninitialized)
    && IsProgram(env, Get(post, c.slots[2].key), k)
  }

  predicate Upgraded(env: Env, c: Call, k: Key, a: Account, b: Account) {
    && IsUpgrade(env, c) && 7 <= |c.slots| && k == c.slots[0].key
    && Decode(a.data).Some? && Decode(a.data).value.ProgramData? && SignedBy(c, Recorded(Decode(a.data).value))
    && Decode(b.data).Some? && Decode(b.data).value.ProgramData?
    && Recorded(Decode(b.data).value) == Recorded(Decode(a.data).value)
    && |b.data| == |a.data| && PROGRAMDATA_OFFSET <= |b.data|
    && b == a.(data := b.data, lamports := Max(1, env.rent(|a.data|)))
  }

  predicate Abandoned(a: Account, b: Account) {
    Decode(a.data) == Some(Uninitialized) && b == a.(lamports := 0)
  }

  predicate ClosedBy(env: Env, c: Call, k: Key, a: Account, b: Account) {
    && IsClose(env, c) && 1 <= |c.slots| && k == c.slots[0].key
    && Decode(a.data).Some? && SignedBy(c, Recorded(Decode(a.data).value))
    && Decode(b.data) == Some(Uninitialized)
    && b == a.(data := b.data, lamports := 0) && |b.data| == |a.data|
  }

  predicate LegacyChanged(env: Env, c: Call, k: Key, a: Account, b: Account) {
    && (c.programId == env.bpfLoader || c.programId == env.bpfLoaderDeprecated)
    && 1 <= |c.slots| && k == c.slots[0].key && k in Signers(c)
    && b == a.(data := b.data, executable := b.executable) && |b.data| == |a.data|
    && (a.executable ==> b.executable)
  }

  /** The complete list. */
  ghost predicate Moved(env: Env, c: Call, pre: Store, post: Store, k: Key) {
    var a, b := Get(pre, k), Get(post, k);
    || Credited(a, b)
    || SystemDebited(a, b)
    || ProgramDataMade(env, c, pre, post, k, a, b)
    || (a.owner == env.upgradeable && c.programId == env.upgradeable
        && (|| Initialized(a, b) || Written(c, a, b) || BufferDrained(c, a, b) || Reauthorized(c, a, b)
            || ProgramMade(env, c, post, k, a, b) || Upgraded(env, c, k, a, b)
            || Abandoned(a, b) || ClosedBy(env, c, k, a, b)))
    || (a.owner == c.programId && LegacyChanged(env, c, k, a, b))
  }

  // ---------- one lemma for each instruction ----------

  lemma SignerListed(c: Call, i: nat)
    requires i < |c.slots| && c.slots[i].isSigner
    ensures c.slots[i].key in Signers(c)
  {
  }

  lemma InitializeBufferMoves(s: Store, c: Call)
    requires InitializeBufferGuard(s, c) == None
    ensures Initialized(At(s, c, 0), Get(InitializeBufferEffect(s, c), c.slots[0].key))
  {
    var st := Buffer(Some(c.slots[1].key));
    HeaderSizes(st);
    SetStateReads(At(s, c, 0).data, st);
  }

  lemma WriteMoves(s: Store, c: Call, offset: u32, bytes: seq<u8>)
    requires WriteGuard(s, c, offset, bytes) == None
    ensures Written(c, At(s, c, 0), Get(WriteEffect(s, c, offset, bytes), c.slots[0].key))
  {
    SignerListed(c, 1);
    var a, b := At(s, c, 0), Get(WriteEffect(s, c, offset, bytes), c.slots[0].key);
    HeaderSizes(Decode(a.data).value);
    HeaderDecides(a.data, b.data);
    assert b.data[..BUFFER_OFFSET] == a.data[..BUFFER_OFFSET];
  }

  lemma SetAuthorityMoves(s: Store, c: Call)
    requires SetAuthorityGuard(s, c) == None
    ensures Reauthorized(c, At(s, c, 0), Get(SetAuthorityEffect(s, c), c.slots[0].key))
  {
    var a := At(s, c, 0);
    assert AuthorityGuard(Recorded(Decode(a.data).value), c.slots[1]) == None;
    SignerListed(c, 1);
    AuthorityRewrite(c, a, WithAuthority(Decode(a.data).value, NewAuthority(c)));
  }

  /** Writing a new authority over a readable header leaves length and payload alone. */
  lemma AuthorityRewrite(c: Call, a: Account, st: LoaderState)
    requires Decode(a.data).Some? && SignedBy(c, Recorded(Decode(a.data).value))
    requires Decode(a.data).value.Buffer? ==> st.Buffer? && Recorded(st).Some?
    requires Decode(a.data).value.ProgramData? ==> st == ProgramData(Decode(a.data).value.slot, Recorded(st))
    ensures SetState(a.data, st).Some?
    ensures Reauthorized(c, a, a.(data := SetState(a.data, st).value))
  {
    HeaderSizes(st);
    HeaderSizes(Decode(a.data).value);
    DecodedFits(a.data);
    SetStateReads(a.data, st);
  }

  lemma ImageReads(slot: u64, authority: Key, buffer: seq<u8>, len: nat)
    requires BUFFER_OFFSET <= |buffer| && PROGRAMDATA_OFFSET + |buffer| - BUFFER_OFFSET <= len
    ensures Decode(ProgramImage(slot, authority, buffer, len)) == Some(ProgramData(slot, Some(authority)))
    ensures ProgramImage(slot, authority, buffer, len)[PROGRAMDATA_OFFSET..] ==
            buffer[BUFFER_OFFSET..] + Zeros(len - PROGRAMDATA_OFFSET - (|buffer| - BUFFER_OFFSET))
  {
    var st := ProgramData(slot, Some(authority));
    HeaderSizes(st);
    var rest := buffer[BUFFER_OFFSET..] + Zeros(len - PROGRAMDATA_OFFSET - (|buffer| - BUFFER_OFFSET));
    assert ProgramImage(slot, authority, buffer, len) == Encode(st) + rest;
    HeaderRoundTrip(st, rest);
  }

  predicate FourAccounts(c: Call)
    requires 4 <= |c.slots|
  {
    && c.slots[0].key != c.slots[1].key && c.slots[0].key != c.slots[2].key && c.slots[0].key != c.slots[3].key
    && c.slots[1].key != c.slots[2].key && c.slots[1].key != c.slots[3].key && c.slots[2].key != c.slots[3].key
  }

  /** What a Deploy that gets through has found: four accounts in the right states, rent paid, authority signing. */
  predicate DeployPassed(env: Env, s: Store, c: Call) {
    && 8 <= |c.slots| && FourAccounts(c) && c.slots[7].isSigner
    && env.findProgramAddress(c.slots[2].key) == Some(c.slots[1].key)
    && At(s, c, 0).owner == SYSTEM_PROGRAM && At(s, c, 0).data == []
    && Unused(At(s, c, 1))
    && Decode(At(s, c, 2).data) == Some(Uninitialized)
    && PROGRAM_SIZE <= |At(s, c, 2).data| && env.rent(|At(s, c, 2).data|) <= At(s, c, 2).lamports
    && Decode(At(s, c, 3).data) == Some(Buffer(Some(c.slots[7].key)))
  }

  lemma DeployChecked(env: Env, s: Store, c: Call, len: u64)
    requires DeployGuard(env, s, c, len) == None
    ensures DeployPassed(env, s, c)
  {
    DeployFunds(env, s, c, len);
  }

  /** A Deploy's final store, account by account. */
  predicate DeployedStore(env: Env, s: Store, c: Call, len: u64, post: Store)
    requires 8 <= |c.slots|
  {
    var program, buffer := At(s, c, 2), At(s, c, 3);
    && At(post, c, 0) == At(s, c, 0).(lamports := At(post, c, 0).lamports)
    && At(post, c, 1).owner == c.programId && !At(post, c, 1).executable
    && At(post, c, 1).lamports == Max(1, env.rent(PROGRAMDATA_OFFSET + len))
    && BUFFER_OFFSET <= |buffer.data| <= BUFFER_OFFSET + len
    && At(post, c, 1).data == ProgramImage(c.clock, c.slots[7].key, buffer.data, PROGRAMDATA_OFFSET + len)
    && SetState(program.data, Program(c.slots[1].key)).Some?
    && At(post, c, 2) == program.(data := SetState(program.data, Program(c.slots[1].key)).value, executable := true)
    && At(post, c, 3) == buffer.(lamports := 0)
    && (forall k: Key ::
          k != c.slots[0].key && k != c.slots[1].key && k != c.slots[2].key && k != c.slots[3].key ==>
          Get(post, k) == Get(s, k))
  }

  lemma DeployResult(env: Env, s: Store, c: Call, len: u64)
    requires DeployGuard(env, s, c, len) == None
    ensures 8 <= |c.slots| && DeployedStore(env, s, c, len, DeployEffect(env, s, c, len))
  {
    DeployFunds(env, s, c, len);
  }

  /** What Deploy can do to one account. */
  predicate DeployMoved(env: Env, c: Call, pre: Store, post: Store, k: Key) {
    var a, b := Get(pre, k), Get(post, k);
    || a == b
    || SystemDebited(a, b)
    || (k !in Nested(env, c) && (BufferDrained(c, a, b) || ProgramMade(env, c, post, k, a, b)))
    || ProgramDataMade(env, c, pre, post, k, a, b)
  }

  lemma DeployMoves(env: Env, s: Store, c: Call, len: u64, k: Key)
    requires IsDeploy(env, c) && DeployGuard(env, s, c, len) == None
    requires At(s, c, 2).owner == c.programId
    ensures DeployMoved(env, c, s, DeployEffect(env, s, c, len), k)
  {
    DeployChecked(env, s, c, len);
    DeployResult(env, s, c, len);
    DeployKinds(env, c, s, DeployEffect(env, s, c, len), len, k);
  }

  lemma DeployMakesProgramData(env: Env, c: Call, s: Store, post: Store, len: u64)
    requires IsDeploy(env, c) && DeployPassed(env, s, c) && DeployedStore(env, s, c, len, post)
    requires At(s, c, 2).owner == c.programId
    ensures ProgramDataMade(env, c, s, post, c.slots[1].key, At(s, c, 1), At(post, c, 1))
  {
    SetStateReads(At(s, c, 2).data, Program(c.slots[1].key));
    ImageReads(c.clock, c.slots[7].key, At(s, c, 3).data, PROGRAMDATA_OFFSET + len);
  }

  lemma DeployMakesProgram(env: Env, c: Call, s: Store, post: Store, len: u64)
    requires IsDeploy(env, c) && DeployPassed(env, s, c) && DeployedStore(env, s, c, len, post)
    requires IsProgramData(env, At(post, c, 1))
    ensures ProgramMade(env, c, post, c.slots[2].key, At(s, c, 2), At(post, c, 2))
  {
    SetStateReads(At(s, c, 2).data, Program(c.slots[1].key));
  }

  lemma DeployKinds(env: Env, c: Call, s: Store, post: Store, len: u64, k: Key)
    requires IsDeploy(env, c) && DeployPassed(env, s, c) && DeployedStore(env, s, c, len, post)
    requires At(s, c, 2).owner == c.programId
    ensures DeployMoved(env, c, s, post, k)
  {
    DeployMakesProgramData(env, c, s, post, len);
    DeployMakesProgram(env, c, s, post, len);
    SignerListed(c, 7);
  }

  /** The runtime accepts a Deploy only on a Program account that the loader owns. */
  lemma DeployOwner(env: Env, s: Store, c: Call, len: u64)
    requires IsDeploy(env, c) && DeployGuard(env, s, c, len) == None
    requires OwnerRule(c.programId, s, DeployEffect(env, s, c, len), Nested(env, c))
    ensures At(s, c, 2).owner == c.programId
  {
    DeployChecked(env, s, c, len);
    DeployResult(env, s, c, len);
    SetStateReads(At(s, c, 2).data, Program(c.slots[1].key));
    var k := c.slots[2].key;
    assert k !in Nested(env, c);
    assert OwnerAllows(c.programId, Get(s, k), Get(DeployEffect(env, s, c, len), k));
  }

  /** The owner rule asks of a Deploy that Program and buffer are the loader's; one without lamports may be anyone's. */
  lemma DeployAccepted(env: Env, s: Store, c: Call, len: u64)
    requires IsDeploy(env, c) && DeployGuard(env, s, c, len) == None
    ensures OwnerRule(c.programId, s, DeployEffect(env, s, c, len), Nested(env, c)) <==>
            && At(s, c, 2).owner == c.programId
            && (At(s, c, 3).owner == c.programId || At(s, c, 3).lamports == 0)
  {
    DeployChecked(env, s, c, len);
    DeployResult(env, s, c, len);
    var post := DeployEffect(env, s, c, len);
    if OwnerRule(c.programId, s, post, Nested(env, c)) {
      DeployOwner(env, s, c, len);
      assert OwnerAllows(c.programId, Get(s, c.slots[3].key), Get(post, c.slots[3].key));
    }
  }

  /** When a Deploy takes effect: it reaches the processor, its checks pass, and the loader owns what it changes. */
  lemma DeployCommitsExactly(env: Env, s: State, c: Call, len: u64)
    requires c.programId == env.upgradeable && I.DeserializeForProcessor(c.data) == Some(I.DeployWithMaxDataLen(len))
    ensures Commits(env, s, c) <==>
            && ReachesProcessor(s.accounts, c)
            && DeployGuard(env, s.accounts, c, len) == None
            && At(s.accounts, c, 2).owner == c.programId
            && (At(s.accounts, c, 3).owner == c.programId || At(s.accounts, c, 3).lamports == 0)
  {
    if DeployGuard(env, s.accounts, c, len) == None {
      DeployAccepted(env, s.accounts, c, len);
    }
  }

  /** The owner rule on a call that changes one account. */
  lemma OneAccountAccepted(loader: Key, s: Store, k: Key, b: Account)
    ensures OwnerRule(loader, s, s[k := b], {}) <==> OwnerAllows(loader, Get(s, k), b)
  {
    if OwnerRule(loader, s, s[k := b], {}) {
      assert OwnerAllows(loader, Get(s, k), Get(s[k := b], k));
    }
  }

  lemma InitializeBufferChecked(s: Store, c: Call)
    ensures InitializeBufferGuard(s, c) == None <==>
            && 2 <= |c.slots| && Decode(At(s, c, 0).data) == Some(Uninitialized) && BUFFER_OFFSET <= |At(s, c, 0).data|
  {
    if 2 <= |c.slots| {
      HeaderSizes(Buffer(Some(c.slots[1].key)));
    }
  }

  /** What InitializeBuffer does to its account, and when the owner rule accepts it. */
  lemma InitializeBufferAccepted(s: Store, c: Call)
    requires InitializeBufferGuard(s, c) == None
    ensures var a, b := At(s, c, 0), At(InitializeBufferEffect(s, c), c, 0);
            && b == a.(data := b.data) && Decode(b.data) == Some(Buffer(Some(c.slots[1].key)))
            && (OwnerRule(c.programId, s, InitializeBufferEffect(s, c), {}) <==> a.owner == c.programId)
  {
    var a := At(s, c, 0);
    var b := a.(data := SetState(a.data, Buffer(Some(c.slots[1].key))).value);
    SetStateReads(a.data, Buffer(Some(c.slots[1].key)));
    OneAccountAccepted(c.programId, s, c.slots[0].key, b);
  }

  /** When an InitializeBuffer call takes effect. Nobody has to have signed it. */
  lemma InitializeBufferCommitsExactly(env: Env, s: State, c: Call)
    requires c.programId == env.upgradeable && I.DeserializeForProcessor(c.data) == Some(I.InitializeBuffer)
    ensures Commits(env, s, c) <==>
            && ReachesProcessor(s.accounts, c) && 2 <= |c.slots|
            && At(s.accounts, c, 0).owner == c.programId && Decode(At(s.accounts, c, 0).data) == Some(Uninitialized)
            && BUFFER_OFFSET <= |At(s.accounts, c, 0).data|
    ensures Commits(env, s, c) ==>
              var a, b := At(s.accounts, c, 0), At(Next(env, s, Submit(c)).accounts, c, 0);
              b == a.(data := b.data) && Decode(b.data) == Some(Buffer(Some(c.slots[1].key)))
  {
    InitializeBufferChecked(s.accounts, c);
    if InitializeBufferGuard(s.accounts, c) == None {
      InitializeBufferAccepted(s.accounts, c);
    }
  }

  /** When a Write to an account of the loader takes effect. */
  lemma WriteCommitsExactly(env: Env, s: State, c: Call, offset: u32, bytes: I.Payload)
    requires c.programId == env.upgradeable && I.DeserializeForProcessor(c.data) == Some(I.Write(offset, bytes))
    requires 1 <= |c.slots| && At(s.accounts, c, 0).owner == env.upgradeable
    ensures Commits(env, s, c) <==> ReachesProcessor(s.accounts, c) && WriteGuard(s.accounts, c, offset, bytes) == None
  {
    if WriteGuard(s.accounts, c, offset, bytes) == None {
      var a := At(s.accounts, c, 0);
      OneAccountAccepted(c.programId, s.accounts, c.slots[0].key,
                         a.(data := Splice(a.data, BUFFER_OFFSET + offset, bytes)));
    }
  }

  /** Upgrade's checks, as what the caller must bring: the exact condition under which all of them pass. */
  lemma UpgradeChecked(env: Env, s: Store, c: Call)
    ensures UpgradeCheck(env, s, c) == None <==>
            && 7 <= |c.slots| && c.slots[4].key == env.rentSysvar && c.slots[5].key == env.clockSysvar
            && c.slots[6].isSigner && c.slots[1].isWritable
            && At(s, c, 1).executable && At(s, c, 1).owner == c.programId
            && Decode(At(s, c, 1).data) == Some(Program(c.slots[0].key))
            && Decode(At(s, c, 2).data) == Some(Buffer(Some(c.slots[6].key)))
            && Decode(At(s, c, 0).data).Some? && Decode(At(s, c, 0).data).value.ProgramData?
            && Recorded(Decode(At(s, c, 0).data).value) == Some(c.slots[6].key)
            && 0 < |At(s, c, 2).data| - BUFFER_OFFSET <= |At(s, c, 0).data| - PROGRAMDATA_OFFSET
            && Max(1, env.rent(|At(s, c, 0).data|)) <= WrappingAdd(At(s, c, 0).lamports, At(s, c, 2).lamports)
  {
    if 7 <= |c.slots| {
      UpgradeProgramChecked(c, At(s, c, 1));
      SourceBufferChecked(At(s, c, 2), c.slots[6]);
      UpgradeTargetChecked(env, At(s, c, 0), At(s, c, 2), c.slots[6]);
    }
  }

  lemma UpgradeProgramChecked(c: Call, program: Account)
    requires 7 <= |c.slots|
    ensures UpgradeProgramGuard(c, program) == None <==>
            && program.executable && c.slots[1].isWritable && program.owner == c.programId
            && Decode(program.data) == Some(Program(c.slots[0].key))
  {
  }

  lemma SourceBufferChecked(buffer: Account, authority: KeyedAccount)
    ensures SourceBufferGuard(buffer, authority) == None <==>
            Decode(buffer.data) == Some(Buffer(Some(authority.key))) && authority.isSigner
  {
  }

  lemma UpgradeTargetChecked(env: Env, programdata: Account, buffer: Account, authority: KeyedAccount)
    ensures UpgradeTargetGuard(env, programdata, buffer, authority) == None <==>
            && Decode(programdata.data).Some? && Decode(programdata.data).value.ProgramData?
            && Recorded(Decode(programdata.data).value) == Some(authority.key) && authority.isSigner
            && 0 < |buffer.data| - BUFFER_OFFSET <= |programdata.data| - PROGRAMDATA_OFFSET
            && Max(1, env.rent(|programdata.data|)) <= WrappingAdd(programdata.lamports, buffer.lamports)
  {
  }

  /** What an Upgrade that gets through has found: shared slots are refused by state or by the live borrow. */
  predicate UpgradePassed(env: Env, s: Store, c: Call) {
    && 7 <= |c.slots| && c.slots[6].isSigner
    && c.slots[0].key != c.slots[2].key && c.slots[0].key != c.slots[3].key && c.slots[2].key != c.slots[3].key
    && Decode(At(s, c, 0).data).Some? && Decode(At(s, c, 0).data).value.ProgramData?
    && Recorded(Decode(At(s, c, 0).data).value) == Some(c.slots[6].key)
    && Decode(At(s, c, 2).data) == Some(Buffer(Some(c.slots[6].key)))
    && Max(1, env.rent(|At(s, c, 0).data|)) <= WrappingAdd(At(s, c, 0).lamports, At(s, c, 2).lamports)
    && SpillGuard(s, c.slots[0].key, c.slots[2].key, c.slots[3].key, Max(1, env.rent(|At(s, c, 0).data|))) == None
  }

  lemma UpgradeAccounts(env: Env, s: Store, c: Call)
    requires UpgradeGuard(env, s, c) == None
    ensures UpgradePassed(env, s, c)
  {
    UpgradeChecked(env, s, c);
  }

  /** An Upgrade's final store, account by account. */
  predicate UpgradedStore(env: Env, s: Store, c: Call, post: Store)
    requires 7 <= |c.slots|
  {
    var programdata, buffer := At(s, c, 0), At(s, c, 2);
    && 0 < |buffer.data| - BUFFER_OFFSET <= |programdata.data| - PROGRAMDATA_OFFSET
    && At(post, c, 0) == programdata.(lamports := Max(1, env.rent(|programdata.data|)),
                                      data := ProgramImage(c.clock, c.slots[6].key, buffer.data, |programdata.data|))
    && At(post, c, 2) == buffer.(lamports := 0)
    && Credited(At(s, c, 3), At(post, c, 3))
    && (forall k: Key :: k != c.slots[0].key && k != c.slots[2].key && k != c.slots[3].key ==>
        Get(post, k) == Get(s, k))
  }

  lemma UpgradeResult(env: Env, s: Store, c: Call)
    requires UpgradeGuard(env, s, c) == None
    ensures 7 <= |c.slots| && UpgradedStore(env, s, c, UpgradeEffect(env, s, c))
  {
    UpgradeAccounts(env, s, c);
    UpgradeChecked(env, s, c);
    FundedResult(env, s, c, UpgradedProgramData(env, s, c));
  }

  lemma FundedResult(env: Env, s: Store, c: Call, made: Account)
    requires UpgradePassed(env, s, c)
    requires 0 < |At(s, c, 2).data| - BUFFER_OFFSET <= |At(s, c, 0).data| - PROGRAMDATA_OFFSET
    requires made == At(s, c, 0).(
               lamports := Max(1, env.rent(|At(s, c, 0).data|)),
               data := ProgramImage(c.clock, c.slots[6].key, At(s, c, 2).data, |At(s, c, 0).data|))
    ensures UpgradedStore(env, s, c, FundedAndSpilled(s, c.slots[0].key, c.slots[2].key, c.slots[3].key, made,
                                                      Max(1, env.rent(|At(s, c, 0).data|))))
  {
  }

  predicate UpgradeMoved(env: Env, c: Call, k: Key, a: Account, b: Account) {
    || Credited(a, b)
    || (7 <= |c.slots| && k == c.slots[2].key && BufferDrained(c, a, b))
    || Upgraded(env, c, k, a, b)
  }

  lemma UpgradeKinds(env: Env, c: Call, s: Store, post: Store, k: Key)
    requires IsUpgrade(env, c) && UpgradePassed(env, s, c) && UpgradedStore(env, s, c, post)
    ensures UpgradeMoved(env, c, k, Get(s, k), Get(post, k))
  {
    SignerListed(c, 6);
    ImageReads(c.clock, c.slots[6].key, At(s, c, 2).data, |At(s, c, 0).data|);
  }

  lemma UpgradeMoves(env: Env, s: Store, c: Call, k: Key)
    requires IsUpgrade(env, c) && UpgradeGuard(env, s, c) == None
    ensures UpgradeMoved(env, c, k, Get(s, k), Get(UpgradeEffect(env, s, c), k))
  {
    UpgradeAccounts(env, s, c);
    UpgradeResult(env, s, c);
    UpgradeKinds(env, c, s, UpgradeEffect(env, s, c), k);
  }

  lemma RefusalSigned(s: Store, c: Call)
    requires 2 <= |c.slots| && CloseRefusal(s, c) == None
    ensures Decode(At(s, c, 0).data).value.Uninitialized? || SignedBy(c, Recorded(Decode(At(s, c, 0).data).value))
  {
    match Decode(At(s, c, 0).data).value {
      case Uninitialized =>
      case Buffer(a) => SignerListed(c, 2);
      case ProgramData(_, a) => SignerListed(c, 2);
    }
  }

  /** A closed account was uninitialised, or its recorded authority signed. */
  lemma CloseSigned(s: Store, c: Call)
    requires CloseGuard(s, c) == None
    ensures Decode(At(s, c, 0).data).Some?
    ensures Decode(At(s, c, 0).data).value.Uninitialized? || SignedBy(c, Recorded(Decode(At(s, c, 0).data).value))
  {
    RefusalSigned(s, c);
  }

  lemma CloseMoves(env: Env, s: Store, c: Call, k: Key)
    requires IsClose(env, c) && CloseGuard(s, c) == None
    ensures var a, b := Get(s, k), Get(CloseEffect(s, c), k);
            || Credited(a, b)
            || (k == c.slots[0].key && (Abandoned(a, b) || ClosedBy(env, c, k, a, b)))
  {
    CloseSigned(s, c);
    if k == c.slots[0].key {
      var a := Get(s, k);
      DecodedFits(a.data);
      SetStateReads(a.data, Uninitialized);
      if Decode(a.data) == Some(Uninitialized) {
        assert SetState(a.data, Uninitialized).value == a.data;
      }
    }
  }

  /** A committed call moves every account in one of the listed ways. */
  lemma CommittedMoves(env: Env, s: State, c: Call, k: Key)
    requires env.Valid() && Commits(env, s, c)
    ensures Moved(env, c, s.accounts, Next(env, s, Submit(c)).accounts, k)
  {
    CommittedIsApplied(env, s, c);
    AppliedMoves(env, s.accounts, c, Next(env, s, Submit(c)).accounts, k);
  }

  lemma AppliedMoves(env: Env, pre: Store, c: Call, post: Store, k: Key)
    requires env.Valid() && Applied(env, pre, c, post) && OwnerRule(c.programId, pre, post, Nested(env, c))
    ensures Moved(env, c, pre, post, k)
  {
    if k !in Nested(env, c) {
      assert OwnerAllows(c.programId, Get(pre, k), Get(post, k));
    }
    if c.programId != env.upgradeable {
      LegacyMoves(env, pre, c, k);
    } else {
      match I.DeserializeForProcessor(c.data) {
        case Some(InitializeBuffer) => InitializeBufferMoves(pre, c);
        case Some(Write(offset, bytes)) => WriteMoves(pre, c, offset, bytes);
        case Some(DeployWithMaxDataLen(len)) =>
          DeployOwner(env, pre, c, len);
          DeployMoves(env, pre, c, len, k);
        case Some(Upgrade) => UpgradeMoves(env, pre, c, k);
        case Some(SetAuthority) => SetAuthorityMoves(pre, c);
        case Some(Close) => CloseMoves(env, pre, c, k);
      }
    }
  }

  lemma LegacyMoves(env: Env, s: Store, c: Call, k: Key)
    requires LegacyGuard(env, s, c) == None
    requires c.programId == env.bpfLoader || c.programId == env.bpfLoaderDeprecated
    ensures var a, b := Get(s, k), Get(LegacyEffect(env, s, c), k);
            a == b || (a.owner == c.programId && LegacyChanged(env, c, k, a, b))
  {
    SignerListed(c, 0);
  }
}
