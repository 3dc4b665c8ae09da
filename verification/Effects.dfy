/** What every committed instruction leaves behind, account by account, and exactly when it commits. */
module Effects {
  import opened Bytes
  import opened LoaderState
  import opened Runtime
  import opened Loader
  import opened Chain
  import opened Transitions
  import opened Invariant
  import opened Conservation
  import opened Caching
  import opened Lifecycle
  import I = Instructions

  /** No account outside `keys` changes. */
  ghost predicate OnlyChanged(pre: Store, post: Store, keys: set<Key>) {
    forall k: Key :: k !in keys ==> Get(post, k) == Get(pre, k)
  }

  /** The data holds `st` and otherwise what it held before. */
  predicate HeaderReplaced(d: seq<u8>, e: seq<u8>, st: LoaderState) {
    |Encode(st)| <= |d| && e == Encode(st) + d[|Encode(st)|..]
  }

  predicate Reads(c: Call, ix: I.Instruction) {
    I.DeserializeForProcessor(c.data) == Some(ix)
  }

  lemma SetStateReplaces(d: seq<u8>, st: LoaderState)
    requires SetState(d, st).Some?
    ensures HeaderReplaced(d, SetState(d, st).value, st) && Decode(SetState(d, st).value) == Some(st)
  {
    SetStateReads(d, st);
  }

  // ---------- InitializeBuffer and Write ----------

  lemma InitializeBufferLeaves(env: Env, s: State, c: Call)
    requires Commits(env, s, c) && c.programId == env.upgradeable && Reads(c, I.InitializeBuffer)
    ensures 2 <= |c.slots|
    ensures var post := Next(env, s, Submit(c)).accounts;
            var a, b := At(s.accounts, c, 0), At(post, c, 0);
            && b == a.(data := b.data) && HeaderReplaced(a.data, b.data, Buffer(Some(c.slots[1].key)))
            && OnlyChanged(s.accounts, post, {c.slots[0].key})
  {
    CommittedIsApplied(env, s, c);
    SetStateReplaces(At(s.accounts, c, 0).data, Buffer(Some(c.slots[1].key)));
  }

  /** Byte by byte: the written range holds the instruction's bytes, everything else is as before. */
  predicate BytesWritten(d: seq<u8>, e: seq<u8>, from: nat, bytes: seq<u8>) {
    && |e| == |d| && from + |bytes| <= |d|
    && (forall i :: 0 <= i < |bytes| ==> e[from + i] == bytes[i])
    && (forall i :: 0 <= i < |d| && !(from <= i < from + |bytes|) ==> e[i] == d[i])
  }

  lemma WriteLeaves(env: Env, s: State, c: Call, offset: u32, bytes: I.Payload)
    requires Commits(env, s, c) && c.programId == env.upgradeable && Reads(c, I.Write(offset, bytes))
    ensures 1 <= |c.slots|
    ensures var post := Next(env, s, Submit(c)).accounts;
            var a, b := At(s.accounts, c, 0), At(post, c, 0);
            && b == a.(data := b.data) && BytesWritten(a.data, b.data, 37 + offset, bytes)
            && OnlyChanged(s.accounts, post, {c.slots[0].key})
  {
    CommittedIsApplied(env, s, c);
  }

  // ---------- DeployWithMaxDataLen ----------

  /** The bytes of a ProgramData account: its header, then the payload of a buffer, then zeros. */
  predicate HoldsPayload(d: seq<u8>, slot: u64, authority: Key, buffer: seq<u8>, len: nat) {
    && |d| == len && 37 <= |buffer| && 45 + |buffer| - 37 <= len
    && Decode(d) == Some(ProgramData(slot, Some(authority)))
    && d[45..45 + |buffer| - 37] == buffer[37..]
    && (forall i :: 45 + |buffer| - 37 <= i < len ==> d[i] == 0)
  }

  lemma ImageHoldsPayload(slot: u64, authority: Key, buffer: seq<u8>, len: nat)
    requires BUFFER_OFFSET <= |buffer| && PROGRAMDATA_OFFSET + |buffer| - BUFFER_OFFSET <= len
    ensures HoldsPayload(ProgramImage(slot, authority, buffer, len), slot, authority, buffer, len)
  {
    ImageReads(slot, authority, buffer, len);
    HeaderSizes(ProgramData(slot, Some(authority)));
    var d := ProgramImage(slot, authority, buffer, len);
    assert d[45..45 + |buffer| - 37] == d[45..][..|buffer| - 37];
  }

  /** Payer pays what is left of the cost after the buffer's lamports; the buffer's payload becomes ProgramData. */
  ghost predicate DeployLeft(env: Env, c: Call, len: u64, pre: Store, post: Store)
    requires 8 <= |c.slots|
  {
    var cost := Max(1, env.rent(45 + len));
    var payer, programdata, program, buffer := At(post, c, 0), At(post, c, 1), At(post, c, 2), At(post, c, 3);
    && payer.lamports == At(pre, c, 0).lamports + At(pre, c, 3).lamports - cost
    && payer == At(pre, c, 0).(lamports := payer.lamports)
    && programdata == Account(cost, env.upgradeable, false, programdata.data)
    && HoldsPayload(programdata.data, c.clock, c.slots[7].key, At(pre, c, 3).data, 45 + len)
    && program == At(pre, c, 2).(data := program.data, executable := true)
    && HeaderReplaced(At(pre, c, 2).data, program.data, Program(c.slots[1].key))
    && buffer == At(pre, c, 3).(lamports := 0)
    && OnlyChanged(pre, post, {c.slots[0].key, c.slots[1].key, c.slots[2].key, c.slots[3].key})
  }

  lemma DeployLeaves(env: Env, s: State, c: Call, len: u64)
    requires Commits(env, s, c) && c.programId == env.upgradeable && Reads(c, I.DeployWithMaxDataLen(len))
    ensures 8 <= |c.slots| && DeployLeft(env, c, len, s.accounts, Next(env, s, Submit(c)).accounts)
  {
    CommittedIsApplied(env, s, c);
    DeployEffectLeft(env, s.accounts, c, len);
  }

  lemma DeployEffectLeft(env: Env, s: Store, c: Call, len: u64)
    requires c.programId == env.upgradeable && DeployGuard(env, s, c, len) == None
    ensures 8 <= |c.slots| && DeployLeft(env, c, len, s, DeployEffect(env, s, c, len))
  {
    DeployResult(env, s, c, len);
    DeployChanges(env, s, c, len);
    DeployChecked(env, s, c, len);
    StoreDeployLeft(env, s, c, len, DeployEffect(env, s, c, len));
  }

  lemma StoreDeployLeft(env: Env, s: Store, c: Call, len: u64, post: Store)
    requires c.programId == env.upgradeable && DeployPassed(env, s, c)
    requires DeployedStore(env, s, c, len, post) && DeployChange(s, c, post)
    ensures DeployLeft(env, c, len, s, post)
  {
    ImageHoldsPayload(c.clock, c.slots[7].key, At(s, c, 3).data, PROGRAMDATA_OFFSET + len);
    SetStateReplaces(At(s, c, 2).data, Program(c.slots[1].key));
  }

  // ---------- Upgrade ----------

  /** ProgramData keeps its rent minimum, the buffer nothing, and spill gets all the rest. */
  ghost predicate UpgradeLeft(env: Env, c: Call, pre: Store, post: Store)
    requires 7 <= |c.slots|
  {
    var rent := Max(1, env.rent(|At(pre, c, 0).data|));
    var programdata, buffer, spill := At(post, c, 0), At(post, c, 2), At(post, c, 3);
    && programdata == At(pre, c, 0).(lamports := rent, data := programdata.data)
    && HoldsPayload(programdata.data, c.clock, c.slots[6].key, At(pre, c, 2).data, |At(pre, c, 0).data|)
    && buffer == At(pre, c, 2).(lamports := 0)
    && spill.lamports == At(pre, c, 3).lamports + At(pre, c, 0).lamports + At(pre, c, 2).lamports - rent
    && spill == At(pre, c, 3).(lamports := spill.lamports)
    && OnlyChanged(pre, post, {c.slots[0].key, c.slots[2].key, c.slots[3].key})
  }

  lemma UpgradeLeaves(env: Env, s: State, c: Call)
    requires Commits(env, s, c) && IsUpgrade(env, c) && Total(s.accounts) < TWO_64
    ensures 7 <= |c.slots| && UpgradeLeft(env, c, s.accounts, Next(env, s, Submit(c)).accounts)
  {
    CommittedIsApplied(env, s, c);
    UpgradeEffectLeft(env, s.accounts, c);
  }

  lemma UpgradeEffectLeft(env: Env, s: Store, c: Call)
    requires UpgradeGuard(env, s, c) == None && Total(s) < TWO_64
    ensures 7 <= |c.slots| && UpgradeLeft(env, c, s, UpgradeEffect(env, s, c))
  {
    UpgradeAccounts(env, s, c);
    UpgradeResult(env, s, c);
    SpillReceives(env, s, c, UpgradedProgramData(env, s, c));
    StoreUpgradeLeft(env, s, c, UpgradeEffect(env, s, c));
  }

  lemma SpillReceives(env: Env, s: Store, c: Call, made: Account)
    requires UpgradePassed(env, s, c) && Total(s) < TWO_64
    ensures var rent := Max(1, env.rent(|At(s, c, 0).data|));
            var post := FundedAndSpilled(s, c.slots[0].key, c.slots[2].key, c.slots[3].key, made, rent);
            && At(post, c, 3).lamports ==
               At(s, c, 3).lamports + At(s, c, 0).lamports + At(s, c, 2).lamports - rent
            && At(post, c, 3) == At(s, c, 3).(lamports := At(post, c, 3).lamports)
  {
    TwoWithinTotal(s, c.slots[0].key, c.slots[2].key);
    SpillExact(At(s, c, 0), At(s, c, 2), Max(1, env.rent(|At(s, c, 0).data|)));
  }

  lemma StoreUpgradeLeft(env: Env, s: Store, c: Call, post: Store)
    requires UpgradePassed(env, s, c) && UpgradedStore(env, s, c, post)
    requires At(post, c, 3).lamports == At(s, c, 3).lamports + At(s, c, 0).lamports + At(s, c, 2).lamports
                                        - Max(1, env.rent(|At(s, c, 0).data|))
    requires At(post, c, 3) == At(s, c, 3).(lamports := At(post, c, 3).lamports)
    ensures UpgradeLeft(env, c, s, post)
  {
    ImageHoldsPayload(c.clock, c.slots[6].key, At(s, c, 2).data, |At(s, c, 0).data|);
  }

  // ---------- SetAuthority ----------

  /**
   * The present authority signs for a Buffer, which must name a successor, or for a ProgramData account, which need
   * not.
   */
  predicate MayHandOver(s: Store, c: Call) {
    && 2 <= |c.slots| && c.slots[1].isSigner
    && match Decode(At(s, c, 0).data)
       case Some(Buffer(a)) => a == Some(c.slots[1].key) && 3 <= |c.slots|
       case Some(ProgramData(_, a)) => a == Some(c.slots[1].key)
       case _ => false
  }

  /** The state a hand-over leaves: the third slot's key, or nobody's, and the old slot number. */
  predicate HandedOver(c: Call, old_: LoaderState, new_: LoaderState) {
    match old_
    case Buffer(_) => 3 <= |c.slots| && new_ == Buffer(Some(c.slots[2].key))
    case ProgramData(slot, _) => new_ == ProgramData(slot, if |c.slots| < 3 then None else Some(c.slots[2].key))
    case _ => false
  }

  /** Header handed over; every byte behind the new header, and every other field, as before. */
  predicate AuthorityReplaced(c: Call, a: Account, b: Account) {
    && b == a.(data := b.data) && Decode(a.data).Some? && Decode(b.data).Some?
    && HandedOver(c, Decode(a.data).value, Decode(b.data).value)
    && HeaderReplaced(a.data, b.data, Decode(b.data).value)
  }

  lemma SetAuthorityChecked(s: Store, c: Call)
    ensures SetAuthorityGuard(s, c) == None <==> MayHandOver(s, c)
  {
  }

  lemma SetAuthorityEffectLeft(s: Store, c: Call)
    requires SetAuthorityGuard(s, c) == None
    ensures AuthorityReplaced(c, At(s, c, 0), At(SetAuthorityEffect(s, c), c, 0))
    ensures OnlyChanged(s, SetAuthorityEffect(s, c), {c.slots[0].key})
  {
    SetAuthorityChecked(s, c);
    DecodedFits(At(s, c, 0).data);
    WithAuthorityReplaces(c, At(s, c, 0));
  }

  lemma WithAuthorityReplaces(c: Call, a: Account)
    requires Decode(a.data).Some? && (Decode(a.data).value.Buffer? ==> 3 <= |c.slots|)
    requires Recorded(Decode(a.data).value).Some?
    ensures var st := WithAuthority(Decode(a.data).value, NewAuthority(c));
            SetState(a.data, st).Some? && AuthorityReplaced(c, a, a.(data := SetState(a.data, st).value))
  {
    DecodedFits(a.data);
    HeaderSizes(Decode(a.data).value);
    HeaderSizes(WithAuthority(Decode(a.data).value, NewAuthority(c)));
    SetStateReplaces(a.data, WithAuthority(Decode(a.data).value, NewAuthority(c)));
  }

  /** Handing over to oneself is the only hand-over that changes nothing. */
  lemma HandOverChanges(c: Call, a: Account, b: Account)
    requires 2 <= |c.slots| && AuthorityReplaced(c, a, b) && Recorded(Decode(a.data).value) == Some(c.slots[1].key)
    ensures a == b <==> 3 <= |c.slots| && c.slots[2].key == c.slots[1].key
  {
    DecodedFits(a.data);
  }

  /**
   * SetAuthority takes effect if and only if it reaches the processor, the present authority signs, a Buffer gets a
   * successor, and the account is the loader's or nothing changes. It then records the third slot's key.
   */
  lemma SetAuthorityCommitsExactly(env: Env, s: State, c: Call)
    requires c.programId == env.upgradeable && Reads(c, I.SetAuthority)
    ensures Commits(env, s, c) <==>
            && ReachesProcessor(s.accounts, c) && MayHandOver(s.accounts, c)
            && (|| At(s.accounts, c, 0).owner == c.programId
                || (3 <= |c.slots| && c.slots[2].key == c.slots[1].key))
    ensures Commits(env, s, c) ==>
              && AuthorityReplaced(c, At(s.accounts, c, 0), At(Next(env, s, Submit(c)).accounts, c, 0))
              && OnlyChanged(s.accounts, Next(env, s, Submit(c)).accounts, {c.slots[0].key})
  {
    SetAuthorityChecked(s.accounts, c);
    if SetAuthorityGuard(s.accounts, c) == None {
      var a, post := At(s.accounts, c, 0), SetAuthorityEffect(s.accounts, c);
      SetAuthorityEffectLeft(s.accounts, c);
      HandOverChanges(c, a, At(post, c, 0));
      OneAccountAccepted(c.programId, s.accounts, c.slots[0].key, At(post, c, 0));
    }
  }

  // ---------- Close ----------

  predicate IsUninitialized(a: Account) {
    Decode(a.data) == Some(Uninitialized)
  }

  /**
   * Who may close: anyone an uninitialised account, the signing authority a Buffer, and with its Program a
   * ProgramData.
   */
  predicate MayClose(s: Store, c: Call) {
    && 2 <= |c.slots| && c.slots[0].key != c.slots[1].key
    && At(s, c, 0).lamports + At(s, c, 1).lamports < TWO_64
    && match Decode(At(s, c, 0).data)
       case Some(Uninitialized) => true
       case Some(Buffer(a)) => 3 <= |c.slots| && a == Some(c.slots[2].key) && c.slots[2].isSigner
       case Some(ProgramData(_, a)) =>
         && 4 <= |c.slots| && a == Some(c.slots[2].key) && c.slots[2].isSigner
         && c.slots[3].isWritable && At(s, c, 3).owner == c.programId
         && Decode(At(s, c, 3).data) == Some(Program(c.slots[0].key))
       case _ => false
  }

  /** The second slot receives the lamports, the first forgets its state, and nothing else moves. */
  ghost predicate CloseLeft(c: Call, pre: Store, post: Store)
    requires 2 <= |c.slots|
  {
    var closed, recipient := At(post, c, 0), At(post, c, 1);
    && recipient.lamports == At(pre, c, 1).lamports + At(pre, c, 0).lamports
    && recipient == At(pre, c, 1).(lamports := recipient.lamports)
    && closed == At(pre, c, 0).(lamports := 0, data := closed.data)
    && HeaderReplaced(At(pre, c, 0).data, closed.data, Uninitialized)
    && OnlyChanged(pre, post, {c.slots[0].key, c.slots[1].key})
  }

  lemma CloseChecked(s: Store, c: Call)
    ensures CloseGuard(s, c) == None <==> MayClose(s, c)
  {
  }

  lemma CloseEffectLeft(s: Store, c: Call)
    requires CloseGuard(s, c) == None
    ensures CloseLeft(c, s, CloseEffect(s, c))
  {
    DecodedFits(At(s, c, 0).data);
    SetStateReplaces(At(s, c, 0).data, Uninitialized);
  }

  /** The owner rule lets Close touch the loader's accounts, and leave an empty uninitialised one as it is. */
  lemma CloseAccepted(loader: Key, c: Call, s: Store, post: Store)
    requires MayClose(s, c) && CloseLeft(c, s, post)
    ensures OwnerRule(loader, s, post, {}) <==>
            At(s, c, 0).owner == loader || (IsUninitialized(At(s, c, 0)) && At(s, c, 0).lamports == 0)
  {
    var a, b := At(s, c, 0), At(post, c, 0);
    DecodedFits(a.data);
    HeaderRoundTrip(Uninitialized, a.data[|Encode(Uninitialized)|..]);
    if OwnerRule(loader, s, post, {}) {
      assert OwnerAllows(loader, Get(s, c.slots[0].key), Get(post, c.slots[0].key));
    }
  }

  /** When a Close takes effect, and what it then leaves: every lamport with the recipient in the second slot. */
  lemma CloseCommitsExactly(env: Env, s: State, c: Call)
    requires IsClose(env, c)
    ensures Commits(env, s, c) <==>
            && ReachesProcessor(s.accounts, c) && MayClose(s.accounts, c)
            && (|| At(s.accounts, c, 0).owner == c.programId
                || (IsUninitialized(At(s.accounts, c, 0)) && At(s.accounts, c, 0).lamports == 0))
    ensures Commits(env, s, c) ==> CloseLeft(c, s.accounts, Next(env, s, Submit(c)).accounts)
  {
    CloseChecked(s.accounts, c);
    CloseCommitted(env, s, c);
    if CloseGuard(s.accounts, c) == None {
      CloseEffectLeft(s.accounts, c);
      CloseAccepted(c.programId, c, s.accounts, CloseEffect(s.accounts, c));
    }
  }

  lemma CloseCommitted(env: Env, s: State, c: Call)
    requires IsClose(env, c)
    ensures Commits(env, s, c) <==>
            && ReachesProcessor(s.accounts, c) && CloseGuard(s.accounts, c) == None
            && OwnerRule(c.programId, s.accounts, CloseEffect(s.accounts, c), {})
    ensures Commits(env, s, c) ==> Next(env, s, Submit(c)).accounts == CloseEffect(s.accounts, c)
  {
  }

  // ---------- the non-upgradeable loader ----------

  /** A call of one of the two non-upgradeable loaders with the given instruction. */
  predicate IsLegacy(env: Env, c: Call, ix: LegacyInstruction) {
    && (c.programId == env.bpfLoader || c.programId == env.bpfLoaderDeprecated)
    && env.legacyInstruction(c.data) == Some(ix)
  }

  /** Its account is the loader's and signs. */
  predicate LegacySigned(s: Store, c: Call) {
    1 <= |c.slots| && At(s, c, 0).owner == c.programId && c.slots[0].isSigner
  }

  lemma LegacyAccepted(loader: Key, s: Store, k: Key, b: Account)
    requires Get(s, k).owner == loader
    ensures OwnerRule(loader, s, s[k := b], {})
  {
    OneAccountAccepted(loader, s, k, b);
  }

  /** Write takes effect exactly when its bytes fit, and puts them at its offset. */
  lemma LegacyWriteCommitsExactly(env: Env, s: State, c: Call, offset: u32, bytes: seq<u8>)
    requires env.Valid() && IsLegacy(env, c, LegacyWrite(offset, bytes))
    ensures Commits(env, s, c) <==>
            && ReachesProcessor(s.accounts, c) && LegacySigned(s.accounts, c)
            && offset + |bytes| <= |At(s.accounts, c, 0).data|
    ensures Commits(env, s, c) ==>
              var post := Next(env, s, Submit(c)).accounts;
              var a, b := At(s.accounts, c, 0), At(post, c, 0);
              && b == a.(data := b.data) && BytesWritten(a.data, b.data, offset, bytes)
              && OnlyChanged(s.accounts, post, {c.slots[0].key})
  {
    if LegacyGuard(env, s.accounts, c) == None {
      var a := At(s.accounts, c, 0);
      LegacyAccepted(c.programId, s.accounts, c.slots[0].key, a.(data := Splice(a.data, offset, bytes)));
    }
  }

  /** Finalize takes effect exactly when its account's bytes compile, and sets the flag and nothing else. */
  lemma FinalizeCommitsExactly(env: Env, s: State, c: Call)
    requires env.Valid() && IsLegacy(env, c, Finalize)
    ensures Commits(env, s, c) <==>
            && ReachesProcessor(s.accounts, c) && LegacySigned(s.accounts, c)
            && env.load(At(s.accounts, c, 0).data).Ok?
    ensures Commits(env, s, c) ==>
              var post := Next(env, s, Submit(c)).accounts;
              && At(post, c, 0) == At(s.accounts, c, 0).(executable := true)
              && OnlyChanged(s.accounts, post, {c.slots[0].key})
  {
    if 1 <= |c.slots| {
      var a := At(s.accounts, c, 0);
      assert a.data[0..] == a.data;
      if LegacyGuard(env, s.accounts, c) == None {
        LegacyAccepted(c.programId, s.accounts, c.slots[0].key, a.(executable := true));
      }
    }
  }

  /** What a committed Finalize has made of its account. */
  lemma FinalizedNow(env: Env, s: State, c: Call)
    requires env.Valid() && Inv(env, s.accounts) && CacheSound(env, s)
    requires IsLegacy(env, c, Finalize) && Commits(env, s, c)
    ensures 1 <= |c.slots| && env.load(At(s.accounts, c, 0).data).Ok?
    ensures var t := Next(env, s, Submit(c));
            && Inv(env, t.accounts) && CacheSound(env, t)
            && LegacyProgram(env, At(t.accounts, c, 0))
            && At(t.accounts, c, 0) == At(s.accounts, c, 0).(executable := true)
  {
    FinalizeCommitsExactly(env, s, c);
    LoaderCallLaidOut(env, s, c);
    CacheNext(env, s, Submit(c));
    InvNext(env, s, Submit(c));
  }

  /** A laid-out call of a finalised program runs what its bytes compile to, whatever a sound cache holds. */
  lemma LegacyProgramRuns(env: Env, s: State, c: Call)
    requires env.Valid() && CacheSound(env, s) && LegacyProgram(env, Get(s.accounts, c.programId))
    requires env.load(Get(s.accounts, c.programId).data).Ok? && 1 <= |c.slots| && c.slots[0].key == c.programId
    ensures ReplyOf(Process(env, s.accounts, s.executors, c)) == Runs(env.load(Get(s.accounts, c.programId).data).value)
  {
    LaidOutLegacyReply(env, s.accounts, s.executors, c);
    if c.programId in s.executors {
      assert EntrySound(env, s.accounts, c.programId, s.executors[c.programId]);
    }
  }

  /**
   * After a committed Finalize of a funded account, over every later run, its bytes, owner and flag stay, and a
   * laid-out call of it runs what those bytes compiled to.
   */
  lemma FinalizedProgramRuns(env: Env, s: State, c: Call, steps: seq<Step>, call: Call)
    requires env.Valid() && Inv(env, s.accounts) && CacheSound(env, s)
    requires IsLegacy(env, c, Finalize) && Commits(env, s, c) && 0 < At(s.accounts, c, 0).lamports
    requires RunLaidOut(env, Next(env, s, Submit(c)), steps)
    requires call.programId == c.slots[0].key && 1 <= |call.slots| && call.slots[0].key == call.programId
    ensures var now := Run(env, Next(env, s, Submit(c)), steps);
            var a, b := At(s.accounts, c, 0), Get(now.accounts, call.programId);
            && b == a.(executable := true, lamports := b.lamports) && a.lamports <= b.lamports
            && env.load(a.data).Ok?
            && ReplyOf(Process(env, now.accounts, now.executors, call)) == Runs(env.load(a.data).value)
  {
    var t := Next(env, s, Submit(c));
    FinalizedNow(env, s, c);
    FinalizedForever(env, t, steps, call.programId);
    CacheRun(env, t, steps);
    LegacyProgramRuns(env, Run(env, t, steps), call);
  }
}
