/** What each error of the loader means: the exact condition under which a call is answered with it. */
module Refusals {
  import opened Bytes
  import opened LoaderState
  import opened Runtime
  import opened Loader
  import opened Chain
  import opened Transitions
  import I = Instructions

  /** The call reaches the upgradeable loader's instructions and is read as `ix`. */
  predicate Arrives(env: Env, s: Store, c: Call, ix: I.Instruction) {
    c.programId == env.upgradeable && ReachesProcessor(s, c) && I.DeserializeForProcessor(c.data) == Some(ix)
  }

  /** The call is answered with this error, whatever the cache holds. */
  predicate Refused(env: Env, s: Store, executors: Cache, c: Call, e: Error) {
    Process(env, s, executors, c) == Fail(e)
  }

  /** Data that holds no loader state: too short for one, or with an unknown tag. */
  predicate Unreadable(a: Account) {
    Decode(a.data) == None
  }

  lemma InitializeBufferRefusals(env: Env, s: Store, x: Cache, c: Call)
    requires Arrives(env, s, c, I.InitializeBuffer)
    ensures Refused(env, s, x, c, InvalidAccountData) <==> Unreadable(At(s, c, 0))
    ensures Refused(env, s, x, c, AccountAlreadyInitialized) <==>
            Decode(At(s, c, 0).data).Some? && Decode(At(s, c, 0).data) != Some(Uninitialized)
    ensures Refused(env, s, x, c, NotEnoughAccountKeys) <==>
            Decode(At(s, c, 0).data) == Some(Uninitialized) && |c.slots| < 2
    ensures Refused(env, s, x, c, AccountDataTooSmall) <==>
            Decode(At(s, c, 0).data) == Some(Uninitialized) && 2 <= |c.slots| && |At(s, c, 0).data| < 37
  {
    if 2 <= |c.slots| {
      HeaderSizes(Buffer(Some(c.slots[1].key)));
    }
  }

  lemma WriteRefusals(env: Env, s: Store, x: Cache, c: Call, offset: u32, bytes: I.Payload)
    requires Arrives(env, s, c, I.Write(offset, bytes))
    ensures Refused(env, s, x, c, NotEnoughAccountKeys) <==> |c.slots| < 2
    ensures 2 <= |c.slots| ==>
              match Decode(At(s, c, 0).data)
              case Some(Buffer(recorded)) =>
                && (Refused(env, s, x, c, Immutable) <==> recorded == None)
                && (Refused(env, s, x, c, IncorrectAuthority) <==> recorded.Some? && recorded.value != c.slots[1].key)
                && (Refused(env, s, x, c, MissingRequiredSignature) <==>
                    recorded == Some(c.slots[1].key) && !c.slots[1].isSigner)
                && (Refused(env, s, x, c, AccountDataTooSmall) <==>
                    && recorded == Some(c.slots[1].key) && c.slots[1].isSigner
                    && |At(s, c, 0).data| < 37 + offset + |bytes|)
              case _ => Refused(env, s, x, c, InvalidAccountData)
  {
  }

  lemma SetAuthorityRefusals(env: Env, s: Store, x: Cache, c: Call)
    requires Arrives(env, s, c, I.SetAuthority)
    ensures Refused(env, s, x, c, NotEnoughAccountKeys) <==> |c.slots| < 2
    ensures 2 <= |c.slots| && Unreadable(At(s, c, 0)) ==> Refused(env, s, x, c, InvalidAccountData)
    ensures 2 <= |c.slots| && Decode(At(s, c, 0).data).Some? ==>
              match Decode(At(s, c, 0).data).value
              case Buffer(recorded) =>
                && (Refused(env, s, x, c, IncorrectAuthority) <==>
                    |c.slots| < 3 || (recorded.Some? && recorded.value != c.slots[1].key))
                && (Refused(env, s, x, c, Immutable) <==> 3 <= |c.slots| && recorded == None)
                && (Refused(env, s, x, c, MissingRequiredSignature) <==>
                    3 <= |c.slots| && recorded == Some(c.slots[1].key) && !c.slots[1].isSigner)
              case ProgramData(_, recorded) =>
                && (Refused(env, s, x, c, IncorrectAuthority) <==> recorded.Some? && recorded.value != c.slots[1].key)
                && (Refused(env, s, x, c, Immutable) <==> recorded == None)
                && (Refused(env, s, x, c, MissingRequiredSignature) <==>
                    recorded == Some(c.slots[1].key) && !c.slots[1].isSigner)
              case _ => Refused(env, s, x, c, InvalidArgument)
  {
  }

  /** The authority a Close needs is in the third slot. */
  lemma CloseRefusals(env: Env, s: Store, x: Cache, c: Call)
    requires Arrives(env, s, c, I.Close) && 4 <= |c.slots|
    ensures c.slots[0].key == c.slots[1].key ==> Refused(env, s, x, c, InvalidArgument)
    ensures c.slots[0].key != c.slots[1].key && Unreadable(At(s, c, 0)) ==> Refused(env, s, x, c, InvalidAccountData)
    ensures c.slots[0].key != c.slots[1].key && Decode(At(s, c, 0).data).Some? ==>
              match Decode(At(s, c, 0).data).value
              case Program(_) => Refused(env, s, x, c, InvalidArgument)
              case Uninitialized =>
                (Refused(env, s, x, c, ArithmeticOverflow) <==>
                 TWO_64 <= At(s, c, 0).lamports + At(s, c, 1).lamports)
              case Buffer(recorded) =>
                && (Refused(env, s, x, c, Immutable) <==> recorded == None)
                && (Refused(env, s, x, c, IncorrectAuthority) <==> recorded.Some? && recorded.value != c.slots[2].key)
                && (Refused(env, s, x, c, MissingRequiredSignature) <==>
                    recorded == Some(c.slots[2].key) && !c.slots[2].isSigner)
              case ProgramData(_, recorded) =>
                && (!c.slots[3].isWritable ==> Refused(env, s, x, c, InvalidArgument))
                && (c.slots[3].isWritable && At(s, c, 3).owner != c.programId ==>
                      Refused(env, s, x, c, IncorrectProgramId))
                && (c.slots[3].isWritable && IsProgram(env, At(s, c, 3), c.slots[0].key) ==>
                      && (Refused(env, s, x, c, Immutable) <==> recorded == None)
                      && (Refused(env, s, x, c, IncorrectAuthority) <==>
                          recorded.Some? && recorded.value != c.slots[2].key)
                      && (Refused(env, s, x, c, MissingRequiredSignature) <==>
                          recorded == Some(c.slots[2].key) && !c.slots[2].isSigner))
  {
  }

  // ---------- the non-upgradeable loader ----------

  /** The call reaches the instructions of a non-upgradeable loader. */
  predicate ArrivesLegacy(env: Env, s: Store, c: Call) {
    && c.programId != env.upgradeable && (c.programId == env.bpfLoader || c.programId == env.bpfLoaderDeprecated)
    && ReachesProcessor(s, c)
  }

  lemma LegacyRefusals(env: Env, s: Store, x: Cache, c: Call)
    requires ArrivesLegacy(env, s, c)
    ensures At(s, c, 0).owner != c.programId ==> Refused(env, s, x, c, IncorrectProgramId)
    ensures At(s, c, 0).owner == c.programId && env.legacyInstruction(c.data) == None ==>
              Refused(env, s, x, c, InvalidInstructionData)
    ensures At(s, c, 0).owner == c.programId && env.legacyInstruction(c.data).Some? && !c.slots[0].isSigner ==>
              Refused(env, s, x, c, MissingRequiredSignature)
    ensures At(s, c, 0).owner == c.programId && c.slots[0].isSigner ==>
              match env.legacyInstruction(c.data)
              case Some(LegacyWrite(offset, bytes)) =>
                Refused(env, s, x, c, AccountDataTooSmall) <==> |At(s, c, 0).data| < offset + |bytes|
              case Some(Finalize) =>
                forall e: Error :: Refused(env, s, x, c, e) <==> env.load(At(s, c, 0).data) == Err(e)
              case None => true
  {
    var data := At(s, c, 0).data;
    assert data[0..] == data;
  }

  // ---------- the dispatcher ----------

  /** Neither of the first two slots is the called program. */
  predicate Unnamed(c: Call) {
    && 1 <= |c.slots| && c.slots[0].key != c.programId
    && (|c.slots| < 2 || c.slots[1].key != c.programId)
  }

  /** Answers before any instruction or program code: who is called, by which loader, through which ProgramData. */
  lemma DispatchRefusals(env: Env, s: Store, x: Cache, c: Call)
    ensures |c.slots| == 0 ==> Refused(env, s, x, c, NotEnoughAccountKeys)
    ensures Unnamed(c) && At(s, c, 0).executable ==> Refused(env, s, x, c, IncorrectProgramId)
    ensures ReachesProcessor(s, c) && !env.IsLoader(c.programId) ==> Refused(env, s, x, c, IncorrectProgramId)
    ensures ReachesProcessor(s, c) && c.programId == env.upgradeable ==>
              I.DeserializeForProcessor(c.data) == None ==> Refused(env, s, x, c, InvalidInstructionData)
  {
  }

  /** A call that names an executable account as its program, in the first or the second slot. */
  predicate Invokes(s: Store, c: Call) {
    && Get(s, c.programId).executable && 1 <= |c.slots|
    && (c.slots[0].key == c.programId || (2 <= |c.slots| && c.slots[1].key == c.programId))
  }

  lemma InvocationRefusals(env: Env, s: Store, x: Cache, c: Call)
    requires Invokes(s, c)
    ensures !env.IsLoader(Get(s, c.programId).owner) ==> Refused(env, s, x, c, IncorrectProgramId)
    ensures Get(s, c.programId).owner == env.upgradeable ==>
              match Decode(Get(s, c.programId).data)
              case Some(Program(pd)) =>
                && (pd != c.slots[0].key ==> Refused(env, s, x, c, InvalidArgument))
                && (pd == c.slots[0].key && !IsProgramDataState(At(s, c, 0)) ==>
                    Refused(env, s, x, c, InvalidAccountData))
              case _ => Refused(env, s, x, c, InvalidAccountData)
  {
  }

  /** The account decodes to ProgramData; a closed program's does not. */
  predicate IsProgramDataState(a: Account) {
    Decode(a.data).Some? && Decode(a.data).value.ProgramData?
  }
}
