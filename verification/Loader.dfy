/**
 * What each loader instruction does, as functions of the store it starts from: a guard that gives the
 * first error, and the final store in closed form when there is none.
 */
module Loader {
  import opened Bytes
  import opened LoaderState
  import opened Runtime
  import I = Instructions

  function At(s: Store, c: Call, i: nat): Account
    requires i < |c.slots|
  {
    Get(s, c.slots[i].key)
  }

  function Payload(d: seq<u8>, offset: nat): seq<u8> {
    if |d| < offset then [] else d[offset..]
  }

  function Max(a: u64, b: u64): (m: u64)
    ensures a <= m && b <= m && (m == a || m == b)
  {
    if a < b then b else a
  }

  /** Addition of two u64 as the processor's release build does it. */
  function WrappingAdd(a: u64, b: u64): u64 {
    if a + b < TWO_64 then a + b else a + b - TWO_64
  }

  /** Every authority check of the loader: present, the recorded one, and signing. */
  function AuthorityGuard(recorded: Option<Key>, given: KeyedAccount): Option<Error> {
    if recorded == None then Some(Immutable)
    else if recorded != Some(given.key) then Some(IncorrectAuthority)
    else if !given.isSigner then Some(MissingRequiredSignature)
    else None
  }

  /** The buffer checks that Deploy and Upgrade share. */
  function SourceBufferGuard(buffer: Account, authority: KeyedAccount): Option<Error> {
    match Decode(buffer.data)
    case None => Some(InvalidAccountData)
    case Some(Buffer(a)) =>
      if a != Some(authority.key) then Some(IncorrectAuthority)
      else if !authority.isSigner then Some(MissingRequiredSignature)
      else None
    case Some(_) => Some(InvalidArgument)
  }

  /** Slots up to 4 and 5 hold the rent and clock sysvars, and there are at least `count` slots. */
  function SysvarGuard(env: Env, c: Call, count: nat): Option<Error> {
    if |c.slots| < 5 then Some(NotEnoughAccountKeys)
    else if c.slots[4].key != env.rentSysvar then Some(InvalidArgument)
    else if |c.slots| < 6 then Some(NotEnoughAccountKeys)
    else if c.slots[5].key != env.clockSysvar then Some(InvalidArgument)
    else if |c.slots| < count then Some(NotEnoughAccountKeys)
    else None
  }

  /** The compiler's verdict on an account's bytes from `offset` on; slicing past the end panics. */
  function CreateExecutor(env: Env, data: seq<u8>, offset: nat): Result<Executor> {
    if |data| < offset then Err(Panicked) else
    match env.load(data[offset..])
    case Ok(code) => Ok(Executor(data[offset..], code))
    case Err(e) => Err(e)
  }

  /** ProgramData bytes: header, the buffer's payload, zeros up to the account's length. */
  function ProgramImage(slot: u64, authority: Key, buffer: seq<u8>, len: nat): (d: seq<u8>)
    requires BUFFER_OFFSET <= |buffer| && PROGRAMDATA_OFFSET + |buffer| - BUFFER_OFFSET <= len
    ensures |d| == len
  {
    HeaderSizes(ProgramData(slot, Some(authority)));
    Encode(ProgramData(slot, Some(authority))) + buffer[BUFFER_OFFSET..]
    + Zeros(len - PROGRAMDATA_OFFSET - (|buffer| - BUFFER_OFFSET))
  }

  // ---------- InitializeBuffer ----------

  function InitializeBufferGuard(s: Store, c: Call): (e: Option<Error>)
    ensures e == None ==> 2 <= |c.slots|
    ensures e == None ==> SetState(At(s, c, 0).data, Buffer(Some(c.slots[1].key))).Some?
  {
    if |c.slots| < 1 then Some(NotEnoughAccountKeys) else
    match Decode(At(s, c, 0).data)
    case None => Some(InvalidAccountData)
    case Some(st) =>
      if !st.Uninitialized? then Some(AccountAlreadyInitialized)
      else if |c.slots| < 2 then Some(NotEnoughAccountKeys)
      else if SetState(At(s, c, 0).data, Buffer(Some(c.slots[1].key))).None? then Some(AccountDataTooSmall)
      else None
  }

  function InitializeBufferEffect(s: Store, c: Call): Store
    requires InitializeBufferGuard(s, c) == None
  {
    var a := At(s, c, 0);
    s[c.slots[0].key := a.(data := SetState(a.data, Buffer(Some(c.slots[1].key))).value)]
  }

  // ---------- Write ----------

  function WriteGuard(s: Store, c: Call, offset: u32, bytes: seq<u8>): (e: Option<Error>)
    ensures e == None ==> 2 <= |c.slots| && BUFFER_OFFSET + offset + |bytes| <= |At(s, c, 0).data|
  {
    if |c.slots| < 2 then Some(NotEnoughAccountKeys) else
    match Decode(At(s, c, 0).data)
    case Some(Buffer(a)) =>
      (match AuthorityGuard(a, c.slots[1])
       case Some(e) => Some(e)
       case None =>
         if |At(s, c, 0).data| < BUFFER_OFFSET + offset + |bytes| then Some(AccountDataTooSmall) else None)
    case _ => Some(InvalidAccountData)
  }

  function WriteEffect(s: Store, c: Call, offset: u32, bytes: seq<u8>): Store
    requires WriteGuard(s, c, offset, bytes) == None
  {
    var a := At(s, c, 0);
    s[c.slots[0].key := a.(data := Splice(a.data, BUFFER_OFFSET + offset, bytes))]
  }

  // ---------- DeployWithMaxDataLen ----------

  function DeployProgramGuard(env: Env, program: Account): (e: Option<Error>)
    ensures e == None ==> Decode(program.data) == Some(Uninitialized) && PROGRAM_SIZE <= |program.data|
  {
    match Decode(program.data)
    case None => Some(InvalidAccountData)
    case Some(st) =>
      if !st.Uninitialized? then Some(AccountAlreadyInitialized)
      else if |program.data| < PROGRAM_SIZE then Some(AccountDataTooSmall)
      else if program.lamports < env.rent(|program.data|) then Some(ExecutableAccountNotRentExempt)
      else None
  }

  function DeploySizeGuard(buffer: Account, maxDataLen: u64): (e: Option<Error>)
    ensures e == None ==> BUFFER_OFFSET < |buffer.data| <= BUFFER_OFFSET + maxDataLen
    ensures e == None ==> PROGRAMDATA_OFFSET + maxDataLen <= MAX_PERMITTED_DATA_LENGTH
  {
    if |buffer.data| <= BUFFER_OFFSET then Some(InvalidAccountData)
    else if maxDataLen < |buffer.data| - BUFFER_OFFSET then Some(AccountDataTooSmall)
    else if MAX_PERMITTED_DATA_LENGTH < PROGRAMDATA_OFFSET + maxDataLen then Some(InvalidArgument)
    else None
  }

  function ProgramDataCost(env: Env, maxDataLen: u64): u64 {
    Max(1, env.rent(PROGRAMDATA_OFFSET + maxDataLen))
  }

  /** Moving `from`'s lamports to `to`: refused when they are one account or the sum does not fit. */
  function DrainGuard(s: Store, from: Key, to: Key): Option<Error> {
    if from == to then Some(AccountBorrowFailed)
    else if TWO_64 <= Get(s, from).lamports + Get(s, to).lamports then Some(ArithmeticOverflow)
    else None
  }

  function Drained(s: Store, from: Key, to: Key): Store
    requires DrainGuard(s, from, to) == None
  {
    s[to := Get(s, to).(lamports := Get(s, to).lamports + Get(s, from).lamports)]
     [from := Get(s, from).(lamports := 0)]
  }

  /** The checks that come before any lamports move. */
  function DeployCheck(env: Env, s: Store, c: Call, maxDataLen: u64): (e: Option<Error>)
    ensures e == None ==> 8 <= |c.slots|
  {
    match SysvarGuard(env, c, 8)
    case Some(e) => Some(e)
    case None =>
    match DeployProgramGuard(env, At(s, c, 2))
    case Some(e) => Some(e)
    case None =>
    match SourceBufferGuard(At(s, c, 3), c.slots[7])
    case Some(e) => Some(e)
    case None =>
    match DeploySizeGuard(At(s, c, 3), maxDataLen)
    case Some(e) => Some(e)
    case None =>
      match env.findProgramAddress(c.slots[2].key)
      case None => Some(Panicked)
      case Some(derived) => if derived != c.slots[1].key then Some(InvalidArgument) else None
  }

  function DeployCreation(env: Env, s: Store, c: Call, maxDataLen: u64): Result<Store>
    requires 8 <= |c.slots|
  {
    CreateAccount(s, c.slots[0], c.slots[1].key, ProgramDataCost(env, maxDataLen),
                  PROGRAMDATA_OFFSET + maxDataLen, c.programId)
  }

  /** Paying for the ProgramData account and loading the program, in the order the feature flag asks for. */
  function DeployFundingGuard(env: Env, s: Store, c: Call, maxDataLen: u64): Option<Error>
    requires 8 <= |c.slots|
  {
    var payer, buffer := c.slots[0].key, c.slots[3].key;
    if c.predrain then
      match DrainGuard(s, buffer, payer)
      case Some(e) => Some(e)
      case None =>
      match DeployCreation(env, Drained(s, buffer, payer), c, maxDataLen)
      case Err(e) => Some(e)
      case Ok(_) =>
      match CreateExecutor(env, At(s, c, 3).data, BUFFER_OFFSET)
      case Err(e) => Some(e)
      case Ok(_) => None
    else
      match DeployCreation(env, s, c, maxDataLen)
      case Err(e) => Some(e)
      case Ok(created) =>
      match CreateExecutor(env, At(s, c, 3).data, BUFFER_OFFSET)
      case Err(e) => Some(e)
      case Ok(_) => DrainGuard(created, buffer, payer)
  }

  function DeployGuard(env: Env, s: Store, c: Call, maxDataLen: u64): (e: Option<Error>)
    ensures e == None ==> 8 <= |c.slots|
  {
    match DeployCheck(env, s, c, maxDataLen)
    case Some(e) => Some(e)
    case None => DeployFundingGuard(env, s, c, maxDataLen)
  }

  /** A new ProgramData account: its header, the buffer's payload, zeros up to the maximum length. */
  function NewProgramData(env: Env, s: Store, c: Call, maxDataLen: u64): (a: Account)
    requires DeployCheck(env, s, c, maxDataLen) == None
    ensures |a.data| == PROGRAMDATA_OFFSET + maxDataLen
  {
    Account(ProgramDataCost(env, maxDataLen), c.programId, false,
            ProgramImage(c.clock, c.slots[7].key, At(s, c, 3).data, PROGRAMDATA_OFFSET + maxDataLen))
  }

  function DeployEffect(env: Env, s: Store, c: Call, maxDataLen: u64): Store
    requires DeployGuard(env, s, c, maxDataLen) == None
  {
    var payer, buffer, program := At(s, c, 0), At(s, c, 3), At(s, c, 2);
    DeployFunds(env, s, c, maxDataLen);
    s[c.slots[0].key := payer.(lamports := payer.lamports + buffer.lamports - ProgramDataCost(env, maxDataLen))]
     [c.slots[3].key := buffer.(lamports := 0)]
     [c.slots[2].key := program.(data := SetState(program.data, Program(c.slots[1].key)).value, executable := true)]
     [c.slots[1].key := NewProgramData(env, s, c, maxDataLen)]
  }

  function DeployExecutor(env: Env, s: Store, c: Call, maxDataLen: u64): Executor
    requires DeployGuard(env, s, c, maxDataLen) == None
  {
    CreateExecutor(env, At(s, c, 3).data, BUFFER_OFFSET).value
  }

  /** In a Deploy that gets through, the four accounts it touches are four accounts and the money is there. */
  lemma DeployFunds(env: Env, s: Store, c: Call, maxDataLen: u64)
    requires DeployGuard(env, s, c, maxDataLen) == None
    ensures c.slots[0].key != c.slots[1].key && c.slots[0].key != c.slots[2].key && c.slots[0].key != c.slots[3].key
    ensures c.slots[1].key != c.slots[2].key && c.slots[1].key != c.slots[3].key && c.slots[2].key != c.slots[3].key
    ensures c.slots[0].isSigner && At(s, c, 0).owner == SYSTEM_PROGRAM && At(s, c, 0).data == []
    ensures Unused(At(s, c, 1))
    ensures ProgramDataCost(env, maxDataLen) <= At(s, c, 0).lamports + At(s, c, 3).lamports
    ensures At(s, c, 0).lamports + At(s, c, 3).lamports - ProgramDataCost(env, maxDataLen) < TWO_64
    ensures SetState(At(s, c, 2).data, Program(c.slots[1].key)).Some?
    ensures SourceBufferGuard(At(s, c, 3), c.slots[7]) == None
  {
    HeaderSizes(Program(c.slots[1].key));
  }

  // ---------- Upgrade ----------

  function UpgradeProgramGuard(c: Call, program: Account): Option<Error>
    requires 7 <= |c.slots|
  {
    if !program.executable then Some(AccountNotExecutable)
    else if !c.slots[1].isWritable then Some(InvalidArgument)
    else if program.owner != c.programId then Some(IncorrectProgramId)
    else
      match Decode(program.data)
      case None => Some(InvalidAccountData)
      case Some(Program(pd)) => if pd != c.slots[0].key then Some(InvalidArgument) else None
      case Some(_) => Some(InvalidAccountData)
  }

  function RequiredBalance(env: Env, programdata: Account): u64 {
    Max(1, env.rent(|programdata.data|))
  }

  /** Size, balance (a u64 sum, wrapping) and authority of the account to be upgraded. */
  function UpgradeTargetGuard(env: Env, programdata: Account, buffer: Account,
                              authority: KeyedAccount): (e: Option<Error>)
    ensures e == None ==>
              && BUFFER_OFFSET < |buffer.data|
              && PROGRAMDATA_OFFSET + |buffer.data| - BUFFER_OFFSET <= |programdata.data|
  {
    if |buffer.data| <= BUFFER_OFFSET then Some(InvalidAccountData)
    else if |programdata.data| < PROGRAMDATA_OFFSET + |buffer.data| - BUFFER_OFFSET then Some(AccountDataTooSmall)
    else if WrappingAdd(programdata.lamports, buffer.lamports) < RequiredBalance(env, programdata) then
      Some(InsufficientFunds)
    else
      match Decode(programdata.data)
      case None => Some(InvalidAccountData)
      case Some(ProgramData(_, a)) => AuthorityGuard(a, authority)
      case Some(_) => Some(InvalidAccountData)
  }

  function UpgradeCheck(env: Env, s: Store, c: Call): (e: Option<Error>)
    ensures e == None ==> 7 <= |c.slots|
  {
    match SysvarGuard(env, c, 7)
    case Some(e) => Some(e)
    case None =>
    match UpgradeProgramGuard(c, At(s, c, 1))
    case Some(e) => Some(e)
    case None =>
    match SourceBufferGuard(At(s, c, 2), c.slots[6])
    case Some(e) => Some(e)
    case None => UpgradeTargetGuard(env, At(s, c, 0), At(s, c, 2), c.slots[6])
  }

  /** What is left for the spill account; the u64 sum wraps, the subtraction saturates. */
  function SpillAmount(programdata: Account, buffer: Account, required: u64): u64 {
    var sum := WrappingAdd(programdata.lamports, buffer.lamports);
    if sum < required then 0 else sum - required
  }

  /** Refusals of the funding step: spill must be a third account and must be able to hold the rest. */
  function SpillGuard(s: Store, programdata: Key, buffer: Key, spill: Key, required: u64): Option<Error> {
    if spill == programdata || spill == buffer then Some(AccountBorrowFailed)
    else if TWO_64 <= Get(s, spill).lamports + SpillAmount(Get(s, programdata), Get(s, buffer), required) then
      Some(ArithmeticOverflow)
    else None
  }

  function UpgradeGuard(env: Env, s: Store, c: Call): (e: Option<Error>)
    ensures e == None ==> 7 <= |c.slots|
  {
    match UpgradeCheck(env, s, c)
    case Some(e) => Some(e)
    case None =>
    match CreateExecutor(env, At(s, c, 2).data, BUFFER_OFFSET)
    case Err(e) => Some(e)
    case Ok(_) =>
      SpillGuard(s, c.slots[0].key, c.slots[2].key, c.slots[3].key, RequiredBalance(env, At(s, c, 0)))
  }

  /** The upgraded ProgramData account: same length, new header, the buffer's payload, then zeros. */
  function UpgradedProgramData(env: Env, s: Store, c: Call): (a: Account)
    requires UpgradeCheck(env, s, c) == None
    ensures |a.data| == |At(s, c, 0).data|
  {
    var a := At(s, c, 0);
    a.(lamports := RequiredBalance(env, a),
       data := ProgramImage(c.clock, c.slots[6].key, At(s, c, 2).data, |a.data|))
  }

  /** `made` replaces ProgramData, the buffer is emptied, and spill gets what `made` does not need. */
  function FundedAndSpilled(s: Store, programdata: Key, buffer: Key, spill: Key, made: Account, required: u64): Store
    requires SpillGuard(s, programdata, buffer, spill, required) == None
  {
    s[programdata := made]
     [buffer := Get(s, buffer).(lamports := 0)]
     [spill := Get(s, spill).(lamports :=
        Get(s, spill).lamports + SpillAmount(Get(s, programdata), Get(s, buffer), required))]
  }

  function UpgradeEffect(env: Env, s: Store, c: Call): Store
    requires UpgradeGuard(env, s, c) == None
  {
    FundedAndSpilled(s, c.slots[0].key, c.slots[2].key, c.slots[3].key,
                     UpgradedProgramData(env, s, c), RequiredBalance(env, At(s, c, 0)))
  }

  function UpgradeExecutor(env: Env, s: Store, c: Call): Executor
    requires UpgradeGuard(env, s, c) == None
  {
    CreateExecutor(env, At(s, c, 2).data, BUFFER_OFFSET).value
  }

  // ---------- SetAuthority ----------

  function NewAuthority(c: Call): Option<Key> {
    if |c.slots| < 3 then None else Some(c.slots[2].key)
  }

  function SetAuthorityGuard(s: Store, c: Call): (e: Option<Error>)
    ensures e == None ==> 2 <= |c.slots|
  {
    if |c.slots| < 2 then Some(NotEnoughAccountKeys) else
    match Decode(At(s, c, 0).data)
    case None => Some(InvalidAccountData)
    case Some(Buffer(a)) =>
      if NewAuthority(c) == None then Some(IncorrectAuthority) else AuthorityGuard(a, c.slots[1])
    case Some(ProgramData(_, a)) => AuthorityGuard(a, c.slots[1])
    case Some(_) => Some(InvalidArgument)
  }

  /** The state SetAuthority writes: only the authority differs. */
  function WithAuthority(st: LoaderState, authority: Option<Key>): LoaderState {
    match st
    case Buffer(_) => Buffer(authority)
    case ProgramData(slot, _) => ProgramData(slot, authority)
    case _ => st
  }

  function SetAuthorityEffect(s: Store, c: Call): Store
    requires SetAuthorityGuard(s, c) == None
  {
    var a := At(s, c, 0);
    DecodedFits(a.data);
    s[c.slots[0].key := a.(data := SetState(a.data, WithAuthority(Decode(a.data).value, NewAuthority(c))).value)]
  }

  // ---------- Close ----------

  /** The closed account gives up its lamports and forgets its state; the bytes after the tag stay. */
  function Closed(s: Store, close: Key, recipient: Key): Store
    requires close != recipient && DrainGuard(s, close, recipient) == None && Decode(Get(s, close).data).Some?
  {
    var a, to := Get(s, close), Get(s, recipient);
    s[recipient := to.(lamports := to.lamports + a.lamports)]
     [close := a.(lamports := 0, data := SetState(a.data, Uninitialized).value)]
  }

  function CloseProgramDataGuard(s: Store, c: Call, authority: Option<Key>): (e: Option<Error>)
    requires 2 <= |c.slots|
    ensures e == None ==> 4 <= |c.slots| && AuthorityGuard(authority, c.slots[2]) == None
  {
    if |c.slots| < 4 then Some(NotEnoughAccountKeys)
    else if !c.slots[3].isWritable then Some(InvalidArgument)
    else if At(s, c, 3).owner != c.programId then Some(IncorrectProgramId)
    else
      match Decode(At(s, c, 3).data)
      case None => Some(InvalidAccountData)
      case Some(Program(pd)) =>
        if pd != c.slots[0].key then Some(InvalidArgument) else AuthorityGuard(authority, c.slots[2])
      case Some(_) => Some(InvalidArgument)
  }

  /** Who may close what, before any lamports move. */
  function CloseRefusal(s: Store, c: Call): (e: Option<Error>)
    requires 2 <= |c.slots|
    ensures e == None ==> Decode(At(s, c, 0).data).Some?
  {
    match Decode(At(s, c, 0).data)
    case None => Some(InvalidAccountData)
    case Some(Uninitialized) => None
    case Some(Buffer(a)) =>
      if |c.slots| < 3 then Some(NotEnoughAccountKeys) else AuthorityGuard(a, c.slots[2])
    case Some(ProgramData(_, a)) => CloseProgramDataGuard(s, c, a)
    case Some(Program(_)) => Some(InvalidArgument)
  }

  function CloseGuard(s: Store, c: Call): (e: Option<Error>)
    ensures e == None ==> 2 <= |c.slots| && DrainGuard(s, c.slots[0].key, c.slots[1].key) == None
  {
    if |c.slots| < 2 then Some(NotEnoughAccountKeys)
    else if c.slots[0].key == c.slots[1].key then Some(InvalidArgument)
    else
      match CloseRefusal(s, c)
      case Some(e) => Some(e)
      case None => DrainGuard(s, c.slots[0].key, c.slots[1].key)
  }

  function CloseEffect(s: Store, c: Call): Store
    requires CloseGuard(s, c) == None
  {
    Closed(s, c.slots[0].key, c.slots[1].key)
  }

  // ---------- the non-upgradeable loader ----------

  function LegacyGuard(env: Env, s: Store, c: Call): (e: Option<Error>)
    ensures e == None ==> 1 <= |c.slots| && env.legacyInstruction(c.data).Some?
    ensures e == None ==>
              match env.legacyInstruction(c.data).value
              case LegacyWrite(offset, bytes) => offset + |bytes| <= |At(s, c, 0).data|
              case Finalize => CreateExecutor(env, At(s, c, 0).data, 0).Ok?
  {
    if |c.slots| < 1 then Some(NotEnoughAccountKeys)
    else if At(s, c, 0).owner != c.programId then Some(IncorrectProgramId)
    else
      match env.legacyInstruction(c.data)
      case None => Some(InvalidInstructionData)
      case Some(ix) =>
        if !c.slots[0].isSigner then Some(MissingRequiredSignature)
        else
          match ix
          case LegacyWrite(offset, bytes) =>
            if |At(s, c, 0).data| < offset + |bytes| then Some(AccountDataTooSmall) else None
          case Finalize =>
            match CreateExecutor(env, At(s, c, 0).data, 0)
            case Err(e) => Some(e)
            case Ok(_) => None
  }

  function LegacyEffect(env: Env, s: Store, c: Call): Store
    requires LegacyGuard(env, s, c) == None
  {
    var a := At(s, c, 0);
    match env.legacyInstruction(c.data).value
    case LegacyWrite(offset, bytes) => s[c.slots[0].key := a.(data := Splice(a.data, offset, bytes))]
    case Finalize => s[c.slots[0].key := a.(executable := true)]
  }

  function LegacyExecutors(env: Env, s: Store, c: Call, executors: Cache): Cache
    requires LegacyGuard(env, s, c) == None
  {
    match env.legacyInstruction(c.data).value
    case LegacyWrite(_, _) => executors
    case Finalize => executors[c.slots[0].key := CreateExecutor(env, At(s, c, 0).data, 0).value]
  }

  // ---------- dispatch ----------

  /** A call ends by changing accounts and cache, by running a program's code, or with an error. */
  datatype Outcome =
    | Done(accounts: Store, executors: Cache)
    | Execute(code: nat, executors: Cache)
    | Fail(error: Error)

  function ProcessUpgradeable(env: Env, s: Store, executors: Cache, c: Call): Outcome {
    match I.DeserializeForProcessor(c.data)
    case None => Fail(InvalidInstructionData)
    case Some(InitializeBuffer) =>
      (match InitializeBufferGuard(s, c)
       case Some(e) => Fail(e)
       case None => Done(InitializeBufferEffect(s, c), executors))
    case Some(Write(offset, bytes)) =>
      (match WriteGuard(s, c, offset, bytes)
       case Some(e) => Fail(e)
       case None => Done(WriteEffect(s, c, offset, bytes), executors))
    case Some(DeployWithMaxDataLen(len)) =>
      (match DeployGuard(env, s, c, len)
       case Some(e) => Fail(e)
       case None => Done(DeployEffect(env, s, c, len), executors[c.slots[2].key := DeployExecutor(env, s, c, len)]))
    case Some(Upgrade) =>
      (match UpgradeGuard(env, s, c)
       case Some(e) => Fail(e)
       case None => Done(UpgradeEffect(env, s, c), executors[c.slots[1].key := UpgradeExecutor(env, s, c)]))
    case Some(SetAuthority) =>
      (match SetAuthorityGuard(s, c)
       case Some(e) => Fail(e)
       case None => Done(SetAuthorityEffect(s, c), executors))
    case Some(Close) =>
      (match CloseGuard(s, c)
       case Some(e) => Fail(e)
       case None => Done(CloseEffect(s, c), executors))
    case Some(_) => Fail(InvalidInstructionData)
  }

  function ProcessLegacy(env: Env, s: Store, executors: Cache, c: Call): Outcome {
    match LegacyGuard(env, s, c)
    case Some(e) => Fail(e)
    case None => Done(LegacyEffect(env, s, c), LegacyExecutors(env, s, c, executors))
  }

  /** Where the program of an executable program account lives in the first slot's data. */
  function InvokeOffset(env: Env, s: Store, c: Call, program: Account): Result<nat>
    requires 1 <= |c.slots|
  {
    if !env.IsLoader(program.owner) then Err(IncorrectProgramId)
    else if program.owner != env.upgradeable then Ok(0)
    else
      match Decode(program.data)
      case None => Err(InvalidAccountData)
      case Some(Program(pd)) =>
        if pd != c.slots[0].key then Err(InvalidArgument)
        else
          (match Decode(At(s, c, 0).data)
           case Some(ProgramData(_, _)) => Ok(PROGRAMDATA_OFFSET)
           case _ => Err(InvalidAccountData))
      case Some(_) => Err(InvalidAccountData)
  }

  function ProcessInvoke(env: Env, s: Store, executors: Cache, c: Call, program: Account): Outcome
    requires 1 <= |c.slots|
  {
    match InvokeOffset(env, s, c, program)
    case Err(e) => Fail(e)
    case Ok(offset) =>
      if c.programId in executors then Execute(executors[c.programId].code, executors)
      else
        match CreateExecutor(env, At(s, c, 0).data, offset)
        case Err(e) => Fail(e)
        case Ok(x) => Execute(x.code, executors[c.programId := x])
  }

  /** The slot that stands for the called program: the first, the second, or the first again when neither is named. */
  function ProgramSlot(s: Store, c: Call): Result<nat> {
    if |c.slots| < 1 then Err(NotEnoughAccountKeys)
    else if c.slots[0].key == c.programId then Ok(0)
    else if 2 <= |c.slots| && c.slots[1].key == c.programId then Ok(1)
    else if At(s, c, 0).executable then Err(IncorrectProgramId)
    else Ok(0)
  }

  function Process(env: Env, s: Store, executors: Cache, c: Call): Outcome {
    match ProgramSlot(s, c)
    case Err(e) => Fail(e)
    case Ok(i) =>
      var program := At(s, c, i);
      if program.executable then ProcessInvoke(env, s, executors, c, program)
      else if c.programId == env.upgradeable then ProcessUpgradeable(env, s, executors, c)
      else if c.programId == env.bpfLoader || c.programId == env.bpfLoaderDeprecated then
        ProcessLegacy(env, s, executors, c)
      else Fail(IncorrectProgramId)
  }
}
