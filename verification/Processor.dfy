/**
 * The loader itself: each instruction reads and changes the shared accounts step by step, as the
 * processor does, and is proved to have exactly the outcome given in module Loader.
 */
module Processor {
  import opened Bytes
  import opened LoaderState
  import opened Runtime
  import opened Loader
  import I = Instructions

  /** A step-by-step result and the guard it must agree with, error by error. */
  predicate Agrees<T>(r: Result<T>, guard: Option<Error>) {
    match guard
    case None => r.Ok?
    case Some(e) => r.Err? && r.error == e
  }

  function KeyedAccountAtIndex(slots: seq<KeyedAccount>, i: nat): Result<KeyedAccount> {
    if i < |slots| then Ok(slots[i]) else Err(NotEnoughAccountKeys)
  }

  /** What RecordProgram leaves: ProgramData's header, payload and zeros, and the executable Program account. */
  function WithRecord(s: Store, c: Call, maxDataLen: u64): Store
    requires 8 <= |c.slots| && PROGRAM_SIZE <= |At(s, c, 2).data|
    requires BUFFER_OFFSET <= |At(s, c, 3).data| <= BUFFER_OFFSET + maxDataLen
  {
    HeaderSizes(Program(c.slots[1].key));
    s[c.slots[1].key := At(s, c, 1).(data :=
        ProgramImage(c.clock, c.slots[7].key, At(s, c, 3).data, PROGRAMDATA_OFFSET + maxDataLen))]
     [c.slots[2].key := At(s, c, 2).(data :=
        SetState(At(s, c, 2).data, Program(c.slots[1].key)).value, executable := true)]
  }

  /** The store in which Deploy creates the ProgramData account. */
  function BeforeCreation(s: Store, c: Call): Store
    requires 8 <= |c.slots|
    requires c.predrain ==> DrainGuard(s, c.slots[3].key, c.slots[0].key) == None
  {
    if c.predrain then Drained(s, c.slots[3].key, c.slots[0].key) else s
  }

  /** A successful creation separates payer, ProgramData, Program and buffer. */
  lemma CreatedAccounts(env: Env, s: Store, c: Call, maxDataLen: u64, created: Store)
    requires DeployCheck(env, s, c, maxDataLen) == None
    requires c.predrain ==> DrainGuard(s, c.slots[3].key, c.slots[0].key) == None
    requires DeployCreation(env, BeforeCreation(s, c), c, maxDataLen) == Ok(created)
    ensures c.slots[0].key != c.slots[1].key && c.slots[0].key != c.slots[2].key && c.slots[0].key != c.slots[3].key
    ensures c.slots[1].key != c.slots[2].key && c.slots[1].key != c.slots[3].key && c.slots[2].key != c.slots[3].key
    ensures At(created, c, 1) == Account(Max(1, env.rent(PROGRAMDATA_OFFSET + maxDataLen)), c.programId, false,
                                         Zeros(PROGRAMDATA_OFFSET + maxDataLen))
    ensures At(created, c, 2) == At(s, c, 2)
    ensures At(created, c, 3).data == At(s, c, 3).data
  {
  }

  /** Recording the program changes no balance, so draining afterwards is refused exactly when it was before. */
  lemma RecordingKeepsBalances(env: Env, s: Store, c: Call, maxDataLen: u64, created: Store)
    requires DeployCheck(env, s, c, maxDataLen) == None
    requires c.predrain ==> DrainGuard(s, c.slots[3].key, c.slots[0].key) == None
    requires DeployCreation(env, BeforeCreation(s, c), c, maxDataLen) == Ok(created)
    ensures PROGRAM_SIZE <= |At(created, c, 2).data|
    ensures BUFFER_OFFSET <= |At(created, c, 3).data| <= BUFFER_OFFSET + maxDataLen
    ensures DrainGuard(WithRecord(created, c, maxDataLen), c.slots[3].key, c.slots[0].key) ==
            DrainGuard(created, c.slots[3].key, c.slots[0].key)
  {
    CreatedAccounts(env, s, c, maxDataLen, created);
  }

  /** Two stores that change the same four accounts of one store in the same way are one store. */
  lemma SameFour(s: Store, x: Store, y: Store, k0: Key, k1: Key, k2: Key, k3: Key)
    requires x.Keys == s.Keys + {k0, k1, k2, k3} == y.Keys
    requires x[k0] == y[k0] && x[k1] == y[k1] && x[k2] == y[k2] && x[k3] == y[k3]
    requires forall k :: k in s && k != k0 && k != k1 && k != k2 && k != k3 ==> x[k] == s[k] && y[k] == s[k]
    ensures x == y
  {
  }

  lemma EarlyDeployComposes(env: Env, s: Store, c: Call, maxDataLen: u64, created: Store)
    requires DeployGuard(env, s, c, maxDataLen) == None && c.predrain
    requires DrainGuard(s, c.slots[3].key, c.slots[0].key) == None
    requires DeployCreation(env, Drained(s, c.slots[3].key, c.slots[0].key), c, maxDataLen) == Ok(created)
    requires PROGRAM_SIZE <= |At(created, c, 2).data|
    requires BUFFER_OFFSET <= |At(created, c, 3).data| <= BUFFER_OFFSET + maxDataLen
    ensures DeployEffect(env, s, c, maxDataLen) == WithRecord(created, c, maxDataLen)
  {
    DeployFunds(env, s, c, maxDataLen);
    SameFour(s, WithRecord(created, c, maxDataLen), DeployEffect(env, s, c, maxDataLen),
             c.slots[0].key, c.slots[1].key, c.slots[2].key, c.slots[3].key);
  }

  lemma LateDeployComposes(env: Env, s: Store, c: Call, maxDataLen: u64, created: Store)
    requires DeployGuard(env, s, c, maxDataLen) == None && !c.predrain
    requires DeployCreation(env, s, c, maxDataLen) == Ok(created)
    requires PROGRAM_SIZE <= |At(created, c, 2).data|
    requires BUFFER_OFFSET <= |At(created, c, 3).data| <= BUFFER_OFFSET + maxDataLen
    requires DrainGuard(WithRecord(created, c, maxDataLen), c.slots[3].key, c.slots[0].key) == None
    ensures DeployEffect(env, s, c, maxDataLen) ==
            Drained(WithRecord(created, c, maxDataLen), c.slots[3].key, c.slots[0].key)
  {
    DeployFunds(env, s, c, maxDataLen);
    SameFour(s, Drained(WithRecord(created, c, maxDataLen), c.slots[3].key, c.slots[0].key),
             DeployEffect(env, s, c, maxDataLen),
             c.slots[0].key, c.slots[1].key, c.slots[2].key, c.slots[3].key);
  }

  /** Step by step or in closed form: Deploy leaves the same store. */
  lemma DeployComposes(env: Env, s: Store, c: Call, maxDataLen: u64, created: Store)
    requires DeployGuard(env, s, c, maxDataLen) == None
    requires c.predrain ==> DrainGuard(s, c.slots[3].key, c.slots[0].key) == None
    requires DeployCreation(env, BeforeCreation(s, c), c, maxDataLen) == Ok(created)
    requires !c.predrain ==> DrainGuard(created, c.slots[3].key, c.slots[0].key) == None
    requires PROGRAM_SIZE <= |At(created, c, 2).data|
    requires BUFFER_OFFSET <= |At(created, c, 3).data| <= BUFFER_OFFSET + maxDataLen
    requires DrainGuard(WithRecord(created, c, maxDataLen), c.slots[3].key, c.slots[0].key) ==
             DrainGuard(created, c.slots[3].key, c.slots[0].key)
    ensures DeployEffect(env, s, c, maxDataLen) ==
            if c.predrain then WithRecord(created, c, maxDataLen)
            else Drained(WithRecord(created, c, maxDataLen), c.slots[3].key, c.slots[0].key)
  {
    if c.predrain {
      EarlyDeployComposes(env, s, c, maxDataLen, created);
    } else {
      LateDeployComposes(env, s, c, maxDataLen, created);
    }
  }

  /** The funding step on its own: spill gets the rest, the buffer is emptied, ProgramData keeps what it needs. */
  function Spilled(s: Store, programdata: Key, buffer: Key, spill: Key, required: u64): Store
    requires SpillGuard(s, programdata, buffer, spill, required) == None
  {
    var rest := SpillAmount(Get(s, programdata), Get(s, buffer), required);
    var s1 := s[spill := Get(s, spill).(lamports := Get(s, spill).lamports + rest)];
    var s2 := s1[buffer := Get(s1, buffer).(lamports := 0)];
    s2[programdata := Get(s2, programdata).(lamports := required)]
  }

  lemma SpillClosedForm(s: Store, k0: Key, k2: Key, k3: Key, data: seq<u8>, required: u64)
    requires k0 != k2
    ensures SpillGuard(s[k0 := Get(s, k0).(data := data)], k0, k2, k3, required) == SpillGuard(s, k0, k2, k3, required)
    ensures SpillGuard(s, k0, k2, k3, required) == None ==>
              Spilled(s[k0 := Get(s, k0).(data := data)], k0, k2, k3, required) ==
              FundedAndSpilled(s, k0, k2, k3, Get(s, k0).(data := data, lamports := required), required)
  {
  }

  /** Recording first and funding afterwards has Upgrade's guard and Upgrade's final store. */
  lemma UpgradeComposes(env: Env, s: Store, c: Call)
    requires UpgradeCheck(env, s, c) == None && CreateExecutor(env, At(s, c, 2).data, BUFFER_OFFSET).Ok?
    requires c.slots[0].key != c.slots[2].key
    ensures var recorded := s[c.slots[0].key := At(s, c, 0).(data := UpgradedProgramData(env, s, c).data)];
            var required := Max(1, env.rent(|At(s, c, 0).data|));
            && SpillGuard(recorded, c.slots[0].key, c.slots[2].key, c.slots[3].key, required) == UpgradeGuard(env, s, c)
            && (UpgradeGuard(env, s, c) == None ==>
                  Spilled(recorded, c.slots[0].key, c.slots[2].key, c.slots[3].key, required) ==
                    UpgradeEffect(env, s, c))
  {
    var k0, k2, k3 := c.slots[0].key, c.slots[2].key, c.slots[3].key;
    var required := Max(1, env.rent(|At(s, c, 0).data|));
    var made := UpgradedProgramData(env, s, c);
    assert made == Get(s, k0).(data := made.data, lamports := required);
    SpillClosedForm(s, k0, k2, k3, made.data, required);
  }

  /** A buffer and a ProgramData account are never the same account. */
  lemma BufferIsNotProgramData(env: Env, s: Store, c: Call)
    requires UpgradeCheck(env, s, c) == None
    ensures c.slots[0].key != c.slots[2].key
  {
  }

  /** An uninitialised account already holds the bytes that closing would write. */
  lemma UninitializedRewrite(d: seq<u8>)
    requires Decode(d) == Some(Uninitialized)
    ensures SetState(d, Uninitialized) == Some(d)
  {
    DecodedFits(d);
    assert d == Splice(d, 0, Encode(Uninitialized));
  }

  /** Writing a header and then a payload right behind it leaves both, and the rest untouched. */
  lemma HeaderThenPayload(d: seq<u8>, header: seq<u8>, payload: seq<u8>)
    requires |header| + |payload| <= |d|
    ensures Splice(Splice(d, 0, header), |header|, payload) == header + payload + d[|header| + |payload|..]
  {
  }

  /** How a step-by-step run of a loader instruction shows the outcome it must have. */
  predicate Reports(o: Outcome, r: Result<()>, accounts: Store, executors: Cache) {
    match o
    case Done(s, x) => r.Ok? && accounts == s && executors == x
    case Fail(e) => r == Err(e)
    case Execute(_, _) => false
  }

  class InvokeContext {
    const env: Env
    var accounts: Store
    var executors: Cache
    /** The account whose mutable borrow is live, if any; reading or borrowing it again fails. */
    var borrowed: Option<Key>

    constructor (env: Env, accounts: Store, executors: Cache)
      ensures this.env == env && this.accounts == accounts && this.executors == executors && borrowed == None
    {
      this.env := env;
      this.accounts := accounts;
      this.executors := executors;
      borrowed := None;
    }

    // ---------- account access ----------

    function TryRef(k: Key): Result<Account>
      reads this`accounts, this`borrowed
    {
      if borrowed == Some(k) then Err(AccountBorrowFailed) else Ok(Get(accounts, k))
    }

    function StateOf(k: Key): Result<LoaderState>
      reads this`accounts, this`borrowed
    {
      var a :- TryRef(k);
      match Decode(a.data)
      case None => Err(InvalidAccountData)
      case Some(st) => Ok(st)
    }

    /** `try_account_ref_mut`: no borrow is live at any of its uses, so it succeeds. */
    method BorrowMut(k: Key) returns (a: Account)
      requires borrowed == None
      modifies this`borrowed
      ensures borrowed == Some(k) && a == Get(accounts, k)
    {
      a := Get(accounts, k);
      borrowed := Some(k);
    }

    /** Store the borrowed account back and end the borrow. */
    method Release(k: Key, a: Account)
      requires borrowed == Some(k)
      modifies this`accounts, this`borrowed
      ensures borrowed == None && accounts == old(accounts)[k := a]
    {
      accounts := accounts[k := a];
      borrowed := None;
    }

    method SetStateOf(k: Key, st: LoaderState) returns (r: Result<()>)
      requires borrowed == None
      modifies this`accounts, this`borrowed
      ensures Agrees(r, if SetState(Get(old(accounts), k).data, st).Some? then None else Some(AccountDataTooSmall))
      ensures r.Ok? ==> borrowed == None
      ensures r.Ok? ==>
                var a := Get(old(accounts), k);
                accounts == old(accounts)[k := a.(data := SetState(a.data, st).value)]
    {
      var a := BorrowMut(k);
      match SetState(a.data, st)
      case None =>
        return Err(AccountDataTooSmall);
      case Some(d) =>
        Release(k, a.(data := d));
        return Ok(());
    }

    method SetLamports(k: Key, lamports: u64)
      requires borrowed == None
      modifies this`accounts, this`borrowed
      ensures borrowed == None
      ensures accounts == old(accounts)[k := Get(old(accounts), k).(lamports := lamports)]
    {
      var a := BorrowMut(k);
      Release(k, a.(lamports := lamports));
    }

    method SetExecutable(k: Key)
      requires borrowed == None
      modifies this`accounts, this`borrowed
      ensures borrowed == None
      ensures accounts == old(accounts)[k := Get(old(accounts), k).(executable := true)]
    {
      var a := BorrowMut(k);
      Release(k, a.(executable := true));
    }

    /** Move everything `from` holds to `to`; `to` is mutably borrowed while `from` is read. */
    method Drain(from: Key, to: Key) returns (r: Result<()>)
      requires borrowed == None
      modifies this`accounts, this`borrowed
      ensures Agrees(r, DrainGuard(old(accounts), from, to))
      ensures r.Ok? ==> borrowed == None && accounts == Drained(old(accounts), from, to)
    {
      var target := BorrowMut(to);
      var source :- TryRef(from);
      if TWO_64 <= target.lamports + source.lamports {
        return Err(ArithmeticOverflow);
      }
      Release(to, target.(lamports := target.lamports + source.lamports));
      SetLamports(from, 0);
      return Ok(());
    }

    /** Copy bytes into an account, failing when they do not fit. */
    method WriteProgramData(k: Key, offset: nat, bytes: seq<u8>) returns (r: Result<()>)
      requires borrowed == None
      modifies this`accounts, this`borrowed
      ensures Agrees(r, if |Get(old(accounts), k).data| < offset + |bytes| then Some(AccountDataTooSmall) else None)
      ensures r.Ok? ==> borrowed == None
      ensures r.Ok? ==>
                var a := Get(old(accounts), k);
                accounts == old(accounts)[k := a.(data := Splice(a.data, offset, bytes))]
    {
      var a := BorrowMut(k);
      if |a.data| < offset + |bytes| {
        return Err(AccountDataTooSmall);
      }
      Release(k, a.(data := Splice(a.data, offset, bytes)));
      return Ok(());
    }

    /** Copy one account's bytes from `from` on into another's, which is borrowed while the first is read. */
    method CopyPayload(source: Key, from: nat, target: Key, to: nat)
      requires borrowed == None && source != target
      requires from <= |Get(accounts, source).data|
      requires to + |Get(accounts, source).data| - from <= |Get(accounts, target).data|
      modifies this`accounts, this`borrowed
      ensures borrowed == None
      ensures accounts == old(accounts)[target := Get(old(accounts), target).(data :=
                            Splice(Get(old(accounts), target).data, to, Get(old(accounts), source).data[from..]))]
    {
      var b := BorrowMut(target);
      var a := TryRef(source).Extract();
      Release(target, b.(data := Splice(b.data, to, a.data[from..])));
    }

    method FillZero(k: Key, from: nat)
      requires borrowed == None && from <= |Get(accounts, k).data|
      modifies this`accounts, this`borrowed
      ensures borrowed == None
      ensures accounts == old(accounts)[k := Get(old(accounts), k).(data :=
                            Splice(Get(old(accounts), k).data, from, Zeros(|Get(old(accounts), k).data| - from)))]
    {
      var a := BorrowMut(k);
      Release(k, a.(data := Splice(a.data, from, Zeros(|a.data| - from))));
    }

    // ---------- the six instructions of the upgradeable loader ----------

    method InitializeBuffer(c: Call) returns (r: Result<()>)
      requires borrowed == None
      modifies this`accounts, this`borrowed
      ensures Agrees(r, InitializeBufferGuard(old(accounts), c))
      ensures r.Ok? ==> borrowed == None && accounts == InitializeBufferEffect(old(accounts), c)
    {
      var buffer :- KeyedAccountAtIndex(c.slots, 0);
      var st :- StateOf(buffer.key);
      if st != Uninitialized {
        return Err(AccountAlreadyInitialized);
      }
      var authority :- KeyedAccountAtIndex(c.slots, 1);
      r := SetStateOf(buffer.key, Buffer(Some(authority.key)));
    }

    method CheckAuthority(recorded: Option<Key>, given: KeyedAccount) returns (r: Result<()>)
      ensures Agrees(r, AuthorityGuard(recorded, given))
    {
      if recorded == None {
        return Err(Immutable);
      }
      if recorded != Some(given.key) {
        return Err(IncorrectAuthority);
      }
      if !given.isSigner {
        return Err(MissingRequiredSignature);
      }
      return Ok(());
    }

    method Write(c: Call, offset: u32, bytes: seq<u8>) returns (r: Result<()>)
      requires borrowed == None
      modifies this`accounts, this`borrowed
      ensures Agrees(r, WriteGuard(old(accounts), c, offset, bytes))
      ensures r.Ok? ==> borrowed == None && accounts == WriteEffect(old(accounts), c, offset, bytes)
    {
      var buffer :- KeyedAccountAtIndex(c.slots, 0);
      var authority :- KeyedAccountAtIndex(c.slots, 1);
      var st :- StateOf(buffer.key);
      match st {
        case Buffer(recorded) =>
          var _ :- CheckAuthority(recorded, authority);
        case _ =>
          return Err(InvalidAccountData);
      }
      r := WriteProgramData(buffer.key, BUFFER_OFFSET + offset, bytes);
    }

    method VerifySourceBuffer(buffer: KeyedAccount, authority: KeyedAccount) returns (r: Result<()>)
      requires borrowed == None
      ensures Agrees(r, SourceBufferGuard(Get(accounts, buffer.key), authority))
    {
      var st :- StateOf(buffer.key);
      match st
      case Buffer(recorded) =>
        if recorded != Some(authority.key) {
          return Err(IncorrectAuthority);
        }
        if !authority.isSigner {
          return Err(MissingRequiredSignature);
        }
        return Ok(());
      case _ =>
        return Err(InvalidArgument);
    }

    method ReadSysvars(c: Call) returns (r: Result<()>)
      ensures Agrees(r, SysvarGuard(env, c, 6))
    {
      var rent :- KeyedAccountAtIndex(c.slots, 4);
      if rent.key != env.rentSysvar {
        return Err(InvalidArgument);
      }
      var clock :- KeyedAccountAtIndex(c.slots, 5);
      if clock.key != env.clockSysvar {
        return Err(InvalidArgument);
      }
      return Ok(());
    }

    /** Everything Deploy verifies before lamports move. */
    method VerifyDeploy(c: Call, maxDataLen: u64) returns (r: Result<()>)
      requires borrowed == None
      ensures Agrees(r, DeployCheck(env, accounts, c, maxDataLen))
    {
      var _ :- KeyedAccountAtIndex(c.slots, 0);
      var programdata :- KeyedAccountAtIndex(c.slots, 1);
      var program :- KeyedAccountAtIndex(c.slots, 2);
      var buffer :- KeyedAccountAtIndex(c.slots, 3);
      var _ :- ReadSysvars(c);
      var authority :- KeyedAccountAtIndex(c.slots, 7);

      // Verify Program account
      var st :- StateOf(program.key);
      if st != Uninitialized {
        return Err(AccountAlreadyInitialized);
      }
      var programAccount := Get(accounts, program.key);
      if |programAccount.data| < PROGRAM_SIZE {
        return Err(AccountDataTooSmall);
      }
      if programAccount.lamports < env.rent(|programAccount.data|) {
        return Err(ExecutableAccountNotRentExempt);
      }

      // Verify Buffer account
      var _ :- VerifySourceBuffer(buffer, authority);
      var bufferLen := |Get(accounts, buffer.key).data|;
      var bufferDataLen := if bufferLen < BUFFER_OFFSET then 0 else bufferLen - BUFFER_OFFSET;
      if bufferLen < BUFFER_OFFSET || bufferDataLen == 0 {
        return Err(InvalidAccountData);
      }
      if maxDataLen < bufferDataLen {
        return Err(AccountDataTooSmall);
      }
      if PROGRAMDATA_OFFSET + maxDataLen > MAX_PERMITTED_DATA_LENGTH {
        return Err(InvalidArgument);
      }

      match env.findProgramAddress(program.key) {
        case None =>
          return Err(Panicked);
        case Some(derived) =>
          if derived != programdata.key {
            return Err(InvalidArgument);
          }
      }
      return Ok(());
    }

    /** Pay for and create the ProgramData account, then load the buffer's program. */
    method FundAndLoad(c: Call, maxDataLen: u64) returns (r: Result<Executor>)
      requires borrowed == None && DeployCheck(env, accounts, c, maxDataLen) == None
      modifies this`accounts, this`borrowed
      ensures r.Ok? ==> borrowed == None
      ensures r.Ok? && c.predrain ==>
                && DrainGuard(old(accounts), c.slots[3].key, c.slots[0].key) == None
                && DeployCreation(env, Drained(old(accounts), c.slots[3].key, c.slots[0].key), c, maxDataLen) ==
                   Ok(accounts)
      ensures r.Ok? && !c.predrain ==> DeployCreation(env, old(accounts), c, maxDataLen) == Ok(accounts)
      ensures r.Ok? ==> CreateExecutor(env, At(old(accounts), c, 3).data, BUFFER_OFFSET) == r
      ensures r.Ok? ==> (DeployFundingGuard(env, old(accounts), c, maxDataLen) ==
                         if c.predrain then None else DrainGuard(accounts, c.slots[3].key, c.slots[0].key))
      ensures r.Err? ==> DeployFundingGuard(env, old(accounts), c, maxDataLen) == Some(r.error)
    {
      if c.predrain {
        var _ :- Drain(c.slots[3].key, c.slots[0].key);
      }
      accounts :- CreateAccount(accounts, c.slots[0], c.slots[1].key,
                                Max(1, env.rent(PROGRAMDATA_OFFSET + maxDataLen)),
                                PROGRAMDATA_OFFSET + maxDataLen, c.programId);
      r := CreateExecutor(env, Get(accounts, c.slots[3].key).data, BUFFER_OFFSET);
    }

    /** Set the ProgramData state and copy the buffer's payload behind it. */
    method RecordPayload(programdata: Key, buffer: Key, slot: u64, authority: Key)
      requires borrowed == None && programdata != buffer
      requires BUFFER_OFFSET <= |Get(accounts, buffer).data|
      requires PROGRAMDATA_OFFSET + |Get(accounts, buffer).data| - BUFFER_OFFSET <= |Get(accounts, programdata).data|
      modifies this`accounts, this`borrowed
      ensures borrowed == None
      ensures var a, b := Get(old(accounts), programdata), Get(old(accounts), buffer);
              accounts == old(accounts)[programdata := a.(data :=
                Encode(ProgramData(slot, Some(authority))) + b.data[BUFFER_OFFSET..]
                + a.data[PROGRAMDATA_OFFSET + |b.data| - BUFFER_OFFSET..])]
    {
      HeaderSizes(ProgramData(slot, Some(authority)));
      ghost var a, b := Get(accounts, programdata), Get(accounts, buffer);
      var recorded := SetStateOf(programdata, ProgramData(slot, Some(authority)));
      assert recorded.Ok?;
      CopyPayload(buffer, BUFFER_OFFSET, programdata, PROGRAMDATA_OFFSET);
      HeaderThenPayload(a.data, Encode(ProgramData(slot, Some(authority))), b.data[BUFFER_OFFSET..]);
    }

    /** Write the ProgramData header and payload, then turn the Program account executable. */
    method RecordProgram(c: Call, maxDataLen: u64)
      requires borrowed == None && 8 <= |c.slots|
      requires c.slots[1].key != c.slots[2].key && c.slots[1].key != c.slots[3].key && c.slots[2].key != c.slots[3].key
      requires At(accounts, c, 1).data == Zeros(PROGRAMDATA_OFFSET + maxDataLen)
      requires BUFFER_OFFSET <= |At(accounts, c, 3).data| <= BUFFER_OFFSET + maxDataLen
      requires PROGRAM_SIZE <= |At(accounts, c, 2).data|
      modifies this`accounts, this`borrowed
      ensures borrowed == None
      ensures accounts == WithRecord(old(accounts), c, maxDataLen)
    {
      var programdata, program, buffer := c.slots[1].key, c.slots[2].key, c.slots[3].key;
      RecordPayload(programdata, buffer, c.clock, c.slots[7].key);
      assert Get(accounts, programdata).data ==
             ProgramImage(c.clock, c.slots[7].key, Get(accounts, buffer).data, PROGRAMDATA_OFFSET + maxDataLen);
      HeaderSizes(Program(programdata));
      var recorded := SetStateOf(program, Program(programdata));
      assert recorded.Ok?;
      SetExecutable(program);
    }

    method DeployWithMaxDataLen(c: Call, maxDataLen: u64) returns (r: Result<()>)
      requires borrowed == None
      modifies this
      ensures Agrees(r, DeployGuard(env, old(accounts), c, maxDataLen))
      ensures r.Ok? ==> borrowed == None && accounts == DeployEffect(env, old(accounts), c, maxDataLen)
      ensures r.Ok? ==> executors == old(executors)[c.slots[2].key := DeployExecutor(env, old(accounts), c, maxDataLen)]
    {
      var _ :- VerifyDeploy(c, maxDataLen);
      var executor :- FundAndLoad(c, maxDataLen);
      executors := executors[c.slots[2].key := executor];
      ghost var created := accounts;
      CreatedAccounts(env, old(accounts), c, maxDataLen, created);
      RecordingKeepsBalances(env, old(accounts), c, maxDataLen, created);
      RecordProgram(c, maxDataLen);
      if !c.predrain {
        var _ :- Drain(c.slots[3].key, c.slots[0].key);
      }
      DeployComposes(env, old(accounts), c, maxDataLen, created);
      return Ok(());
    }

    /** Everything Upgrade verifies before it loads the new program. */
    method VerifyUpgrade(c: Call) returns (r: Result<()>)
      requires borrowed == None
      ensures Agrees(r, UpgradeCheck(env, accounts, c))
    {
      var programdata :- KeyedAccountAtIndex(c.slots, 0);
      var program :- KeyedAccountAtIndex(c.slots, 1);
      var buffer :- KeyedAccountAtIndex(c.slots, 2);
      var _ :- ReadSysvars(c);
      var authority :- KeyedAccountAtIndex(c.slots, 6);

      var _ :- VerifyUpgradeProgram(c, program, programdata.key);
      var _ :- VerifySourceBuffer(buffer, authority);
      r := VerifyUpgradeTarget(programdata.key, buffer.key, authority);
    }

    method VerifyUpgradeProgram(c: Call, program: KeyedAccount, programdata: Key) returns (r: Result<()>)
      requires borrowed == None && 7 <= |c.slots| && program == c.slots[1] && programdata == c.slots[0].key
      ensures Agrees(r, UpgradeProgramGuard(c, Get(accounts, program.key)))
    {
      if !Get(accounts, program.key).executable {
        return Err(AccountNotExecutable);
      }
      if !program.isWritable {
        return Err(InvalidArgument);
      }
      if Get(accounts, program.key).owner != c.programId {
        return Err(IncorrectProgramId);
      }
      var st :- StateOf(program.key);
      match st {
        case Program(pd) =>
          if pd != programdata {
            return Err(InvalidArgument);
          }
          return Ok(());
        case _ =>
          return Err(InvalidAccountData);
      }
    }

    /** Buffer size, then ProgramData's size, balance and authority. */
    method VerifyUpgradeTarget(programdata: Key, buffer: Key, authority: KeyedAccount) returns (r: Result<()>)
      requires borrowed == None
      ensures Agrees(r, UpgradeTargetGuard(env, Get(accounts, programdata), Get(accounts, buffer), authority))
    {
      var bufferLen := |Get(accounts, buffer).data|;
      var bufferDataLen := if bufferLen < BUFFER_OFFSET then 0 else bufferLen - BUFFER_OFFSET;
      var balanceRequired := Max(1, env.rent(|Get(accounts, programdata).data|));
      if bufferLen < BUFFER_OFFSET || bufferDataLen == 0 {
        return Err(InvalidAccountData);
      }
      if |Get(accounts, programdata).data| < PROGRAMDATA_OFFSET + bufferDataLen {
        return Err(AccountDataTooSmall);
      }
      if WrappingAdd(Get(accounts, programdata).lamports, Get(accounts, buffer).lamports) < balanceRequired {
        return Err(InsufficientFunds);
      }
      var st :- StateOf(programdata);
      match st {
        case ProgramData(_, recorded) =>
          r := CheckAuthority(recorded, authority);
        case _ =>
          return Err(InvalidAccountData);
      }
    }

    /** Record the upgraded data and zero the rest. */
    method RecordUpgrade(programdata: Key, buffer: Key, slot: u64, authority: Key)
      requires borrowed == None && programdata != buffer
      requires BUFFER_OFFSET <= |Get(accounts, buffer).data|
      requires PROGRAMDATA_OFFSET + |Get(accounts, buffer).data| - BUFFER_OFFSET <= |Get(accounts, programdata).data|
      modifies this`accounts, this`borrowed
      ensures borrowed == None
      ensures var a, b := Get(old(accounts), programdata), Get(old(accounts), buffer);
              accounts == old(accounts)[programdata := a.(data := ProgramImage(slot, authority, b.data, |a.data|))]
    {
      var bufferDataLen := |Get(accounts, buffer).data| - BUFFER_OFFSET;
      RecordPayload(programdata, buffer, slot, authority);
      HeaderSizes(ProgramData(slot, Some(authority)));
      FillZero(programdata, PROGRAMDATA_OFFSET + bufferDataLen);
      assert Get(accounts, programdata).data ==
             ProgramImage(slot, authority, Get(old(accounts), buffer).data, |Get(old(accounts), programdata).data|);
    }

    /** Fund ProgramData to rent exemption and spill the rest; spill is borrowed while both are read. */
    method FundAndSpill(programdata: Key, buffer: Key, spill: Key, balanceRequired: u64) returns (r: Result<()>)
      requires borrowed == None
      modifies this`accounts, this`borrowed
      ensures Agrees(r, SpillGuard(old(accounts), programdata, buffer, spill, balanceRequired))
      ensures r.Ok? ==>
                && borrowed == None
                && accounts == Spilled(old(accounts), programdata, buffer, spill, balanceRequired)
    {
      var s := BorrowMut(spill);
      var a :- TryRef(programdata);
      var b :- TryRef(buffer);
      var sum := WrappingAdd(a.lamports, b.lamports);
      var rest: u64 := if sum < balanceRequired then 0 else sum - balanceRequired;
      if TWO_64 <= s.lamports + rest {
        return Err(ArithmeticOverflow);
      }
      Release(spill, s.(lamports := s.lamports + rest));
      SetLamports(buffer, 0);
      SetLamports(programdata, balanceRequired);
      return Ok(());
    }

    method Upgrade(c: Call) returns (r: Result<()>)
      requires borrowed == None
      modifies this
      ensures Agrees(r, UpgradeGuard(env, old(accounts), c))
      ensures r.Ok? ==> borrowed == None && accounts == UpgradeEffect(env, old(accounts), c)
      ensures r.Ok? ==> executors == old(executors)[c.slots[1].key := UpgradeExecutor(env, old(accounts), c)]
    {
      var _ :- VerifyUpgrade(c);
      var balanceRequired := Max(1, env.rent(|Get(accounts, c.slots[0].key).data|));
      var executor :- CreateExecutor(env, Get(accounts, c.slots[2].key).data, BUFFER_OFFSET);
      executors := executors[c.slots[1].key := executor];
      BufferIsNotProgramData(env, accounts, c);
      RecordUpgrade(c.slots[0].key, c.slots[2].key, c.clock, c.slots[6].key);
      UpgradeComposes(env, old(accounts), c);
      r := FundAndSpill(c.slots[0].key, c.slots[2].key, c.slots[3].key, balanceRequired);
    }

    method SetAuthority(c: Call) returns (r: Result<()>)
      requires borrowed == None
      modifies this`accounts, this`borrowed
      ensures Agrees(r, SetAuthorityGuard(old(accounts), c))
      ensures r.Ok? ==> borrowed == None && accounts == SetAuthorityEffect(old(accounts), c)
    {
      var account :- KeyedAccountAtIndex(c.slots, 0);
      var present :- KeyedAccountAtIndex(c.slots, 1);
      var newAuthority: Option<Key> := if 2 < |c.slots| then Some(c.slots[2].key) else None;
      var st :- StateOf(account.key);
      ghost var data := Get(accounts, account.key).data;
      DecodedFits(data);
      match st {
        case Buffer(recorded) =>
          if newAuthority == None {
            return Err(IncorrectAuthority);
          }
          var _ :- CheckAuthority(recorded, present);
          HeaderSizes(st);
          HeaderSizes(Buffer(newAuthority));
          r := SetStateOf(account.key, Buffer(newAuthority));
        case ProgramData(slot, recorded) =>
          var _ :- CheckAuthority(recorded, present);
          HeaderSizes(st);
          HeaderSizes(ProgramData(slot, newAuthority));
          r := SetStateOf(account.key, ProgramData(slot, newAuthority));
        case _ =>
          return Err(InvalidArgument);
      }
    }

    method CommonCloseAccount(recorded: Option<Key>, authority: KeyedAccount, close: Key, recipient: Key)
      returns (r: Result<()>)
      requires borrowed == None && close != recipient && Decode(Get(accounts, close).data).Some?
      modifies this`accounts, this`borrowed
      ensures Agrees(r, match AuthorityGuard(recorded, authority)
                        case Some(e) => Some(e)
                        case None => DrainGuard(old(accounts), close, recipient))
      ensures r.Ok? ==> borrowed == None && accounts == Closed(old(accounts), close, recipient)
    {
      var _ :- CheckAuthority(recorded, authority);
      ghost var before := accounts;
      var _ :- Drain(close, recipient);
      r := SetStateOf(close, Uninitialized);
    }

    method CloseProgramData(c: Call, recorded: Option<Key>) returns (r: Result<()>)
      requires borrowed == None && 2 <= |c.slots| && c.slots[0].key != c.slots[1].key
      requires Decode(At(accounts, c, 0).data).Some?
      modifies this`accounts, this`borrowed
      ensures Agrees(r, match CloseProgramDataGuard(old(accounts), c, recorded)
                        case Some(e) => Some(e)
                        case None => DrainGuard(old(accounts), c.slots[0].key, c.slots[1].key))
      ensures r.Ok? ==> borrowed == None && accounts == Closed(old(accounts), c.slots[0].key, c.slots[1].key)
    {
      var program :- KeyedAccountAtIndex(c.slots, 3);
      if !program.isWritable {
        return Err(InvalidArgument);
      }
      if Get(accounts, program.key).owner != c.programId {
        return Err(IncorrectProgramId);
      }
      var st :- StateOf(program.key);
      if !st.Program? || st.programdata != c.slots[0].key {
        return Err(InvalidArgument);
      }
      r := CommonCloseAccount(recorded, c.slots[2], c.slots[0].key, c.slots[1].key);
    }

    method Close(c: Call) returns (r: Result<()>)
      requires borrowed == None
      modifies this`accounts, this`borrowed
      ensures Agrees(r, CloseGuard(old(accounts), c))
      ensures r.Ok? ==> borrowed == None && accounts == CloseEffect(old(accounts), c)
    {
      var close :- KeyedAccountAtIndex(c.slots, 0);
      var recipient :- KeyedAccountAtIndex(c.slots, 1);
      if close.key == recipient.key {
        return Err(InvalidArgument);
      }
      var st :- StateOf(close.key);
      match st {
        case Uninitialized =>
          UninitializedRewrite(Get(accounts, close.key).data);
          r := Drain(close.key, recipient.key);
        case Buffer(recorded) =>
          var authority :- KeyedAccountAtIndex(c.slots, 2);
          r := CommonCloseAccount(recorded, authority, close.key, recipient.key);
        case ProgramData(_, recorded) =>
          r := CloseProgramData(c, recorded);
        case Program(_) =>
          return Err(InvalidArgument);
      }
    }

    // ---------- the non-upgradeable loader ----------

    method ProcessLoaderInstruction(c: Call) returns (r: Result<()>)
      requires borrowed == None
      modifies this
      ensures Agrees(r, LegacyGuard(env, old(accounts), c))
      ensures r.Ok? ==> borrowed == None && accounts == LegacyEffect(env, old(accounts), c)
      ensures r.Ok? ==> executors == LegacyExecutors(env, old(accounts), c, old(executors))
    {
      var program :- KeyedAccountAtIndex(c.slots, 0);
      if Get(accounts, program.key).owner != c.programId {
        return Err(IncorrectProgramId);
      }
      match env.legacyInstruction(c.data) {
        case None =>
          return Err(InvalidInstructionData);
        case Some(LegacyWrite(offset, bytes)) =>
          if !program.isSigner {
            return Err(MissingRequiredSignature);
          }
          r := WriteProgramData(program.key, offset, bytes);
        case Some(Finalize) =>
          if !program.isSigner {
            return Err(MissingRequiredSignature);
          }
          var executor :- CreateExecutor(env, Get(accounts, program.key).data, 0);
          executors := executors[program.key := executor];
          SetExecutable(program.key);
          return Ok(());
      }
    }

    // ---------- dispatch ----------

    method ProcessLoaderUpgradeableInstruction(c: Call) returns (r: Result<()>)
      requires borrowed == None
      modifies this
      ensures Reports(ProcessUpgradeable(env, old(accounts), old(executors), c), r, accounts, executors)
      ensures r.Ok? ==> borrowed == None
    {
      match I.DeserializeForProcessor(c.data) {
        case None => r := Err(InvalidInstructionData);
        case Some(InitializeBuffer) => r := InitializeBuffer(c);
        case Some(Write(offset, bytes)) => r := Write(c, offset, bytes);
        case Some(DeployWithMaxDataLen(len)) => r := DeployWithMaxDataLen(c, len);
        case Some(Upgrade) => r := Upgrade(c);
        case Some(SetAuthority) => r := SetAuthority(c);
        case Some(Close) => r := Close(c);
        case Some(_) => r := Err(InvalidInstructionData);
      }
    }

    /** Hand the call to a deployed program: the executor from the cache, or a fresh one that is then cached. */
    method Invoke(c: Call, program: Account) returns (r: Result<nat>)
      requires borrowed == None && 1 <= |c.slots|
      modifies this`executors
      ensures match ProcessInvoke(env, accounts, old(executors), c, program)
              case Execute(code, x) => r == Ok(code) && executors == x
              case Fail(e) => r == Err(e)
              case Done(_, _) => false
    {
      if !env.IsLoader(program.owner) {
        return Err(IncorrectProgramId);
      }
      var offset := 0;
      if program.owner == env.upgradeable {
        match Decode(program.data) {
          case None =>
            return Err(InvalidAccountData);
          case Some(Program(pd)) =>
            if pd != c.slots[0].key {
              return Err(InvalidArgument);
            }
            var st :- StateOf(c.slots[0].key);
            if !st.ProgramData? {
              return Err(InvalidAccountData);
            }
            offset := PROGRAMDATA_OFFSET;
          case Some(_) =>
            return Err(InvalidAccountData);
        }
      }
      if c.programId in executors {
        return Ok(executors[c.programId].code);
      }
      var executor :- CreateExecutor(env, Get(accounts, c.slots[0].key).data, offset);
      executors := executors[c.programId := executor];
      return Ok(executor.code);
    }

    /**
     * The entry point. Ok(None): the loader's own instruction is done; Ok(Some(code)): run that program.
     * After an error the accounts are left as they stand; discarding them is the runtime's part.
     */
    method ProcessInstruction(c: Call) returns (r: Result<Option<nat>>)
      requires borrowed == None
      modifies this
      ensures borrowed == None
      ensures match Process(env, old(accounts), old(executors), c)
              case Done(s, x) => r == Ok(None) && accounts == s && executors == x
              case Execute(code, x) => r == Ok(Some(code)) && accounts == old(accounts) && executors == x
              case Fail(e) => r == Err(e)
    {
      var first :- KeyedAccountAtIndex(c.slots, 0);
      var program := first;
      if first.key != c.programId {
        if 1 < |c.slots| && c.slots[1].key == c.programId {
          program := c.slots[1];
        } else if Get(accounts, first.key).executable {
          return Err(IncorrectProgramId);
        }
      }
      if Get(accounts, program.key).executable {
        var code :- Invoke(c, Get(accounts, program.key));
        return Ok(Some(code));
      }
      var done: Result<()>;
      if c.programId == env.upgradeable {
        done := ProcessLoaderUpgradeableInstruction(c);
      } else if c.programId == env.bpfLoader || c.programId == env.bpfLoaderDeprecated {
        done := ProcessLoaderInstruction(c);
      } else {
        return Err(IncorrectProgramId);
      }
      borrowed := None;
      return match done case Ok(_) => Ok(None) case Err(e) => Err(e);
    }
  }
}
