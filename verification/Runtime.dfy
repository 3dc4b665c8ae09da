/** What the loader stands on: accounts, the account store, and the contracts of the runtime around it. */
module Runtime {
  import opened Bytes

  datatype Account = Account(lamports: u64, owner: Key, executable: bool, data: seq<u8>)

  /** A key without an entry is an account that does not exist: it reads as `NO_ACCOUNT`. */
  type Store = map<Key, Account>

  const SYSTEM_PROGRAM: Key := 0
  const NO_ACCOUNT := Account(0, SYSTEM_PROGRAM, false, [])
  const MAX_PERMITTED_DATA_LENGTH: nat := 10 * 1024 * 1024

  function Get(s: Store, k: Key): Account {
    if k in s then s[k] else NO_ACCOUNT
  }

  datatype Error =
    | AccountAlreadyInUse
    | AccountAlreadyInitialized
    | AccountBorrowFailed
    | AccountDataTooSmall
    | AccountNotExecutable
    | ArithmeticOverflow
    | ExecutableAccountNotRentExempt
    | Immutable
    | IncorrectAuthority
    | IncorrectProgramId
    | InsufficientFunds
    | InvalidAccountData
    | InvalidArgument
    | InvalidInstructionData
    | MissingRequiredSignature
    | NotEnoughAccountKeys
    | Panicked
    | ProgramFailedToCompile
    | ResultWithNegativeLamports

  datatype Result<+T> = Ok(value: T) | Err(error: Error) {
    predicate IsFailure() { Err? }

    function PropagateFailure<U>(): Result<U>
      requires Err?
    {
      Err(error)
    }

    function Extract(): T
      requires Ok?
    {
      value
    }
  }

  datatype KeyedAccount = KeyedAccount(key: Key, isSigner: bool, isWritable: bool)

  /** A compiled program: the bytes it was made from and what the compiler made of them. */
  datatype Executor = Executor(image: seq<u8>, code: nat)

  type Cache = map<Key, Executor>

  datatype LegacyInstruction = LegacyWrite(offset: u32, bytes: seq<u8>) | Finalize

  /** Everything the loader calls that is not its own code. */
  datatype Env = Env(
    upgradeable: Key, bpfLoader: Key, bpfLoaderDeprecated: Key,
    rentSysvar: Key, clockSysvar: Key,
    findProgramAddress: Key -> Option<Key>,
    rent: nat -> u64,
    load: seq<u8> -> Result<nat>,
    legacyInstruction: seq<u8> -> Option<LegacyInstruction>)
  {
    predicate IsLoader(k: Key) {
      k == upgradeable || k == bpfLoader || k == bpfLoaderDeprecated
    }

    predicate HasDerived(p: Key) {
      findProgramAddress(p).Some?
    }

    /** The address derived from `p`; `p` itself stands for there being none. */
    function Derive(p: Key): Key {
      if HasDerived(p) then findProgramAddress(p).value else p
    }

    /** Derived addresses are unique, are never the address they come from or a loader, and rent is never free. */
    ghost predicate Valid() {
      && upgradeable != bpfLoader && upgradeable != bpfLoaderDeprecated
      && !IsLoader(SYSTEM_PROGRAM)
      && (forall p: Key, q: Key :: HasDerived(p) && HasDerived(q) && Derive(p) == Derive(q) ==> p == q)
      && (forall p: Key :: HasDerived(p) ==> Derive(p) != p && !IsLoader(Derive(p)))
      && (forall n: nat :: 0 < rent(n))
    }

    ghost predicate IsDerived(k: Key) {
      exists p: Key :: HasDerived(p) && Derive(p) == k
    }
  }

  /** The assumptions about the environment can be met together. */
  lemma ValidEnvExists()
    ensures exists env: Env :: env.Valid()
  {
    var half: nat := TWO_256 / 2;
    var env := Env(1, 2, 3, 4, 5,
                   (p: Key) => if p < half then Some(p + half) else None,
                   (_: nat) => 1,
                   (_: seq<u8>) => Ok(0),
                   (_: seq<u8>) => None);
    assert env.Valid();
  }

  /** One call of the loader: the invoked program, the account slots after it, and the clock and feature it sees. */
  datatype Call = Call(programId: Key, slots: seq<KeyedAccount>, data: seq<u8>, clock: u64, predrain: bool)

  /** The keys that signed the call. */
  function Signers(c: Call): set<Key> {
    set a | a in c.slots && a.isSigner :: a.key
  }

  predicate Unused(a: Account) {
    a.lamports == 0 && a.data == [] && a.owner == SYSTEM_PROGRAM && !a.executable
  }

  /**
   * The system program's create_account. The new account must be unused and comes out zero-filled;
   * the payer must have signed, be system-owned, hold no data and have the lamports.
   */
  function CreateAccount(s: Store, payer: KeyedAccount, target: Key, lamports: u64, space: nat,
                         owner: Key): (r: Result<Store>)
    ensures r.Ok? ==> payer.key != target || lamports == 0
  {
    if !Unused(Get(s, target)) then Err(AccountAlreadyInUse)
    else if !payer.isSigner then Err(MissingRequiredSignature)
    else
      var withTarget := s[target := Account(0, owner, false, Zeros(space))];
      var from := Get(withTarget, payer.key);
      if from.data != [] || from.owner != SYSTEM_PROGRAM then Err(InvalidArgument)
      else if from.lamports < lamports then Err(ResultWithNegativeLamports)
      else
        var paid := withTarget[payer.key := from.(lamports := from.lamports - lamports)];
        Ok(paid[target := Account(lamports, owner, false, Zeros(space))])
  }

  /**
   * The runtime's check after an instruction of `loader`: apart from the accounts a nested system-program
   * call was given, only accounts the loader owns may change or lose lamports.
   */
  ghost predicate OwnerRule(loader: Key, pre: Store, post: Store, nested: set<Key>) {
    forall k: Key :: k !in nested ==> OwnerAllows(loader, Get(pre, k), Get(post, k))
  }

  predicate OwnerAllows(loader: Key, a: Account, b: Account) {
    a.owner == loader || Credited(a, b)
  }

  /** Nothing happened to the account except that lamports may have arrived. */
  predicate Credited(a: Account, b: Account) {
    a.owner == b.owner && a.executable == b.executable && a.data == b.data && a.lamports <= b.lamports
  }

  /**
   * Anything the rest of the chain may do to an account between loader instructions: other programs'
   * instructions, transfers, account creation and assignment, and purging of accounts without lamports.
   * Loader-owned accounts can only be credited or, once empty, purged; no one else signs for a derived
   * address; an account given to a loader is zero-filled; the loaders' own accounts stay as they are.
   */
  ghost predicate OutsideAllows(env: Env, k: Key, a: Account, b: Account) {
    || Credited(a, b)
    || (a.lamports == 0 && b == NO_ACCOUNT && !env.IsLoader(k))
    || (&& !env.IsLoader(k)
        && !env.IsLoader(a.owner)
        && !env.IsDerived(k)
        && (env.IsLoader(b.owner) ==> AllZero(b.data) && !b.executable))
  }

  ghost predicate OutsideRule(env: Env, pre: Store, post: Store) {
    forall k: Key :: OutsideAllows(env, k, Get(pre, k), Get(post, k))
  }
}
