/** The simple_token program: a ledger of u64 amounts with checked arithmetic. */
module Ledger {
  import opened Bytes
  import opened Sums

  type Balances = map<Key, u64>

  datatype Op =
    | Initialize(account: Key)
    | Mint(account: Key, amount: u64)
    | Burn(account: Key, amount: u64)
    | Transfer(from: Key, to: Key, amount: u64)

  datatype Failure = AccountInUse | AccountNotInitialized | InsufficientFunds | Overflow

  datatype Outcome = Applied(balances: Balances) | Failed(failure: Failure)

  /** What an instruction does to the balances as a whole. */
  function Apply(b: Balances, op: Op): Outcome {
    match op
    case Initialize(k) => if k in b then Failed(AccountInUse) else Applied(b[k := 0])
    case Mint(k, n) =>
      if k !in b then Failed(AccountNotInitialized)
      else if TWO_64 <= b[k] + n then Failed(Overflow)
      else Applied(b[k := b[k] + n])
    case Burn(k, n) =>
      if k !in b then Failed(AccountNotInitialized)
      else if b[k] < n then Failed(InsufficientFunds)
      else Applied(b[k := b[k] - n])
    case Transfer(from, to, n) =>
      if from !in b || to !in b then Failed(AccountNotInitialized)
      else if b[from] < n then Failed(InsufficientFunds)
      else
        var taken := b[from := b[from] - n];
        if TWO_64 <= taken[to] + n then Failed(Overflow)
        else Applied(taken[to := taken[to] + n])
  }

  /** Exactly when an instruction goes through. */
  predicate GoesThrough(b: Balances, op: Op) {
    match op
    case Initialize(k) => k !in b
    case Mint(k, n) => k in b && b[k] + n < TWO_64
    case Burn(k, n) => k in b && n <= b[k]
    case Transfer(from, to, n) => from in b && to in b && n <= b[from] && (from == to || b[to] + n < TWO_64)
  }

  /** What an instruction that goes through brings an account. */
  function Gain(op: Op, k: Key): nat {
    match op
    case Mint(a, n) => if a == k then n else 0
    case Transfer(_, to, n) => if to == k then n else 0
    case _ => 0
  }

  /** What it takes from one. */
  function Loss(op: Op, k: Key): nat {
    match op
    case Burn(a, n) => if a == k then n else 0
    case Transfer(from, _, n) => if from == k then n else 0
    case _ => 0
  }

  /**
   * `after` are the balances an instruction leaves: only Initialize opens an account, each balance moves by its
   * gain less its loss.
   */
  ghost predicate Moves(b: Balances, op: Op, after: Balances) {
    && after.Keys == b.Keys + (if op.Initialize? then {op.account} else {})
    && (forall k: Key :: ValueAt<Key>(after, k) == ValueAt<Key>(b, k) + Gain(op, k) - Loss(op, k))
  }

  lemma ApplyExact(b: Balances, op: Op)
    ensures Apply(b, op).Applied? <==> GoesThrough(b, op)
    ensures Apply(b, op).Applied? ==> Moves(b, op, Apply(b, op).balances)
  {
  }

  /** A transfer: the sender holds n less, the receiver n more, and no third balance changes. */
  lemma TransferExact(b: Balances, from: Key, to: Key, n: u64)
    requires from != to
    ensures Apply(b, Transfer(from, to, n)).Applied? <==>
            from in b && to in b && n <= b[from] && b[to] + n < TWO_64
    ensures Apply(b, Transfer(from, to, n)).Applied? ==>
              var after := Apply(b, Transfer(from, to, n)).balances;
              && after.Keys == b.Keys && after[from] == b[from] - n && after[to] == b[to] + n
              && (forall k :: k in b && k != from && k != to ==> after[k] == b[k])
  {
  }

  /** What each failure means. */
  lemma FailuresExact(b: Balances, op: Op)
    ensures Apply(b, op) == Failed(AccountInUse) <==> op.Initialize? && op.account in b
    ensures Apply(b, op) == Failed(AccountNotInitialized) <==>
            match op
            case Initialize(_) => false
            case Mint(k, _) => k !in b
            case Burn(k, _) => k !in b
            case Transfer(from, to, _) => from !in b || to !in b
    ensures Apply(b, op) == Failed(InsufficientFunds) <==>
            match op
            case Burn(k, n) => k in b && b[k] < n
            case Transfer(from, to, n) => from in b && to in b && b[from] < n
            case _ => false
  {
  }

  /** The program over its accounts, each amount changed in place; a failed instruction is undone. */
  class TokenProgram {
    var amounts: Balances

    constructor ()
      ensures amounts == map[]
    {
      amounts := map[];
    }

    /** `amount += n`, a panic when it does not fit. */
    method Add(k: Key, n: u64) returns (failure: Option<Failure>)
      requires k in amounts
      modifies this
      ensures failure == if TWO_64 <= old(amounts)[k] + n then Some(Overflow) else None
      ensures amounts == if failure == None then old(amounts)[k := old(amounts)[k] + n] else old(amounts)
    {
      if TWO_64 <= amounts[k] + n {
        return Some(Overflow);
      }
      amounts := amounts[k := amounts[k] + n];
      return None;
    }

    /** `require!(amount >= n)`, then `amount -= n`. */
    method Take(k: Key, n: u64) returns (failure: Option<Failure>)
      requires k in amounts
      modifies this
      ensures failure == if old(amounts)[k] < n then Some(InsufficientFunds) else None
      ensures amounts == if failure == None then old(amounts)[k := old(amounts)[k] - n] else old(amounts)
    {
      if amounts[k] < n {
        return Some(InsufficientFunds);
      }
      amounts := amounts[k := amounts[k] - n];
      return None;
    }

    method Execute(op: Op) returns (failure: Option<Failure>)
      modifies this
      ensures match Apply(old(amounts), op)
              case Applied(b) => failure == None && amounts == b
              case Failed(f) => failure == Some(f) && amounts == old(amounts)
      ensures failure == None <==> GoesThrough(old(amounts), op)
      ensures failure == None ==> Moves(old(amounts), op, amounts)
    {
      ApplyExact(amounts, op);
      var before := amounts;
      match op {
        case Initialize(k) =>
          if k in amounts {
            return Some(AccountInUse);
          }
          amounts := amounts[k := 0];
          return None;
        case Mint(k, n) =>
          if k !in amounts {
            return Some(AccountNotInitialized);
          }
          failure := Add(k, n);
        case Burn(k, n) =>
          if k !in amounts {
            return Some(AccountNotInitialized);
          }
          failure := Take(k, n);
        case Transfer(from, to, n) =>
          if from !in amounts || to !in amounts {
            return Some(AccountNotInitialized);
          }
          failure := Take(from, n);
          if failure == None {
            failure := Add(to, n);
          }
      }
      if failure != None {
        amounts := before;
      }
    }
  }

  /** Where the balances end up, and what was minted and burned by instructions that went through. */
  datatype Books = Books(balances: Balances, minted: nat, burned: nat)

  function Book(k: Books, op: Op): Books {
    match Apply(k.balances, op)
    case Failed(_) => k
    case Applied(b) =>
      Books(b, k.minted + (if op.Mint? then op.amount else 0), k.burned + (if op.Burn? then op.amount else 0))
  }

  function RunOps(k: Books, ops: seq<Op>): Books
    decreases |ops|
  {
    if ops == [] then k else RunOps(Book(k, ops[0]), ops[1..])
  }

  ghost function Supply(b: Balances): nat {
    Sum(b)
  }

  lemma PutBalances(b: Balances, k: Key, v: u64)
    ensures Supply(b[k := v]) == Supply(b) - ValueAt<Key>(b, k) + v
  {
    SumPut<Key>(b, k, v);
  }

  lemma TransferBalances(b: Balances, from: Key, to: Key, n: u64)
    requires from != to && Apply(b, Transfer(from, to, n)).Applied?
    ensures Supply(Apply(b, Transfer(from, to, n)).balances) == Supply(b)
  {
    var taken := b[from := b[from] - n];
    PutBalances(b, from, b[from] - n);
    PutBalances(taken, to, b[to] + n);
  }

  lemma BookBalances(k: Books, op: Op)
    requires op.Transfer? ==> op.from != op.to
    ensures Supply(Book(k, op).balances) + Book(k, op).burned + k.minted ==
            Supply(k.balances) + k.burned + Book(k, op).minted
  {
    var b := k.balances;
    if Apply(b, op).Applied? {
      match op {
        case Initialize(a) => PutBalances(b, a, 0);
        case Mint(a, n) => PutBalances(b, a, b[a] + n);
        case Burn(a, n) => PutBalances(b, a, b[a] - n);
        case Transfer(from, to, n) => TransferBalances(b, from, to, n);
      }
    }
  }

  /** Over any run with distinct transfer accounts: supply is what it was, plus minted, minus burned. */
  lemma {:induction false} SupplyBooks(k: Books, ops: seq<Op>)
    requires forall i :: 0 <= i < |ops| && ops[i].Transfer? ==> ops[i].from != ops[i].to
    ensures Supply(RunOps(k, ops).balances) + RunOps(k, ops).burned + k.minted ==
            Supply(k.balances) + k.burned + RunOps(k, ops).minted
    decreases |ops|
  {
    if ops != [] {
      BookBalances(k, ops[0]);
      SupplyBooks(Book(k, ops[0]), ops[1..]);
    }
  }

  /** What the instructions of a run that went through brought an account. */
  function Gained(k: Books, ops: seq<Op>, a: Key): nat
    decreases |ops|
  {
    if ops == [] then 0
    else (if GoesThrough(k.balances, ops[0]) then Gain(ops[0], a) else 0) + Gained(Book(k, ops[0]), ops[1..], a)
  }

  function Lost(k: Books, ops: seq<Op>, a: Key): nat
    decreases |ops|
  {
    if ops == [] then 0
    else (if GoesThrough(k.balances, ops[0]) then Loss(ops[0], a) else 0) + Lost(Book(k, ops[0]), ops[1..], a)
  }

  /** Over any run, each balance is what it was, plus minted and received, minus burned and sent. */
  lemma {:induction false} BalanceHistory(k: Books, ops: seq<Op>, a: Key)
    requires forall i :: 0 <= i < |ops| && ops[i].Transfer? ==> ops[i].from != ops[i].to
    ensures ValueAt<Key>(RunOps(k, ops).balances, a) ==
            ValueAt<Key>(k.balances, a) + Gained(k, ops, a) - Lost(k, ops, a)
    decreases |ops|
  {
    if ops != [] {
      ApplyExact(k.balances, ops[0]);
      BalanceHistory(Book(k, ops[0]), ops[1..], a);
    }
  }
}
