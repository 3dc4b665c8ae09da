/** Runs: loader calls that commit or are undone, interleaved with everything else the chain may do. */
module Chain {
  import opened Bytes
  import opened Runtime
  import opened Loader
  import I = Instructions

  datatype State = State(accounts: Store, executors: Cache)

  /** A call of a loader or a program, some other change of the chain, or the cache dropping an entry. */
  datatype Step = Submit(call: Call) | Outside(accounts: Store) | Evict(key: Key)

  predicate IsDeploy(env: Env, c: Call) {
    c.programId == env.upgradeable &&
    match I.DeserializeForProcessor(c.data) case Some(DeployWithMaxDataLen(_)) => true case _ => false
  }

  predicate IsUpgrade(env: Env, c: Call) {
    c.programId == env.upgradeable && I.DeserializeForProcessor(c.data) == Some(I.Upgrade)
  }

  predicate IsClose(env: Env, c: Call) {
    c.programId == env.upgradeable && I.DeserializeForProcessor(c.data) == Some(I.Close)
  }

  /** The call goes to the loader's own instructions: no slot order error and no executable program account. */
  predicate ReachesProcessor(s: Store, c: Call) {
    ProgramSlot(s, c).Ok? && !At(s, c, ProgramSlot(s, c).value).executable
  }

  /** The accounts Deploy hands to the system program: payer and ProgramData. */
  function Nested(env: Env, c: Call): set<Key> {
    if IsDeploy(env, c) && 2 <= |c.slots| then {c.slots[0].key, c.slots[1].key} else {}
  }

  /** The call's own effects are in and the runtime accepts them. */
  ghost predicate Commits(env: Env, s: State, c: Call) {
    match Process(env, s.accounts, s.executors, c)
    case Done(accounts, _) => OwnerRule(c.programId, s.accounts, accounts, Nested(env, c))
    case _ => false
  }

  /** An instruction that fails, or that the runtime rejects, leaves accounts and cache as they were. */
  ghost function Next(env: Env, s: State, step: Step): State {
    match step
    case Submit(c) =>
      (match Process(env, s.accounts, s.executors, c)
       case Done(accounts, executors) => if Commits(env, s, c) then State(accounts, executors) else s
       case Execute(_, executors) => s.(executors := executors)
       case Fail(_) => s)
    case Outside(accounts) => if OutsideRule(env, s.accounts, accounts) then s.(accounts := accounts) else s
    case Evict(k) => s.(executors := s.executors - {k})
  }

  /** What a committed call did: its instruction's guard passed and its effect is the new store. */
  ghost predicate Applied(env: Env, pre: Store, c: Call, post: Store) {
    if c.programId == env.upgradeable then
      match I.DeserializeForProcessor(c.data)
      case Some(InitializeBuffer) => InitializeBufferGuard(pre, c) == None && post == InitializeBufferEffect(pre, c)
      case Some(Write(offset, bytes)) =>
        WriteGuard(pre, c, offset, bytes) == None && post == WriteEffect(pre, c, offset, bytes)
      case Some(DeployWithMaxDataLen(len)) =>
        DeployGuard(env, pre, c, len) == None && post == DeployEffect(env, pre, c, len)
      case Some(Upgrade) => UpgradeGuard(env, pre, c) == None && post == UpgradeEffect(env, pre, c)
      case Some(SetAuthority) => SetAuthorityGuard(pre, c) == None && post == SetAuthorityEffect(pre, c)
      case Some(Close) => CloseGuard(pre, c) == None && post == CloseEffect(pre, c)
      case _ => false
    else
      && (c.programId == env.bpfLoader || c.programId == env.bpfLoaderDeprecated)
      && LegacyGuard(env, pre, c) == None && post == LegacyEffect(env, pre, c)
  }

  lemma CommittedIsApplied(env: Env, s: State, c: Call)
    requires Commits(env, s, c)
    ensures Applied(env, s.accounts, c, Next(env, s, Submit(c)).accounts)
    ensures OwnerRule(c.programId, s.accounts, Next(env, s, Submit(c)).accounts, Nested(env, c))
    ensures 1 <= |c.slots| && ReachesProcessor(s.accounts, c)
  {
  }

  ghost function Run(env: Env, s: State, steps: seq<Step>): State
    decreases |steps|
  {
    if steps == [] then s else Run(env, Next(env, s, steps[0]), steps[1..])
  }
}
