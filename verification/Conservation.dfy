/** Lamports: none made, none lost, and how the two orders of draining a deployed buffer compare. */
module Conservation {
  import opened Bytes
  import opened LoaderState
  import opened Runtime
  import opened Loader
  import opened Chain
  import opened Transitions
  import opened Sums
  import I = Instructions

  function Lamports(s: Store): map<Key, nat> {
    map k | k in s :: s[k].lamports
  }

  ghost function Total(s: Store): nat {
    Sum(Lamports(s))
  }

  /** Replacing one account moves the total by that account's difference. */
  lemma TotalPut(s: Store, k: Key, a: Account)
    ensures Total(s[k := a]) == Total(s) - Get(s, k).lamports + a.lamports
  {
    SumPut(Lamports(s), k, a.lamports);
    assert Lamports(s[k := a]) == Lamports(s)[k := a.lamports];
  }

  /** Two different accounts never hold more than everything. */
  lemma TwoWithinTotal(s: Store, j: Key, k: Key)
    requires j != k
    ensures Get(s, j).lamports + Get(s, k).lamports <= Total(s)
  {
    TwoWithinSum(Lamports(s), j, k);
  }

  lemma DrainConserves(s: Store, from: Key, to: Key)
    requires DrainGuard(s, from, to) == None
    ensures Total(Drained(s, from, to)) == Total(s)
  {
    var credit := Get(s, to).(lamports := Get(s, to).lamports + Get(s, from).lamports);
    var empty := Get(s, from).(lamports := 0);
    TotalPut(s, to, credit);
    TotalPut(s[to := credit], from, empty);
  }

  lemma FourPuts(s: Store, k0: Key, a0: Account, k1: Key, a1: Account, k2: Key, a2: Account, k3: Key, a3: Account)
    requires k0 != k1 && k0 != k2 && k0 != k3 && k1 != k2 && k1 != k3 && k2 != k3
    requires a0.lamports + a1.lamports + a2.lamports + a3.lamports ==
             Get(s, k0).lamports + Get(s, k1).lamports + Get(s, k2).lamports + Get(s, k3).lamports
    ensures Total(s[k0 := a0][k1 := a1][k2 := a2][k3 := a3]) == Total(s)
  {
    TotalPut(s, k0, a0);
    TotalPut(s[k0 := a0], k1, a1);
    TotalPut(s[k0 := a0][k1 := a1], k2, a2);
    TotalPut(s[k0 := a0][k1 := a1][k2 := a2], k3, a3);
  }

  /** Four accounts change and their lamports add up as before. */
  predicate DeployChange(s: Store, c: Call, post: Store) {
    && 4 <= |c.slots| && FourAccounts(c)
    && post == s[c.slots[0].key := At(post, c, 0)][c.slots[3].key := At(post, c, 3)]
                [c.slots[2].key := At(post, c, 2)][c.slots[1].key := At(post, c, 1)]
    && At(post, c, 0).lamports + At(post, c, 1).lamports + At(post, c, 2).lamports + At(post, c, 3).lamports ==
       At(s, c, 0).lamports + At(s, c, 1).lamports + At(s, c, 2).lamports + At(s, c, 3).lamports
  }

  lemma DeployChanges(env: Env, s: Store, c: Call, len: u64)
    requires DeployGuard(env, s, c, len) == None
    ensures DeployChange(s, c, DeployEffect(env, s, c, len))
  {
    DeployFunds(env, s, c, len);
  }

  lemma ChangeConserves(s: Store, c: Call, post: Store)
    requires DeployChange(s, c, post)
    ensures Total(post) == Total(s)
  {
    FourPuts(s, c.slots[0].key, At(post, c, 0), c.slots[3].key, At(post, c, 3),
             c.slots[2].key, At(post, c, 2), c.slots[1].key, At(post, c, 1));
  }

  lemma DeployConserves(env: Env, s: Store, c: Call, len: u64)
    requires DeployGuard(env, s, c, len) == None
    ensures Total(DeployEffect(env, s, c, len)) == Total(s)
  {
    DeployChanges(env, s, c, len);
    ChangeConserves(s, c, DeployEffect(env, s, c, len));
  }

  lemma ThreePuts(s: Store, k0: Key, a0: Account, k1: Key, a1: Account, k2: Key, a2: Account)
    requires k0 != k1 && k0 != k2 && k1 != k2
    requires a0.lamports + a1.lamports + a2.lamports == Get(s, k0).lamports + Get(s, k1).lamports + Get(s, k2).lamports
    ensures Total(s[k0 := a0][k1 := a1][k2 := a2]) == Total(s)
  {
    TotalPut(s, k0, a0);
    TotalPut(s[k0 := a0], k1, a1);
    TotalPut(s[k0 := a0][k1 := a1], k2, a2);
  }

  /** A sum that fits neither wraps nor saturates. */
  lemma SpillExact(programdata: Account, buffer: Account, required: u64)
    requires required <= WrappingAdd(programdata.lamports, buffer.lamports)
    requires programdata.lamports + buffer.lamports < TWO_64
    ensures required + SpillAmount(programdata, buffer, required) == programdata.lamports + buffer.lamports
  {
  }

  /** Moving what two accounts hold into `required` for one and the rest for a third loses nothing. */
  lemma SpillConserves(s: Store, k0: Key, k2: Key, k3: Key, made: Account, required: u64)
    requires k0 != k2 && made.lamports == required
    requires SpillGuard(s, k0, k2, k3, required) == None
    requires required + SpillAmount(Get(s, k0), Get(s, k2), required) == Get(s, k0).lamports + Get(s, k2).lamports
    ensures Total(FundedAndSpilled(s, k0, k2, k3, made, required)) == Total(s)
  {
    var rest := SpillAmount(Get(s, k0), Get(s, k2), required);
    ThreePuts(s, k0, made, k2, Get(s, k2).(lamports := 0), k3, Get(s, k3).(lamports := Get(s, k3).lamports + rest));
  }

  lemma PassedUpgradeConserves(env: Env, s: Store, c: Call, made: Account)
    requires UpgradePassed(env, s, c) && Total(s) < TWO_64 && made.lamports == Max(1, env.rent(|At(s, c, 0).data|))
    ensures Total(FundedAndSpilled(s, c.slots[0].key, c.slots[2].key, c.slots[3].key, made,
                                   Max(1, env.rent(|At(s, c, 0).data|)))) == Total(s)
  {
    TwoWithinTotal(s, c.slots[0].key, c.slots[2].key);
    SpillExact(At(s, c, 0), At(s, c, 2), Max(1, env.rent(|At(s, c, 0).data|)));
    SpillConserves(s, c.slots[0].key, c.slots[2].key, c.slots[3].key, made, Max(1, env.rent(|At(s, c, 0).data|)));
  }

  /** Upgrade's wrapping sum and saturating subtraction neither wrap nor saturate, so nothing is lost. */
  lemma UpgradeConserves(env: Env, s: Store, c: Call)
    requires UpgradeGuard(env, s, c) == None && Total(s) < TWO_64
    ensures Total(UpgradeEffect(env, s, c)) == Total(s)
  {
    UpgradeAccounts(env, s, c);
    PassedUpgradeConserves(env, s, c, UpgradedProgramData(env, s, c));
  }

  lemma CloseConserves(s: Store, c: Call)
    requires CloseGuard(s, c) == None
    ensures Total(CloseEffect(s, c)) == Total(s)
  {
    var close, to := c.slots[0].key, c.slots[1].key;
    var drained := Drained(s, close, to);
    DrainConserves(s, close, to);
    TotalPut(drained, close, CloseEffect(s, c)[close]);
    assert CloseEffect(s, c) == drained[close := CloseEffect(s, c)[close]];
  }

  lemma OneAccountConserves(s: Store, k: Key, a: Account)
    requires a.lamports == Get(s, k).lamports
    ensures Total(s[k := a]) == Total(s)
  {
    TotalPut(s, k, a);
  }

  /** Every committed loader call, nested account creation included, keeps the sum of lamports over all accounts. */
  lemma LamportsConserved(env: Env, s: State, c: Call)
    requires Commits(env, s, c) && Total(s.accounts) < TWO_64
    ensures Total(Next(env, s, Submit(c)).accounts) == Total(s.accounts)
  {
    CommittedIsApplied(env, s, c);
    AppliedConserves(env, s.accounts, c, Next(env, s, Submit(c)).accounts);
  }

  lemma AppliedConserves(env: Env, pre: Store, c: Call, post: Store)
    requires Applied(env, pre, c, post) && Total(pre) < TWO_64
    ensures Total(post) == Total(pre)
  {
    if c.programId != env.upgradeable {
      OneAccountConserves(pre, c.slots[0].key, post[c.slots[0].key]);
    } else {
      match I.DeserializeForProcessor(c.data) {
        case Some(DeployWithMaxDataLen(len)) => DeployConserves(env, pre, c, len);
        case Some(Upgrade) => UpgradeConserves(env, pre, c);
        case Some(Close) => CloseConserves(pre, c);
        case Some(InitializeBuffer) => OneAccountConserves(pre, c.slots[0].key, post[c.slots[0].key]);
        case Some(Write(_, _)) => OneAccountConserves(pre, c.slots[0].key, post[c.slots[0].key]);
        case Some(SetAuthority) => OneAccountConserves(pre, c.slots[0].key, post[c.slots[0].key]);
      }
    }
  }

  // ---------- draining the buffer first or last ----------

  function Early(c: Call): Call { c.(predrain := true) }

  function Late(c: Call): Call { c.(predrain := false) }

  /** Every check of Deploy that has nothing to do with when the buffer is drained or whether the payer can pay. */
  ghost predicate DeployOtherwiseFine(env: Env, s: Store, c: Call, len: u64) {
    && DeployCheck(env, s, c, len) == None
    && c.slots[0].key != c.slots[3].key && c.slots[0].key != c.slots[1].key
    && Unused(At(s, c, 1))
    && c.slots[0].isSigner && At(s, c, 0).data == [] && At(s, c, 0).owner == SYSTEM_PROGRAM
    && CreateExecutor(env, At(s, c, 3).data, BUFFER_OFFSET).Ok?
  }

  /** Deploy's funding step, drain last: the payer alone must cover the cost. */
  lemma LateFunding(env: Env, s: Store, c: Call, len: u64)
    requires 8 <= |c.slots| && !c.predrain && At(s, c, 3).data != []
    requires c.slots[0].key != c.slots[3].key ==> At(s, c, 0).lamports + At(s, c, 3).lamports < TWO_64
    ensures DeployFundingGuard(env, s, c, len) == None <==>
            && c.slots[0].key != c.slots[3].key && c.slots[0].key != c.slots[1].key
            && Unused(At(s, c, 1))
            && c.slots[0].isSigner && At(s, c, 0).data == [] && At(s, c, 0).owner == SYSTEM_PROGRAM
            && CreateExecutor(env, At(s, c, 3).data, BUFFER_OFFSET).Ok?
            && Max(1, env.rent(PROGRAMDATA_OFFSET + len)) <= At(s, c, 0).lamports
  {
  }

  /** Drain first: payer and buffer together must cover it. */
  lemma EarlyFunding(env: Env, s: Store, c: Call, len: u64)
    requires 8 <= |c.slots| && c.predrain && At(s, c, 3).data != []
    requires c.slots[0].key != c.slots[3].key ==> At(s, c, 0).lamports + At(s, c, 3).lamports < TWO_64
    ensures DeployFundingGuard(env, s, c, len) == None <==>
            && c.slots[0].key != c.slots[3].key && c.slots[0].key != c.slots[1].key
            && Unused(At(s, c, 1))
            && c.slots[0].isSigner && At(s, c, 0).data == [] && At(s, c, 0).owner == SYSTEM_PROGRAM
            && CreateExecutor(env, At(s, c, 3).data, BUFFER_OFFSET).Ok?
            && Max(1, env.rent(PROGRAMDATA_OFFSET + len)) <= At(s, c, 0).lamports + At(s, c, 3).lamports
  {
  }

  lemma LateDeploySucceeds(env: Env, s: Store, c: Call, len: u64)
    requires Total(s) < TWO_64
    ensures DeployGuard(env, s, Late(c), len) == None <==>
            DeployOtherwiseFine(env, s, c, len) && Max(1, env.rent(PROGRAMDATA_OFFSET + len)) <= At(s, c, 0).lamports
  {
    assert DeployCheck(env, s, c, len) == DeployCheck(env, s, Late(c), len);
    if DeployCheck(env, s, c, len) == None {
      if c.slots[0].key != c.slots[3].key {
        TwoWithinTotal(s, c.slots[0].key, c.slots[3].key);
      }
      LateFunding(env, s, Late(c), len);
    }
  }

  lemma EarlyDeploySucceeds(env: Env, s: Store, c: Call, len: u64)
    requires Total(s) < TWO_64
    ensures DeployGuard(env, s, Early(c), len) == None <==>
            && DeployOtherwiseFine(env, s, c, len)
            && Max(1, env.rent(PROGRAMDATA_OFFSET + len)) <= At(s, c, 0).lamports + At(s, c, 3).lamports
  {
    assert DeployCheck(env, s, c, len) == DeployCheck(env, s, Early(c), len);
    if DeployCheck(env, s, c, len) == None {
      if c.slots[0].key != c.slots[3].key {
        TwoWithinTotal(s, c.slots[0].key, c.slots[3].key);
      }
      EarlyFunding(env, s, Early(c), len);
    }
  }

  /**
   * Draining first succeeds whenever draining last does, with the same final store; it succeeds in addition
   * exactly when only the payer's own lamports fall short and the buffer's make up for it.
   */
  lemma EarlyDrainRefinesLate(env: Env, s: Store, c: Call, len: u64)
    requires Total(s) < TWO_64
    ensures DeployGuard(env, s, Late(c), len) == None ==>
              && DeployGuard(env, s, Early(c), len) == None
              && DeployEffect(env, s, Early(c), len) == DeployEffect(env, s, Late(c), len)
    ensures DeployGuard(env, s, Early(c), len) == None && DeployGuard(env, s, Late(c), len) != None <==>
            && DeployOtherwiseFine(env, s, c, len)
            && At(s, c, 0).lamports < Max(1, env.rent(PROGRAMDATA_OFFSET + len)) <= At(s, c, 0).lamports +
               At(s, c, 3).lamports
  {
    LateDeploySucceeds(env, s, c, len);
    EarlyDeploySucceeds(env, s, c, len);
  }
}
