/**
 Who opened an escrow and on which terms, and who may act on it afterwards: every
 later instruction is traced back to the call that opened its escrow
 (programs/oss-bounty-escrow/src/lib.rs).
 */
module EscrowParties {
  import opened ByteStrings
  import opened EscrowAudit
  import opened EscrowProgram
  import opened EscrowRules
  import opened Outcomes
  import opened TokenLedger

  // ----- when exactly an instruction succeeds

  /** A transfer of the amount goes through. */
  predicate Transferable(l: Ledger, from: Pubkey, mint: Pubkey, to: Pubkey, owner: Pubkey, amount: nat) {
    && mint in l.mints && from in l.accounts && to in l.accounts
    && l.accounts[from].mint == l.accounts[to].mint == mint && l.accounts[from].owner == owner
    && amount <= l.accounts[from].amount
    && (from != to ==> l.accounts[to].amount + amount < U64_LIMIT)
  }

  /** The accounts given with an instruction on an existing escrow are the recorded ones. */
  predicate RecordedAccounts(w: World, k: Pubkey, mint: Pubkey, vault: Pubkey) {
    && k in w.escrows && w.escrows[k].mint == mint && w.escrows[k].vault == vault && mint in w.ledger.mints
    && vault in w.ledger.accounts && w.ledger.accounts[vault].mint == mint && w.ledger.accounts[vault].owner == k
  }

  /** An escrow is opened exactly with fresh derived addresses, a real mint, a reference, an amount, time left and parties. */
  lemma {:induction false} InitializeSucceeds(w: World, i: Instruction, now: int)
    requires i.InitializeEscrow?
    ensures Executed(w, i, now).Ok? <==>
      && i.mint in w.ledger.mints
      && i.escrow == EscrowAddress(i.sponsor, i.reference) && i.escrow !in w.escrows
      && i.vault == VaultAddress(i.escrow) && i.vault !in w.ledger.accounts
      && (|i.reference| == 32 ==> exists n :: 0 <= n < 32 && i.reference[n] != 0)
      && i.amount >= 1 && now < i.expiry && i.maintainer != DefaultKey && i.contributor != DefaultKey
  {
    if |i.reference| == 32 && forall n :: 0 <= n < 32 ==> i.reference[n] == 0 {
      assert i.reference == ZeroReference();
    }
  }

  /** An escrow is cancelled exactly by its sponsor and before it is funded. */
  lemma {:induction false} CancelSucceeds(w: World, i: Instruction, now: int)
    requires i.Cancel?
    ensures Executed(w, i, now).Ok? <==>
      i.escrow in w.escrows && w.escrows[i.escrow].sponsor == i.sponsor && w.escrows[i.escrow].status == Initialized
  {
  }

  /** It is funded exactly by its sponsor, once, before expiry, from an account of the sponsor that holds the amount. */
  lemma {:induction false} FundSucceeds(w: World, i: Instruction, now: int)
    requires i.FundEscrow?
    ensures Executed(w, i, now).Ok? <==>
      && RecordedAccounts(w, i.escrow, i.mint, i.vault)
      && var e := w.escrows[i.escrow];
        && e.sponsor == i.sponsor && e.status == Initialized && now < e.expiry
        && Transferable(w.ledger, i.sponsorToken, e.mint, e.vault, e.sponsor, e.amount)
  {
  }

  /** It is released exactly by its maintainer, while funded, before expiry, to an account of its contributor. */
  lemma {:induction false} ReleaseSucceeds(w: World, i: Instruction, now: int)
    requires i.Release?
    ensures Executed(w, i, now).Ok? <==>
      && RecordedAccounts(w, i.escrow, i.mint, i.vault)
      && var e := w.escrows[i.escrow];
        && e.maintainer == i.maintainer && e.status == Funded && now < e.expiry
        && Transferable(w.ledger, e.vault, e.mint, i.contributorToken, i.escrow, e.amount)
        && w.ledger.accounts[i.contributorToken].owner == e.contributor
  {
  }

  /** It is refunded exactly by its sponsor, while funded, from expiry on, to an account of the sponsor. */
  lemma {:induction false} RefundSucceeds(w: World, i: Instruction, now: int)
    requires i.Refund?
    ensures Executed(w, i, now).Ok? <==>
      && RecordedAccounts(w, i.escrow, i.mint, i.vault)
      && var e := w.escrows[i.escrow];
        && e.sponsor == i.sponsor && e.status == Funded && e.expiry <= now
        && Transferable(w.ledger, e.vault, e.mint, i.sponsorToken, i.escrow, e.amount)
        && w.ledger.accounts[i.sponsorToken].owner == e.sponsor
  {
  }

  /** What an error of the program says of the instruction and the escrow it is about. */
  predicate ErrorIsTrue(w: World, i: Instruction, now: int, error: EscrowError) {
    match error
    case InvalidExternalReference => i.InitializeEscrow? && forall n :: 0 <= n < |i.reference| ==> i.reference[n] == 0
    case InvalidAmount => i.InitializeEscrow? && i.amount == 0
    case InvalidExpiry => i.InitializeEscrow? && i.expiry <= now
    case InvalidMaintainer => i.InitializeEscrow? && i.maintainer == DefaultKey
    case InvalidContributor => i.InitializeEscrow? && i.contributor == DefaultKey
    case UnauthorizedSponsor => i.Refund? && i.escrow in w.escrows && w.escrows[i.escrow].sponsor != i.sponsor
    case InvalidVault =>
      (i.FundEscrow? || i.Release? || i.Refund?) && i.escrow in w.escrows && w.escrows[i.escrow].vault != i.vault
    case InvalidContributorTokenOwner =>
      && i.Release? && i.escrow in w.escrows && i.contributorToken in w.ledger.accounts
      && w.ledger.accounts[i.contributorToken].owner != w.escrows[i.escrow].contributor
    case InvalidStatus =>
      && !i.InitializeEscrow? && i.escrow in w.escrows
      && w.escrows[i.escrow].status != if i.Cancel? || i.FundEscrow? then Initialized else Funded
    case EscrowExpired =>
      (i.FundEscrow? || i.Release?) && i.escrow in w.escrows && w.escrows[i.escrow].expiry <= now
    case EscrowNotExpired => i.Refund? && i.escrow in w.escrows && now < w.escrows[i.escrow].expiry
  }

  lemma {:induction false} ErrorsAreTrue(w: World, i: Instruction, now: int)
    requires Executed(w, i, now).Err? && Executed(w, i, now).error.Program?
    ensures ErrorIsTrue(w, i, now, Executed(w, i, now).error.error)
  {
    hide Transfer;
  }

  // ----- the call that opened an escrow

  /** The call opens escrow `k` on exactly the terms that `e` records. */
  predicate Opens(step: Step, k: Pubkey, e: Escrow) {
    && step.Call? && step.i.InitializeEscrow? && step.i.escrow == k
    && e.sponsor == step.i.sponsor && e.maintainer == step.i.maintainer && e.contributor == step.i.contributor
    && e.mint == step.i.mint && e.vault == step.i.vault && e.reference == step.i.reference
    && e.amount == step.i.amount && e.expiry == step.i.expiry && e.createdAt == step.now
  }

  lemma {:induction false} StepOpens(a: Audit, step: Step, k: Pubkey)
    requires k in Stepped(a, step).world.escrows && k !in a.world.escrows
    ensures Opens(step, k, Stepped(a, step).world.escrows[k])
  {
    hide Transfer, AfterOutside, Credits;
  }

  lemma {:induction false} SameTermsOpen(step: Step, k: Pubkey, e: Escrow, later: Escrow)
    requires Opens(step, k, e) && later == e.(status := later.status)
    ensures Opens(step, k, later)
  {
  }

  lemma {:induction false} OpenedInRun(a: Audit, steps: seq<Step>, k: Pubkey) returns (n: nat)
    requires Runs(a, steps) && k in Reached(a, steps).world.escrows && k !in a.world.escrows
    ensures n < |steps| && Opens(steps[n], k, Reached(a, steps).world.escrows[k])
    decreases |steps|
  {
    var next := Stepped(a, steps[0]);
    if k in next.world.escrows {
      StepOpens(a, steps[0], k);
      TermsNeverChange(next, steps[1..], k);
      hide Stepped, HistoryOf;
      SameTermsOpen(steps[0], k, next.world.escrows[k], Reached(a, steps).world.escrows[k]);
      n := 0;
    } else {
      hide Stepped;
      n := OpenedInRun(next, steps[1..], k);
      n := n + 1;
    }
  }

  /** Every escrow of a run was opened by a call of that run, and holds exactly that call's terms and time. */
  lemma {:induction false} EscrowsWereOpened(a: Audit, steps: seq<Step>, k: Pubkey) returns (n: nat)
    requires Initial(a) && Runs(a, steps) && k in Reached(a, steps).world.escrows
    ensures n < |steps| && Opens(steps[n], k, Reached(a, steps).world.escrows[k])
  {
    n := OpenedInRun(a, steps, k);
  }

  // ----- who acts

  lemma {:induction false} PrefixRuns(a: Audit, steps: seq<Step>, n: nat)
    requires Runs(a, steps) && n <= |steps|
    ensures Runs(a, steps[..n])
    decreases |steps|
  {
    if n > 0 {
      hide CanStep, Stepped;
      PrefixRuns(Stepped(a, steps[0]), steps[1..], n - 1);
      assert steps[..n][1..] == steps[1..][..n - 1];
    }
  }

  /** The state in which step `n` of the run is made. */
  ghost function Before(a: Audit, steps: seq<Step>, n: nat): Audit
    requires n <= |steps|
  {
    Reached(a, steps[..n])
  }

  /** Step `n` is a successful call on an escrow that exists. */
  ghost predicate Acts(a: Audit, steps: seq<Step>, n: nat) {
    && n < |steps| && steps[n].Call? && !steps[n].i.InitializeEscrow?
    && Executed(Before(a, steps, n).world, steps[n].i, steps[n].now).Ok?
  }

  /** An account of the mint that belongs to the owner. */
  predicate AccountOf(w: World, k: Pubkey, mint: Pubkey, owner: Pubkey) {
    k in w.ledger.accounts && w.ledger.accounts[k].mint == mint && w.ledger.accounts[k].owner == owner
  }

  /** What the opening call `o` settles about a later call `i`: who signs it, and whose account it pays from or to. */
  predicate Entitled(w: World, i: Instruction, o: Instruction)
    requires o.InitializeEscrow?
  {
    match i
    case InitializeEscrow(_, _, _, _, _, _, _, _, _) => false
    case Cancel(sponsor, escrow) => sponsor == o.sponsor
    case FundEscrow(sponsor, mint, sponsorToken, escrow, vault) =>
      sponsor == o.sponsor && mint == o.mint && vault == o.vault && AccountOf(w, sponsorToken, o.mint, o.sponsor)
    case Release(maintainer, mint, escrow, vault, contributorToken) =>
      maintainer == o.maintainer && mint == o.mint && vault == o.vault && AccountOf(w, contributorToken, o.mint, o.contributor)
    case Refund(sponsor, mint, escrow, vault, sponsorToken) =>
      sponsor == o.sponsor && mint == o.mint && vault == o.vault && AccountOf(w, sponsorToken, o.mint, o.sponsor)
  }

  lemma {:induction false} EscrowExists(w: World, i: Instruction, now: int)
    requires !i.InitializeEscrow? && Executed(w, i, now).Ok?
    ensures i.escrow in w.escrows
  {
    hide Transfer;
  }

  lemma {:induction false} OpenerEntitles(w: World, i: Instruction, now: int, o: Step)
    requires !i.InitializeEscrow? && Executed(w, i, now).Ok? && i.escrow in w.escrows
    requires Opens(o, i.escrow, w.escrows[i.escrow])
    ensures Entitled(w, i, o.i)
  {
    hide Transfer;
  }

  /**
   Every successful cancel, funding, release and refund of a run goes back to the call
   that opened its escrow: it is signed by the sponsor, or for a release the maintainer,
   of that call, and pays from or to accounts of that call's sponsor or contributor.
   */
  lemma {:induction false} OnlyPartiesAct(a: Audit, steps: seq<Step>, n: nat) returns (m: nat)
    requires Initial(a) && Runs(a, steps) && Acts(a, steps, n)
    ensures m < n && steps[m].Call? && steps[m].i.InitializeEscrow? && steps[m].i.escrow == steps[n].i.escrow
    ensures Entitled(Before(a, steps, n).world, steps[n].i, steps[m].i)
    ensures Opens(steps[m], steps[n].i.escrow, Before(a, steps, n).world.escrows[steps[n].i.escrow])
  {
    var w, i, now := Before(a, steps, n).world, steps[n].i, steps[n].now;
    PrefixRuns(a, steps, n);
    EscrowExists(w, i, now);
    m := EscrowsWereOpened(a, steps[..n], i.escrow);
    OpenerEntitles(w, i, now, steps[m]);
  }

  // ----- what each instruction does, and to what alone

  /** The status an instruction leaves its escrow in. */
  function StatusAfter(i: Instruction): Status {
    match i
    case InitializeEscrow(_, _, _, _, _, _, _, _, _) => Initialized
    case Cancel(_, _) => Cancelled
    case FundEscrow(_, _, _, _, _) => Funded
    case Release(_, _, _, _, _) => Released
    case Refund(_, _, _, _, _) => Refunded
  }

  /** A successful instruction sets the status of its own escrow, keeps its terms, and touches no other escrow. */
  lemma {:induction false} OnlyOwnEscrowChanges(w: World, i: Instruction, now: int)
    requires Executed(w, i, now).Ok?
    ensures var t := Executed(w, i, now).value.0;
      && t.escrows.Keys == w.escrows.Keys + {i.escrow}
      && t.escrows[i.escrow].status == StatusAfter(i)
      && (i.escrow in w.escrows ==> t.escrows[i.escrow] == w.escrows[i.escrow].(status := StatusAfter(i)))
      && forall k :: k in w.escrows && k != i.escrow ==> t.escrows[k] == w.escrows[k]
  {
    hide Transfer;
  }

  /** A funding moves exactly the opened amount from the sponsor's account into the vault, and no other token. */
  lemma {:induction false} FundingPays(w: World, i: Instruction, now: int)
    requires i.FundEscrow? && Executed(w, i, now).Ok?
    ensures i.escrow in w.escrows && i.sponsorToken in w.ledger.accounts && i.vault in w.ledger.accounts
    ensures var e, before, after := w.escrows[i.escrow], w.ledger.accounts, Executed(w, i, now).value.0.ledger.accounts;
      && e.amount <= before[i.sponsorToken].amount && after.Keys == before.Keys
      && forall k :: k in after ==>
          after[k].amount ==
            before[k].amount - (if k == i.sponsorToken then e.amount else 0) + (if k == i.vault then e.amount else 0)
  {
    hide Total;
    var e := w.escrows[i.escrow];
    TransferConserves(w.ledger, i.sponsorToken, e.mint, e.vault, i.sponsor, e.amount);
  }
}
