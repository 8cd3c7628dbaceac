/**
 Every run of the escrow program among any number of escrows and token accounts,
 with anything the owners of other accounts may do in between
 (programs/oss-bounty-escrow/src/lib.rs, programs/oss-bounty-escrow/src/rules.rs).
 */
module EscrowAudit {
  import opened ByteStrings
  import opened EscrowProgram
  import opened EscrowRules
  import opened Outcomes
  import opened TokenLedger

  // ----- what others may do

  /** Only wallets sign; accounts owned by a program address move only when the program says so. */
  datatype OutsideMove =
    | OpenMint(newMint: nat)
    | OpenAccount(address: nat, mint: Pubkey, holder: Pubkey)
    | Move(owner: nat, from: Pubkey, mint: Pubkey, to: Pubkey, amount: nat)
    | MintTo(mint: Pubkey, to: Pubkey, amount: nat)
    | Burn(owner: nat, from: Pubkey, amount: nat)
    | Reassign(owner: nat, account: Pubkey, newOwner: Pubkey)

  /** The ledger after a move, unchanged when the move fails. */
  function AfterOutside(l: Ledger, m: OutsideMove): Ledger {
    match m
    case OpenMint(mint) =>
      if Wallet(mint) in l.mints then l else l.(mints := l.mints[Wallet(mint) := Mint(0)])
    case OpenAccount(address, mint, owner) =>
      if Wallet(address) in l.accounts || mint !in l.mints then l
      else l.(accounts := l.accounts[Wallet(address) := TokenAccount(mint, owner, 0)])
    case Move(owner, from, mint, to, amount) =>
      var moved := Transfer(l, from, mint, to, Wallet(owner), amount);
      if moved.Ok? then moved.value else l
    case MintTo(mint, to, amount) =>
      if mint !in l.mints || to !in l.accounts || l.accounts[to].mint != mint
         || l.mints[mint].supply + amount >= U64_LIMIT
      then l
      else Ledger(l.mints[mint := Mint(l.mints[mint].supply + amount)], Credited(l.accounts, to, amount))
    case Burn(owner, from, amount) =>
      if from !in l.accounts || l.accounts[from].owner != Wallet(owner) || l.accounts[from].amount < amount
         || l.accounts[from].mint !in l.mints || l.mints[l.accounts[from].mint].supply < amount
      then l
      else
        var mint := l.accounts[from].mint;
        Ledger(l.mints[mint := Mint(l.mints[mint].supply - amount)], Debited(l.accounts, from, amount))
    case Reassign(owner, account, newOwner) =>
      if account !in l.accounts || l.accounts[account].owner != Wallet(owner) then l
      else l.(accounts := l.accounts[account := l.accounts[account].(owner := newOwner)])
  }

  // ----- runs

  datatype Step = Call(i: Instruction, now: int) | Outside(m: OutsideMove)

  /** The world, what each account was credited without a funding, and each escrow's events. */
  datatype Audit = Audit(world: World, credits: map<Pubkey, nat>, history: map<Pubkey, seq<Event>>, now: int)

  function Signer(i: Instruction): Pubkey {
    match i
    case InitializeEscrow(sponsor, _, _, _, _, _, _, _, _) => sponsor
    case Cancel(sponsor, _) => sponsor
    case FundEscrow(sponsor, _, _, _, _) => sponsor
    case Release(maintainer, _, _, _, _) => maintainer
    case Refund(sponsor, _, _, _, _) => sponsor
  }

  /** The clock never runs backwards, and only wallets sign. */
  predicate CanStep(a: Audit, step: Step) {
    step.Call? ==> a.now <= step.now && Signer(step.i).Wallet?
  }

  function CreditOf(a: Audit, k: Pubkey): nat {
    if k in a.credits then a.credits[k] else 0
  }

  function HistoryOf(a: Audit, k: Pubkey): seq<Event> {
    if k in a.history then a.history[k] else []
  }

  function Noted(credits: map<Pubkey, nat>, to: Pubkey, amount: nat): map<Pubkey, nat> {
    credits[to := (if to in credits then credits[to] else 0) + amount]
  }

  /** Everything that reaches an account other than by a funding is an unsolicited credit of it. */
  function Credits(a: Audit, step: Step): map<Pubkey, nat> {
    match step
    case Call(i, now) =>
      if Executed(a.world, i, now).Ok? && i.Release?
      then Noted(a.credits, i.contributorToken, a.world.escrows[i.escrow].amount) else a.credits
    case Outside(m) =>
      if AfterOutside(a.world.ledger, m) == a.world.ledger then a.credits
      else if m.Move? || m.MintTo? then Noted(a.credits, m.to, m.amount)
      else a.credits
  }

  function Stepped(a: Audit, step: Step): Audit {
    match step
    case Call(i, now) =>
      (match Executed(a.world, i, now)
       case Ok((world, event)) =>
         Audit(world, Credits(a, step), a.history[i.escrow := HistoryOf(a, i.escrow) + [event]], now)
       case Err(_) => a.(now := now))
    case Outside(m) =>
      a.(world := a.world.(ledger := AfterOutside(a.world.ledger, m)), credits := Credits(a, step))
  }

  ghost predicate Runs(a: Audit, steps: seq<Step>)
    decreases |steps|
  {
    steps == [] || (CanStep(a, steps[0]) && Runs(Stepped(a, steps[0]), steps[1..]))
  }

  ghost function Reached(a: Audit, steps: seq<Step>): Audit
    decreases |steps|
  {
    if steps == [] then a else Reached(Stepped(a, steps[0]), steps[1..])
  }

  /** No escrow yet; any mints and any token accounts of wallets. */
  ghost predicate Initial(a: Audit) {
    && a.world.escrows == map[] && a.credits == map[] && a.history == map[]
    && Balanced(a.world.ledger)
    && forall k :: k in a.world.ledger.accounts ==> k.Wallet?
  }

  // ----- the invariant

  function Locked(e: Escrow): nat {
    if e.status == Funded then e.amount else 0
  }

  /** The escrow's vault holds what it was credited, and the recorded amount exactly while the escrow is funded. */
  ghost predicate VaultHolds(a: Audit, k: Pubkey)
    requires k in a.world.escrows
  {
    var e := a.world.escrows[k];
    var accounts := a.world.ledger.accounts;
    && e.sponsor.Wallet? && k == EscrowAddress(e.sponsor, e.reference) && e.vault == VaultAddress(k)
    && e.amount >= 1 && e.mint in a.world.ledger.mints
    && e.vault in accounts && accounts[e.vault].mint == e.mint && accounts[e.vault].owner == k
    && accounts[e.vault].amount == CreditOf(a, e.vault) + Locked(e)
  }

  /**
   Created before expiry, funded at most once and before expiry, then released before
   or refunded from expiry on; every event names the escrow and its parties.
   */
  predicate HistoryFits(h: seq<Event>, e: Escrow, now: int) {
    var k := EscrowAddress(e.sponsor, e.reference);
    && e.createdAt < e.expiry && e.createdAt <= now
    && |h| >= 1
    && h[0] == EscrowInitialized(
        e.createdAt, k, e.sponsor, e.maintainer, e.contributor, e.mint, e.vault, e.reference, e.amount, e.expiry)
    && match e.status
       case Initialized => |h| == 1
       case Cancelled =>
         |h| == 2 && h[1] == EscrowCancelled(h[1].at, k, e.sponsor) && e.createdAt <= h[1].at <= now
       case Funded => |h| == 2 && FundedInTime(h, e, now)
       case Released =>
         && |h| == 3 && FundedInTime(h, e, now)
         && h[2] == EscrowReleased(h[2].at, k, e.maintainer, e.contributor, e.amount)
         && h[1].at <= h[2].at <= now && h[2].at < e.expiry
       case Refunded =>
         && |h| == 3 && FundedInTime(h, e, now)
         && h[2] == EscrowRefunded(h[2].at, k, e.sponsor, e.amount) && e.expiry <= h[2].at <= now
  }

  predicate FundedInTime(h: seq<Event>, e: Escrow, now: int)
    requires |h| >= 2
  {
    && h[1] == EscrowFunded(h[1].at, EscrowAddress(e.sponsor, e.reference), e.sponsor, e.amount)
    && e.createdAt <= h[1].at <= now && h[1].at < e.expiry
  }

  ghost predicate EscrowHolds(a: Audit, k: Pubkey)
    requires k in a.world.escrows
  {
    VaultHolds(a, k) && HistoryFits(HistoryOf(a, k), a.world.escrows[k], a.now)
  }

  ghost predicate AccountKnown(a: Audit, k: Pubkey) {
    k.Wallet? || (k.VaultAddress? && k.escrow in a.world.escrows)
  }

  ghost predicate Inv(a: Audit) {
    && Balanced(a.world.ledger)
    && EscrowsHold(a)
    && (forall k :: k in a.history ==> k in a.world.escrows)
    && (forall k :: k in a.credits ==> k in a.world.ledger.accounts)
    && AccountsKnown(a)
  }

  ghost predicate EscrowsHold(a: Audit) {
    forall k :: k in a.world.escrows ==> EscrowHolds(a, k)
  }

  ghost predicate AccountsKnown(a: Audit) {
    forall k :: k in a.world.ledger.accounts ==> AccountKnown(a, k)
  }

  // ----- every step keeps it

  /** A ledger change that keeps every account's mint, and the owner of every account that no wallet owns. */
  ghost predicate KeepsVaults(l: Ledger, l': Ledger) {
    && (forall m :: m in l.mints ==> m in l'.mints)
    && forall k :: k in l.accounts ==>
        && k in l'.accounts && l'.accounts[k].mint == l.accounts[k].mint
        && (!l.accounts[k].owner.Wallet? ==> l'.accounts[k].owner == l.accounts[k].owner)
  }

  /** Still balanced, no vault touched in owner or mint, and every new account a wallet's. */
  ghost predicate Healthy(l: Ledger, l': Ledger) {
    && Balanced(l') && KeepsVaults(l, l')
    && forall k :: k in l'.accounts ==> k in l.accounts || k.Wallet?
  }

  lemma {:induction false} OpenMintKeeps(l: Ledger, m: OutsideMove)
    requires Balanced(l) && m.OpenMint? && AfterOutside(l, m) != l
    ensures Healthy(l, AfterOutside(l, m))
  {
    hide Total;
    var l' := AfterOutside(l, m);
    NoneOfNewMint(l.accounts, Wallet(m.newMint), l.mints);
  }

  lemma {:induction false} OpenAccountKeeps(l: Ledger, m: OutsideMove)
    requires Balanced(l) && m.OpenAccount? && AfterOutside(l, m) != l
    ensures Healthy(l, AfterOutside(l, m))
  {
    hide Total;
    var l' := AfterOutside(l, m);
    forall mint
      ensures Total(l'.accounts, mint) == Total(l.accounts, mint)
    {
      CountNew(l.accounts, mint, Wallet(m.address), TokenAccount(m.mint, m.holder, 0));
    }
  }

  lemma {:induction false} MoveKeeps(l: Ledger, m: OutsideMove)
    requires Balanced(l) && m.Move? && AfterOutside(l, m) != l
    ensures Healthy(l, AfterOutside(l, m))
  {
    hide Total;
    var l' := AfterOutside(l, m);
    TransferConserves(l, m.from, m.mint, m.to, Wallet(m.owner), m.amount);
  }

  lemma {:induction false} MintToKeeps(l: Ledger, m: OutsideMove)
    requires Balanced(l) && m.MintTo? && AfterOutside(l, m) != l
    ensures Healthy(l, AfterOutside(l, m))
  {
    hide Total;
    var l' := AfterOutside(l, m);
    forall mint
      ensures Total(l'.accounts, mint) == Total(l.accounts, mint) + if mint == m.mint then m.amount else 0
    {
      Recount(l.accounts, mint, m.to, l'.accounts[m.to]);
    }
  }

  lemma {:induction false} BurnKeeps(l: Ledger, m: OutsideMove)
    requires Balanced(l) && m.Burn? && AfterOutside(l, m) != l
    ensures Healthy(l, AfterOutside(l, m))
  {
    hide Total;
    var l' := AfterOutside(l, m);
    forall mint
      ensures Total(l'.accounts, mint) == Total(l.accounts, mint) - if mint == l.accounts[m.from].mint then m.amount else 0
    {
      Recount(l.accounts, mint, m.from, l'.accounts[m.from]);
    }
  }

  lemma {:induction false} ReassignKeeps(l: Ledger, m: OutsideMove)
    requires Balanced(l) && m.Reassign? && AfterOutside(l, m) != l
    ensures Healthy(l, AfterOutside(l, m))
  {
    hide Total;
    var l' := AfterOutside(l, m);
    forall mint
      ensures Total(l'.accounts, mint) == Total(l.accounts, mint)
    {
      Recount(l.accounts, mint, m.account, l'.accounts[m.account]);
    }
  }

  lemma {:induction false} OutsideKeepsBalance(l: Ledger, m: OutsideMove)
    requires Balanced(l)
    ensures Healthy(l, AfterOutside(l, m))
  {
    if AfterOutside(l, m) == l {
    } else if m.OpenMint? {
      OpenMintKeeps(l, m);
    } else if m.OpenAccount? {
      OpenAccountKeeps(l, m);
    } else if m.Move? {
      MoveKeeps(l, m);
    } else if m.MintTo? {
      MintToKeeps(l, m);
    } else if m.Burn? {
      BurnKeeps(l, m);
    } else {
      ReassignKeeps(l, m);
    }
    hide AfterOutside, Total;
  }

  lemma {:induction false} NoneOfNewMint(accounts: map<Pubkey, TokenAccount>, mint: Pubkey, mints: map<Pubkey, Mint>)
    requires mint !in mints && forall k :: k in accounts ==> accounts[k].mint in mints
    ensures Total(accounts, mint) == 0
    decreases |accounts|
  {
    if accounts != map[] {
      var k :| k in accounts;
      CountFirst(accounts, mint, k);
      NoneOfNewMint(accounts - {k}, mint, mints);
    }
  }

  /** What an outside move does to a vault is exactly the credit that is noted for it. */
  lemma {:induction false} OutsideCreditsVaults(a: Audit, m: OutsideMove, k: Pubkey)
    requires k in a.world.ledger.accounts && k.VaultAddress? && !a.world.ledger.accounts[k].owner.Wallet?
    ensures var t := Stepped(a, Outside(m));
      && k in t.world.ledger.accounts
      && t.world.ledger.accounts[k].amount - CreditOf(t, k) == a.world.ledger.accounts[k].amount - CreditOf(a, k)
  {
  }

  /** An escrow holds on as long as its vault changes by what is credited to it. */
  lemma {:induction false} HoldsOn(a: Audit, t: Audit, k: Pubkey)
    requires k in a.world.escrows && EscrowHolds(a, k)
    requires k in t.world.escrows && t.world.escrows[k] == a.world.escrows[k]
    requires HistoryOf(t, k) == HistoryOf(a, k) && a.now <= t.now
    requires KeepsVaults(a.world.ledger, t.world.ledger)
    requires var v := a.world.escrows[k].vault;
      && v in a.world.ledger.accounts && v in t.world.ledger.accounts
      && t.world.ledger.accounts[v].amount - CreditOf(t, v) == a.world.ledger.accounts[v].amount - CreditOf(a, v)
    ensures EscrowHolds(t, k)
  {
  }

  lemma {:induction false} OutsideCreditsKnown(a: Audit, m: OutsideMove)
    requires forall k :: k in a.credits ==> k in a.world.ledger.accounts
    requires KeepsVaults(a.world.ledger, AfterOutside(a.world.ledger, m))
    ensures var t := Stepped(a, Outside(m));
      && (forall k :: k in t.credits ==> k in t.world.ledger.accounts)
      && t.world.escrows == a.world.escrows && t.history == a.history && t.now == a.now
      && t.world.ledger == AfterOutside(a.world.ledger, m)
  {
  }

  lemma {:induction false} OutsideKeepsEscrow(a: Audit, m: OutsideMove, k: Pubkey)
    requires k in a.world.escrows && EscrowHolds(a, k)
    requires KeepsVaults(a.world.ledger, AfterOutside(a.world.ledger, m))
    ensures EscrowHolds(Stepped(a, Outside(m)), k)
  {
    assert VaultHolds(a, k);
    OutsideCreditsVaults(a, m, a.world.escrows[k].vault);
    var t := Stepped(a, Outside(m));
    assert HistoryOf(t, k) == HistoryOf(a, k);
    hide EscrowHolds, AfterOutside, Credits;
    HoldsOn(a, t, k);
  }

  lemma {:induction false} OutsideKeeps(a: Audit, m: OutsideMove)
    requires Inv(a)
    ensures Inv(Stepped(a, Outside(m)))
  {
    var t := Stepped(a, Outside(m));
    hide Balanced, EscrowHolds, AfterOutside, Stepped, KeepsVaults, AccountsKnown, Healthy;
    OutsideKeepsBalance(a.world.ledger, m);
    HealthyParts(a.world.ledger, AfterOutside(a.world.ledger, m));
    OutsideCreditsKnown(a, m);
    assert EscrowsHold(t) by {
      forall k | k in t.world.escrows
        ensures EscrowHolds(t, k)
      {
        OutsideKeepsEscrow(a, m, k);
      }
    }
    hide EscrowsHold;
    AccountsStayKnown(a, t);
  }

  lemma {:induction false} HealthyParts(l: Ledger, l': Ledger)
    requires Healthy(l, l')
    ensures Balanced(l') && KeepsVaults(l, l')
    ensures forall k :: k in l'.accounts ==> k in l.accounts || k.Wallet?
  {
  }

  lemma {:induction false} AccountsStayKnown(a: Audit, t: Audit)
    requires AccountsKnown(a) && a.world.escrows.Keys <= t.world.escrows.Keys
    requires forall k :: k in t.world.ledger.accounts ==>
      k in a.world.ledger.accounts || k.Wallet? || (k.VaultAddress? && k.escrow in t.world.escrows)
    ensures AccountsKnown(t)
  {
    forall k | k in t.world.ledger.accounts
      ensures AccountKnown(t, k)
    {
      assert k in a.world.ledger.accounts ==> AccountKnown(a, k);
    }
  }

  // ----- the program's own steps

  /** How much more an escrow's vault holds, above its credits, after an instruction on that escrow. */
  function Gain(i: Instruction, e: Escrow): int {
    if i.FundEscrow? then e.amount else if i.Release? || i.Refund? then 0 - e.amount else 0
  }

  ghost predicate Callable(a: Audit, i: Instruction, now: int) {
    && Balanced(a.world.ledger) && i.escrow in a.world.escrows && EscrowHolds(a, i.escrow)
    && Executed(a.world, i, now).Ok? && Signer(i).Wallet?
  }

  /** Beyond what is credited, only the vault of the instruction's own escrow changes, by the instruction's gain. */
  ghost predicate TokensMoved(a: Audit, t: Audit, i: Instruction)
    requires i.escrow in a.world.escrows
  {
    var before, after := a.world.ledger, t.world.ledger;
    && Balanced(after) && KeepsVaults(before, after) && after.accounts.Keys == before.accounts.Keys
    && (forall k :: k in t.credits ==> k in a.credits || k in before.accounts)
    && forall k :: k in before.accounts && !before.accounts[k].owner.Wallet? ==>
        after.accounts[k].amount - CreditOf(t, k) == before.accounts[k].amount - CreditOf(a, k) +
          (if k == a.world.escrows[i.escrow].vault then Gain(i, a.world.escrows[i.escrow]) else 0)
  }

  /** The instruction's escrow keeps its terms; its status and its history move on together. */
  ghost predicate EscrowMoved(a: Audit, t: Audit, i: Instruction, now: int)
    requires i.escrow in a.world.escrows
  {
    && t.world.escrows.Keys == a.world.escrows.Keys
    && (forall k :: k in a.world.escrows && k != i.escrow ==> t.world.escrows[k] == a.world.escrows[k])
    && (forall k :: k != i.escrow ==> HistoryOf(t, k) == HistoryOf(a, k))
    && t.history.Keys == a.history.Keys + {i.escrow} && t.now == now
    && var e, e' := a.world.escrows[i.escrow], t.world.escrows[i.escrow];
      && e' == e.(status := e'.status)
      && Locked(e') == Locked(e) + Gain(i, e)
      && HistoryFits(HistoryOf(t, i.escrow), e', now)
  }

  lemma {:induction false} CancelMovesTokens(a: Audit, i: Instruction, now: int)
    requires i.Cancel? && Callable(a, i, now)
    ensures TokensMoved(a, Stepped(a, Call(i, now)), i)
  {
    hide Total, HistoryFits;
  }

  lemma {:induction false} CancelMovesEscrow(a: Audit, i: Instruction, now: int)
    requires i.Cancel? && Callable(a, i, now) && a.now <= now
    ensures EscrowMoved(a, Stepped(a, Call(i, now)), i, now)
  {
    assert i.escrow == EscrowAddress(a.world.escrows[i.escrow].sponsor, a.world.escrows[i.escrow].reference);
    hide VaultHolds, Balanced, Credits, Transfer;
  }

  lemma {:induction false} FundEscrowMovesTokens(a: Audit, i: Instruction, now: int)
    requires i.FundEscrow? && Callable(a, i, now)
    ensures TokensMoved(a, Stepped(a, Call(i, now)), i)
  {
    hide Total, HistoryFits;
    var e := a.world.escrows[i.escrow];
    TransferConserves(a.world.ledger, i.sponsorToken, e.mint, e.vault, i.sponsor, e.amount);
  }

  lemma {:induction false} FundEscrowMovesEscrow(a: Audit, i: Instruction, now: int)
    requires i.FundEscrow? && Callable(a, i, now) && a.now <= now
    ensures EscrowMoved(a, Stepped(a, Call(i, now)), i, now)
  {
    assert i.escrow == EscrowAddress(a.world.escrows[i.escrow].sponsor, a.world.escrows[i.escrow].reference);
    hide VaultHolds, Balanced, Credits, Transfer;
  }

  lemma {:induction false} ReleaseMovesTokens(a: Audit, i: Instruction, now: int)
    requires i.Release? && Callable(a, i, now)
    ensures TokensMoved(a, Stepped(a, Call(i, now)), i)
  {
    hide Total, HistoryFits;
    var e := a.world.escrows[i.escrow];
    TransferConserves(a.world.ledger, e.vault, e.mint, i.contributorToken, i.escrow, e.amount);
  }

  lemma {:induction false} ReleaseMovesEscrow(a: Audit, i: Instruction, now: int)
    requires i.Release? && Callable(a, i, now) && a.now <= now
    ensures EscrowMoved(a, Stepped(a, Call(i, now)), i, now)
  {
    assert i.escrow == EscrowAddress(a.world.escrows[i.escrow].sponsor, a.world.escrows[i.escrow].reference);
    hide VaultHolds, Balanced, Credits, Transfer;
  }

  lemma {:induction false} RefundMovesTokens(a: Audit, i: Instruction, now: int)
    requires i.Refund? && Callable(a, i, now)
    ensures TokensMoved(a, Stepped(a, Call(i, now)), i)
  {
    hide Total, HistoryFits;
    var e := a.world.escrows[i.escrow];
    TransferConserves(a.world.ledger, e.vault, e.mint, i.sponsorToken, i.escrow, e.amount);
  }

  lemma {:induction false} RefundMovesEscrow(a: Audit, i: Instruction, now: int)
    requires i.Refund? && Callable(a, i, now) && a.now <= now
    ensures EscrowMoved(a, Stepped(a, Call(i, now)), i, now)
  {
    assert i.escrow == EscrowAddress(a.world.escrows[i.escrow].sponsor, a.world.escrows[i.escrow].reference);
    hide VaultHolds, Balanced, Credits, Transfer;
  }

  lemma {:induction false} MovedMeansKept(a: Audit, t: Audit, i: Instruction, now: int)
    requires Inv(a) && i.escrow in a.world.escrows && a.now <= now
    requires TokensMoved(a, t, i) && EscrowMoved(a, t, i, now)
    ensures Inv(t)
  {
    hide Balanced, HistoryFits, EscrowHolds, AccountsKnown, KeepsVaults;
    forall k | k in t.world.escrows
      ensures EscrowHolds(t, k)
    {
      MovedKeepsEscrow(a, t, i, now, k);
    }
    AccountsStayKnown(a, t);
  }

  lemma {:induction false} MovedKeepsEscrow(a: Audit, t: Audit, i: Instruction, now: int, k: Pubkey)
    requires i.escrow in a.world.escrows && a.now <= now && TokensMoved(a, t, i) && EscrowMoved(a, t, i, now)
    requires k in a.world.escrows && EscrowHolds(a, k) && EscrowHolds(a, i.escrow)
    ensures k in t.world.escrows && EscrowHolds(t, k)
  {
    hide Balanced;
    assert VaultHolds(a, k) && VaultHolds(a, i.escrow);
    if k != i.escrow {
      HistoryLasts(HistoryOf(a, k), a.world.escrows[k], a.now, now);
    }
    hide HistoryFits;
  }

  lemma {:induction false} HistoryLasts(h: seq<Event>, e: Escrow, now: int, later: int)
    requires HistoryFits(h, e, now) && now <= later
    ensures HistoryFits(h, e, later)
  {
  }

  lemma {:induction false} InitializeKeeps(a: Audit, i: Instruction, now: int)
    requires Inv(a) && i.InitializeEscrow? && Executed(a.world, i, now).Ok? && Signer(i).Wallet? && a.now <= now
    ensures Inv(Stepped(a, Call(i, now)))
  {
    var t := Stepped(a, Call(i, now));
    hide Balanced, EscrowHolds, HistoryFits, AccountsKnown, KeepsVaults, Stepped, Executed;
    InitializeParts(a, i, now);
    OpeningBalances(a.world.ledger, VaultAddress(i.escrow), i.mint, i.escrow);
    assert EscrowsHold(t) by {
      forall k | k in t.world.escrows
        ensures EscrowHolds(t, k)
      {
        if k == i.escrow {
          NewEscrowHolds(a, i, now);
        } else {
          HoldsBesideNew(a, i, now, k);
        }
      }
    }
    hide EscrowsHold;
    AccountsStayKnown(a, t);
  }

  lemma {:induction false} InitializeParts(a: Audit, i: Instruction, now: int)
    requires i.InitializeEscrow? && Executed(a.world, i, now).Ok?
    ensures i.escrow !in a.world.escrows && i.mint in a.world.ledger.mints
    ensures VaultAddress(i.escrow) !in a.world.ledger.accounts
    ensures var t := Stepped(a, Call(i, now));
      && t.world.escrows.Keys == a.world.escrows.Keys + {i.escrow}
      && t.world.ledger == a.world.ledger.(accounts :=
          a.world.ledger.accounts[VaultAddress(i.escrow) := TokenAccount(i.mint, i.escrow, 0)])
      && t.history.Keys == a.history.Keys + {i.escrow} && t.credits == a.credits && t.now == now
  {
  }

  lemma {:induction false} NewEscrowHolds(a: Audit, i: Instruction, now: int)
    requires i.InitializeEscrow? && Executed(a.world, i, now).Ok? && i.sponsor.Wallet?
    requires i.escrow !in a.history && VaultAddress(i.escrow) !in a.credits
    ensures i.escrow in Stepped(a, Call(i, now)).world.escrows && EscrowHolds(Stepped(a, Call(i, now)), i.escrow)
  {
  }

  lemma {:induction false} HoldsBesideNew(a: Audit, i: Instruction, now: int, k: Pubkey)
    requires i.InitializeEscrow? && Executed(a.world, i, now).Ok? && a.now <= now
    requires k in a.world.escrows && k != i.escrow && EscrowHolds(a, k)
    ensures EscrowHolds(Stepped(a, Call(i, now)), k)
  {
    assert VaultHolds(a, k);
    HistoryLasts(HistoryOf(a, k), a.world.escrows[k], a.now, now);
    hide HistoryFits;
  }

  lemma {:induction false} OpeningBalances(l: Ledger, k: Pubkey, mint: Pubkey, owner: Pubkey)
    requires Balanced(l) && k !in l.accounts && mint in l.mints
    ensures var l' := l.(accounts := l.accounts[k := TokenAccount(mint, owner, 0)]);
      Balanced(l') && KeepsVaults(l, l')
  {
    hide Total;
    forall m
      ensures Total(l.accounts[k := TokenAccount(mint, owner, 0)], m) == Total(l.accounts, m)
    {
      CountNew(l.accounts, m, k, TokenAccount(mint, owner, 0));
    }
  }

  lemma {:induction false} CallKeeps(a: Audit, i: Instruction, now: int)
    requires Inv(a) && CanStep(a, Call(i, now))
    ensures Inv(Stepped(a, Call(i, now)))
  {
    if Executed(a.world, i, now).Err? {
      FailureKeeps(a, now);
    } else if i.InitializeEscrow? {
      InitializeKeeps(a, i, now);
    } else {
      assert Callable(a, i, now);
      hide Executed, Inv, EscrowMoved, TokensMoved, Stepped, Callable;
      if i.Cancel? {
        CancelMovesTokens(a, i, now);
        CancelMovesEscrow(a, i, now);
      } else if i.FundEscrow? {
        FundEscrowMovesTokens(a, i, now);
        FundEscrowMovesEscrow(a, i, now);
      } else if i.Release? {
        ReleaseMovesTokens(a, i, now);
        ReleaseMovesEscrow(a, i, now);
      } else {
        RefundMovesTokens(a, i, now);
        RefundMovesEscrow(a, i, now);
      }
      MovedMeansKept(a, Stepped(a, Call(i, now)), i, now);
    }
  }

  /** Only the clock moves on. */
  lemma {:induction false} FailureKeeps(a: Audit, now: int)
    requires Inv(a) && a.now <= now
    ensures Inv(a.(now := now))
  {
    var t := a.(now := now);
    hide HistoryFits, Balanced, AccountsKnown;
    forall k | k in t.world.escrows
      ensures EscrowHolds(t, k)
    {
      assert EscrowHolds(a, k) && VaultHolds(a, k);
      HistoryLasts(HistoryOf(a, k), a.world.escrows[k], a.now, now);
    }
    AccountsStayKnown(a, t);
  }

  lemma {:induction false} RunKeeps(a: Audit, steps: seq<Step>)
    requires Inv(a) && Runs(a, steps)
    ensures Inv(Reached(a, steps))
    decreases |steps|
  {
    if steps != [] {
      match steps[0] {
        case Call(i, now) => CallKeeps(a, i, now);
        case Outside(m) => OutsideKeeps(a, m);
      }
      RunKeeps(Stepped(a, steps[0]), steps[1..]);
    }
  }

  // ----- what holds in every run

  /** Every vault holds its unsolicited credits, plus the recorded amount exactly while its escrow is funded. */
  lemma {:induction false} VaultsAreAccounted(a: Audit, steps: seq<Step>, k: Pubkey)
    requires Initial(a) && Runs(a, steps) && k in Reached(a, steps).world.escrows
    ensures var t := Reached(a, steps);
      var e := t.world.escrows[k];
      && e.vault == VaultAddress(k) && e.vault in t.world.ledger.accounts
      && t.world.ledger.accounts[e.vault].amount == CreditOf(t, e.vault) + if e.status == Funded then e.amount else 0
  {
    RunKeeps(a, steps);
    assert EscrowHolds(Reached(a, steps), k);
  }

  /** The accounts of every mint together hold its supply. */
  lemma {:induction false} TokensAreConserved(a: Audit, steps: seq<Step>)
    requires Initial(a) && Runs(a, steps)
    ensures var l := Reached(a, steps).world.ledger;
      forall m :: m in l.mints ==> Total(l.accounts, m) == l.mints[m].supply
  {
    RunKeeps(a, steps);
  }

  /** One life of an escrow: created, then cancelled, or funded before expiry, then settled once, in time, in full. */
  lemma {:induction false} HistoriesAreLawful(a: Audit, steps: seq<Step>, k: Pubkey)
    requires Initial(a) && Runs(a, steps)
    ensures var t := Reached(a, steps);
      && (k in t.world.escrows <==> HistoryOf(t, k) != [])
      && (k in t.world.escrows ==>
            && k == EscrowAddress(t.world.escrows[k].sponsor, t.world.escrows[k].reference)
            && HistoryFits(HistoryOf(t, k), t.world.escrows[k], t.now))
  {
    RunKeeps(a, steps);
    if k in Reached(a, steps).world.escrows {
      assert EscrowHolds(Reached(a, steps), k);
    }
  }

  /**
   Whatever happened before: before expiry the maintainer can release a funded
   escrow, from expiry on the sponsor can have it refunded, and never the other way round.
   */
  lemma {:induction false} FundedCanBeSettled(a: Audit, steps: seq<Step>, k: Pubkey, to: Pubkey, now: int)
    requires Initial(a) && Runs(a, steps)
    requires k in Reached(a, steps).world.escrows && Reached(a, steps).world.escrows[k].status == Funded
    requires IsToken(Reached(a, steps).world.ledger, to, Reached(a, steps).world.escrows[k].mint)
    ensures var w := Reached(a, steps).world;
      var e := w.escrows[k];
      && (w.ledger.accounts[to].owner == e.contributor ==>
            (Executed(w, Release(e.maintainer, e.mint, k, e.vault, to), now).Ok? <==> now < e.expiry))
      && (w.ledger.accounts[to].owner == e.sponsor ==>
            (Executed(w, Refund(e.sponsor, e.mint, k, e.vault, to), now).Ok? <==> e.expiry <= now))
  {
    RunKeeps(a, steps);
    var t := Reached(a, steps);
    var e := t.world.escrows[k];
    assert EscrowHolds(t, k) && VaultHolds(t, k);
    hide Inv, Runs, Reached, HistoryFits, EscrowHolds;
    assert Balanced(t.world.ledger) by {
      InvBalances(t);
    }
    FundedMoves(t, k, to);
    hide VaultHolds, Balanced;
    ReleaseWhenMovable(t.world, k, to, now);
    RefundWhenMovable(t.world, k, to, now);
  }

  ghost predicate Movable(w: World, k: Pubkey, to: Pubkey) {
    && k in w.escrows && w.escrows[k].status == Funded && IsToken(w.ledger, to, w.escrows[k].mint)
    && var e := w.escrows[k];
      Transfer(w.ledger, e.vault, e.mint, to, k, e.amount).Ok? && CheckEscrow(w, k, e.mint, e.vault) == Ok(e)
  }

  lemma {:induction false} ReleaseWhenMovable(w: World, k: Pubkey, to: Pubkey, now: int)
    requires Movable(w, k, to)
    ensures var e := w.escrows[k];
      w.ledger.accounts[to].owner == e.contributor ==>
        (Executed(w, Release(e.maintainer, e.mint, k, e.vault, to), now).Ok? <==> now < e.expiry)
  {
    hide Transfer, CheckEscrow;
  }

  lemma {:induction false} RefundWhenMovable(w: World, k: Pubkey, to: Pubkey, now: int)
    requires Movable(w, k, to)
    ensures var e := w.escrows[k];
      w.ledger.accounts[to].owner == e.sponsor ==>
        (Executed(w, Refund(e.sponsor, e.mint, k, e.vault, to), now).Ok? <==> e.expiry <= now)
  {
    hide Transfer, CheckEscrow;
  }

  lemma {:induction false} InvBalances(a: Audit)
    requires Inv(a)
    ensures Balanced(a.world.ledger)
  {
  }

  lemma {:induction false} FundedMoves(t: Audit, k: Pubkey, to: Pubkey)
    requires k in t.world.escrows && VaultHolds(t, k) && t.world.escrows[k].status == Funded
    requires Balanced(t.world.ledger) && IsToken(t.world.ledger, to, t.world.escrows[k].mint)
    ensures Movable(t.world, k, to)
  {
    var e := t.world.escrows[k];
    TransferNeverOverflows(t.world.ledger, e.vault, e.mint, to, k, e.amount);
    hide Balanced;
  }

  /** A settlement pays the recorded amount out of the vault, to the contributor's account or back to the sponsor's. */
  lemma {:induction false} SettlementPays(w: World, i: Instruction, now: int)
    requires (i.Release? || i.Refund?) && Executed(w, i, now).Ok?
    ensures
      var e := w.escrows[i.escrow];
      var to := if i.Release? then i.contributorToken else i.sponsorToken;
      var after := Executed(w, i, now).value.0.ledger.accounts;
      && i.escrow in w.escrows && e.vault in w.ledger.accounts && to in w.ledger.accounts
      && w.ledger.accounts[to].owner == (if i.Release? then e.contributor else e.sponsor)
      && e.amount <= w.ledger.accounts[e.vault].amount
      && after.Keys == w.ledger.accounts.Keys
      && (forall k :: k in after ==>
            after[k].amount ==
              w.ledger.accounts[k].amount - (if k == e.vault then e.amount else 0) + (if k == to then e.amount else 0))
  {
    hide Total;
    var e := w.escrows[i.escrow];
    var to := if i.Release? then i.contributorToken else i.sponsorToken;
    TransferConserves(w.ledger, e.vault, e.mint, to, i.escrow, e.amount);
  }

  /** An escrow's terms never change once it exists, and its events are only ever added to. */
  lemma {:induction false} TermsNeverChange(a: Audit, steps: seq<Step>, k: Pubkey)
    requires k in a.world.escrows && Runs(a, steps)
    ensures var t := Reached(a, steps);
      && k in t.world.escrows
      && t.world.escrows[k] == a.world.escrows[k].(status := t.world.escrows[k].status)
      && HistoryOf(a, k) <= HistoryOf(t, k)
    decreases |steps|
  {
    if steps != [] {
      StepKeepsTerms(a, steps[0], k);
      hide Stepped, HistoryOf;
      TermsNeverChange(Stepped(a, steps[0]), steps[1..], k);
    }
  }

  lemma {:induction false} StepKeepsTerms(a: Audit, step: Step, k: Pubkey)
    requires k in a.world.escrows
    ensures var t := Stepped(a, step);
      && k in t.world.escrows
      && t.world.escrows[k] == a.world.escrows[k].(status := t.world.escrows[k].status)
      && HistoryOf(a, k) <= HistoryOf(t, k)
  {
    hide Transfer, AfterOutside, Credits;
  }
}
