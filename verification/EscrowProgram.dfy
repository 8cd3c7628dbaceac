/**
 The escrow program's five instructions, with the checks on the accounts they are
 given, over the escrow accounts and the token ledger
 (programs/oss-bounty-escrow/src/lib.rs).
 */
module EscrowProgram {
  import opened ByteStrings
  import opened EscrowRules
  import opened Outcomes
  import opened TokenLedger

  datatype Escrow = Escrow(
    sponsor: Pubkey, maintainer: Pubkey, contributor: Pubkey, mint: Pubkey, vault: Pubkey, reference: Bytes,
    amount: nat, createdAt: int, expiry: int, status: Status)

  datatype World = World(escrows: map<Pubkey, Escrow>, ledger: Ledger)

  /** An instruction, its signer and the accounts and arguments the caller chose. */
  datatype Instruction =
    | InitializeEscrow(
        sponsor: Pubkey, mint: Pubkey, escrow: Pubkey, vault: Pubkey, reference: Bytes, amount: nat, expiry: int,
        maintainer: Pubkey, contributor: Pubkey)
    | Cancel(sponsor: Pubkey, escrow: Pubkey)
    | FundEscrow(sponsor: Pubkey, mint: Pubkey, sponsorToken: Pubkey, escrow: Pubkey, vault: Pubkey)
    | Release(maintainer: Pubkey, mint: Pubkey, escrow: Pubkey, vault: Pubkey, contributorToken: Pubkey)
    | Refund(sponsor: Pubkey, mint: Pubkey, escrow: Pubkey, vault: Pubkey, sponsorToken: Pubkey)

  /** What an instruction announces, and when. */
  datatype Event =
    | EscrowInitialized(
        at: int, escrow: Pubkey, sponsor: Pubkey, maintainer: Pubkey, contributor: Pubkey, mint: Pubkey, vault: Pubkey,
        reference: Bytes, amount: nat, expiry: int)
    | EscrowCancelled(at: int, escrow: Pubkey, sponsor: Pubkey)
    | EscrowFunded(at: int, escrow: Pubkey, sponsor: Pubkey, amount: nat)
    | EscrowReleased(at: int, escrow: Pubkey, maintainer: Pubkey, contributor: Pubkey, amount: nat)
    | EscrowRefunded(at: int, escrow: Pubkey, sponsor: Pubkey, amount: nat)

  datatype Failure = Program(error: EscrowError) | Constraint | Token(tokenError: TokenError)

  // ----- checks on accounts

  function IsToken(l: Ledger, k: Pubkey, mint: Pubkey): bool {
    k in l.accounts && l.accounts[k].mint == mint
  }

  predicate IsTokenOf(l: Ledger, k: Pubkey, mint: Pubkey, owner: Pubkey) {
    IsToken(l, k, mint) && l.accounts[k].owner == owner
  }

  /** The escrow, its mint and its vault are the recorded ones. */
  function CheckEscrow(w: World, escrow: Pubkey, mint: Pubkey, vault: Pubkey): Result<Escrow, Failure> {
    if mint !in w.ledger.mints || escrow !in w.escrows || w.escrows[escrow].mint != mint then Err(Constraint)
    else if w.escrows[escrow].vault != vault then Err(Program(InvalidVault))
    else if !IsTokenOf(w.ledger, vault, mint, escrow) then Err(Constraint)
    else Ok(w.escrows[escrow])
  }

  // ----- the instructions

  function WithStatus(w: World, escrow: Pubkey, status: Status): World
    requires escrow in w.escrows
  {
    w.(escrows := w.escrows[escrow := w.escrows[escrow].(status := status)])
  }

  /** Moves the recorded amount and sets the status, or does neither. */
  function Moved(w: World, escrow: Pubkey, from: Pubkey, to: Pubkey, authority: Pubkey, status: Status)
    : Result<World, Failure>
    requires escrow in w.escrows
  {
    var e := w.escrows[escrow];
    match Transfer(w.ledger, from, e.mint, to, authority, e.amount)
    case Err(error) => Err(Token(error))
    case Ok(ledger) => Ok(WithStatus(w.(ledger := ledger), escrow, status))
  }

  /** The world and the event after an instruction at the given time, or why it fails; a failure changes nothing. */
  function Executed(w: World, i: Instruction, now: int): Result<(World, Event), Failure> {
    match i
    case InitializeEscrow(sponsor, mint, escrow, vault, reference, amount, expiry, maintainer, contributor) =>
      if mint !in w.ledger.mints || escrow != EscrowAddress(sponsor, reference) || escrow in w.escrows
         || vault != VaultAddress(escrow) || vault in w.ledger.accounts
      then Err(Constraint)
      else
        var checked := ValidateInitialization(reference, amount, now, expiry, maintainer, contributor);
        if checked.Err? then Err(Program(checked.error))
        else
          var withVault := w.ledger.(accounts := w.ledger.accounts[vault := TokenAccount(mint, escrow, 0)]);
          var e := Escrow(sponsor, maintainer, contributor, mint, vault, reference, amount, now, expiry, Initialized);
          Ok((World(w.escrows[escrow := e], withVault),
              EscrowInitialized(now, escrow, sponsor, maintainer, contributor, mint, vault, reference, amount, expiry)))
    case Cancel(sponsor, escrow) =>
      if escrow !in w.escrows || w.escrows[escrow].sponsor != sponsor then Err(Constraint)
      else
        var next := CanCancel(w.escrows[escrow].status);
        if next.Err? then Err(Program(next.error))
        else Ok((WithStatus(w, escrow, next.value), EscrowCancelled(now, escrow, w.escrows[escrow].sponsor)))
    case FundEscrow(sponsor, mint, sponsorToken, escrow, vault) =>
      if !IsTokenOf(w.ledger, sponsorToken, mint, sponsor) || escrow !in w.escrows || w.escrows[escrow].sponsor != sponsor
      then Err(Constraint)
      else
        var e :- CheckEscrow(w, escrow, mint, vault);
        var next := CanFund(e.status, now, e.expiry);
        if next.Err? then Err(Program(next.error))
        else
          var after :- Moved(w, escrow, sponsorToken, vault, sponsor, next.value);
          Ok((after, EscrowFunded(now, escrow, e.sponsor, e.amount)))
    case Release(maintainer, mint, escrow, vault, contributorToken) =>
      if escrow !in w.escrows || w.escrows[escrow].maintainer != maintainer then Err(Constraint)
      else
        var e :- CheckEscrow(w, escrow, mint, vault);
        if !IsToken(w.ledger, contributorToken, mint) then Err(Constraint)
        else if w.ledger.accounts[contributorToken].owner != e.contributor then
          Err(Program(InvalidContributorTokenOwner))
        else
          var next := CanRelease(e.status, now, e.expiry);
          if next.Err? then Err(Program(next.error))
          else
            var after :- Moved(w, escrow, vault, contributorToken, escrow, next.value);
            Ok((after, EscrowReleased(now, escrow, e.maintainer, e.contributor, e.amount)))
    case Refund(sponsor, mint, escrow, vault, sponsorToken) =>
      var e :- CheckEscrow(w, escrow, mint, vault);
      if !IsTokenOf(w.ledger, sponsorToken, mint, sponsor) then Err(Constraint)
      else
        var owner := ValidateSponsor(e.sponsor, sponsor);
        if owner.Err? then Err(Program(owner.error))
        else
          var next := CanRefund(e.status, now, e.expiry);
          if next.Err? then Err(Program(next.error))
          else
            var after :- Moved(w, escrow, vault, sponsorToken, escrow, next.value);
            Ok((after, EscrowRefunded(now, escrow, e.sponsor, e.amount)))
  }

  /** What a handler leaves behind: the new world and its event, or the old world. */
  ghost predicate Outcome(before: World, after: World, i: Instruction, now: int, r: Result<Event, Failure>) {
    match Executed(before, i, now)
    case Ok((world, event)) => r == Ok(event) && after == world
    case Err(failure) => r == Err(failure) && after == before
  }

  // ----- the program over accounts that it updates in place

  /**
   Each handler does to the accounts what its instruction function says. What that is
   worth is proved over runs of those functions: EscrowAudit.VaultsAreAccounted,
   TokensAreConserved and HistoriesAreLawful.
   */
  class Bank {
    var escrows: map<Pubkey, Escrow>
    var ledger: Ledger

    constructor (world: World)
      ensures Contents() == world
    {
      escrows, ledger := world.escrows, world.ledger;
    }

    function Contents(): World
      reads this
    {
      World(escrows, ledger)
    }

    /** Opens an escrow; EscrowAudit.HistoriesAreLawful: once for each sponsor and reference. */
    method Initialize(
      sponsor: Pubkey, mint: Pubkey, escrow: Pubkey, vault: Pubkey, reference: Bytes, amount: nat, expiry: int,
      maintainer: Pubkey, contributor: Pubkey, now: int) returns (r: Result<Event, Failure>)
      modifies this
      ensures Outcome(old(Contents()), Contents(),
        InitializeEscrow(sponsor, mint, escrow, vault, reference, amount, expiry, maintainer, contributor), now, r)
    {
      if mint !in ledger.mints || escrow != EscrowAddress(sponsor, reference) || escrow in escrows
         || vault != VaultAddress(escrow) || vault in ledger.accounts {
        return Err(Constraint);
      }
      var checked := ValidateInitialization(reference, amount, now, expiry, maintainer, contributor);
      if checked.Err? {
        return Err(Program(checked.error));
      }
      ledger := ledger.(accounts := ledger.accounts[vault := TokenAccount(mint, escrow, 0)]);
      escrows := escrows[escrow :=
        Escrow(sponsor, maintainer, contributor, mint, vault, reference, amount, now, expiry, Initialized)];
      return Ok(
        EscrowInitialized(now, escrow, sponsor, maintainer, contributor, mint, vault, reference, amount, expiry));
    }

    /** EscrowAudit.HistoriesAreLawful: nothing follows a cancellation. */
    method CancelEscrow(sponsor: Pubkey, escrow: Pubkey, now: int) returns (r: Result<Event, Failure>)
      modifies this
      ensures Outcome(old(Contents()), Contents(), Cancel(sponsor, escrow), now, r)
    {
      if escrow !in escrows || escrows[escrow].sponsor != sponsor {
        return Err(Constraint);
      }
      var next := CanCancel(escrows[escrow].status);
      if next.Err? {
        return Err(Program(next.error));
      }
      SetStatus(escrow, next.value);
      return Ok(EscrowCancelled(now, escrow, escrows[escrow].sponsor));
    }

    /** EscrowAudit.VaultsAreAccounted: from here on the vault holds the amount, until it is settled. */
    method Fund(sponsor: Pubkey, mint: Pubkey, sponsorToken: Pubkey, escrow: Pubkey, vault: Pubkey, now: int)
      returns (r: Result<Event, Failure>)
      modifies this
      ensures Outcome(old(Contents()), Contents(), FundEscrow(sponsor, mint, sponsorToken, escrow, vault), now, r)
    {
      if !IsTokenOf(ledger, sponsorToken, mint, sponsor) || escrow !in escrows || escrows[escrow].sponsor != sponsor {
        return Err(Constraint);
      }
      var checked := CheckEscrow(Contents(), escrow, mint, vault);
      if checked.Err? {
        return Err(checked.error);
      }
      var e := checked.value;
      var next := CanFund(e.status, now, e.expiry);
      if next.Err? {
        return Err(Program(next.error));
      }
      var moved := Transfer(ledger, sponsorToken, mint, vault, sponsor, e.amount);
      if moved.Err? {
        return Err(Token(moved.error));
      }
      ledger := moved.value;
      SetStatus(escrow, next.value);
      return Ok(EscrowFunded(now, escrow, e.sponsor, e.amount));
    }

    /** EscrowAudit.FundedCanBeSettled and SettlementPays: exactly before expiry, and exactly the amount. */
    method ReleaseEscrow(
      maintainer: Pubkey, mint: Pubkey, escrow: Pubkey, vault: Pubkey, contributorToken: Pubkey, now: int)
      returns (r: Result<Event, Failure>)
      modifies this
      ensures Outcome(old(Contents()), Contents(), Release(maintainer, mint, escrow, vault, contributorToken), now, r)
    {
      if escrow !in escrows || escrows[escrow].maintainer != maintainer {
        return Err(Constraint);
      }
      var checked := CheckEscrow(Contents(), escrow, mint, vault);
      if checked.Err? {
        return Err(checked.error);
      }
      var e := checked.value;
      if !IsToken(ledger, contributorToken, mint) {
        return Err(Constraint);
      }
      if ledger.accounts[contributorToken].owner != e.contributor {
        return Err(Program(InvalidContributorTokenOwner));
      }
      var next := CanRelease(e.status, now, e.expiry);
      if next.Err? {
        return Err(Program(next.error));
      }
      var moved := Transfer(ledger, vault, mint, contributorToken, escrow, e.amount);
      if moved.Err? {
        return Err(Token(moved.error));
      }
      ledger := moved.value;
      SetStatus(escrow, next.value);
      return Ok(EscrowReleased(now, escrow, e.maintainer, e.contributor, e.amount));
    }

    /** EscrowAudit.FundedCanBeSettled and SettlementPays: exactly from expiry on, and exactly the amount. */
    method RefundEscrow(sponsor: Pubkey, mint: Pubkey, escrow: Pubkey, vault: Pubkey, sponsorToken: Pubkey, now: int)
      returns (r: Result<Event, Failure>)
      modifies this
      ensures Outcome(old(Contents()), Contents(), Refund(sponsor, mint, escrow, vault, sponsorToken), now, r)
    {
      var checked := CheckEscrow(Contents(), escrow, mint, vault);
      if checked.Err? {
        return Err(checked.error);
      }
      var e := checked.value;
      if !IsTokenOf(ledger, sponsorToken, mint, sponsor) {
        return Err(Constraint);
      }
      var owner := ValidateSponsor(e.sponsor, sponsor);
      if owner.Err? {
        return Err(Program(owner.error));
      }
      var next := CanRefund(e.status, now, e.expiry);
      if next.Err? {
        return Err(Program(next.error));
      }
      var moved := Transfer(ledger, vault, mint, sponsorToken, escrow, e.amount);
      if moved.Err? {
        return Err(Token(moved.error));
      }
      ledger := moved.value;
      SetStatus(escrow, next.value);
      return Ok(EscrowRefunded(now, escrow, e.sponsor, e.amount));
    }

    method SetStatus(escrow: Pubkey, status: Status)
      requires escrow in escrows
      modifies `escrows
      ensures Contents() == WithStatus(old(Contents()), escrow, status)
    {
      escrows := escrows[escrow := escrows[escrow].(status := status)];
    }
  }
}
