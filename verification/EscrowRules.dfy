/** Which status an escrow may move to, and when (programs/oss-bounty-escrow/src/rules.rs). */
module EscrowRules {
  import opened ByteStrings
  import opened Outcomes
  import opened TokenLedger

  datatype Status = Initialized | Funded | Released | Refunded | Cancelled

  datatype EscrowError =
    | InvalidStatus | InvalidAmount | InvalidExpiry | InvalidMaintainer | InvalidContributor
    | InvalidContributorTokenOwner | UnauthorizedSponsor | EscrowExpired | EscrowNotExpired | InvalidVault
    | InvalidExternalReference

  function ZeroReference(): Bytes {
    seq(32, _ => 0)
  }

  function ValidateInitialization(
    reference: Bytes, amount: nat, now: int, expiry: int, maintainer: Pubkey, contributor: Pubkey)
    : Result<(), EscrowError>
  {
    if reference == ZeroReference() then Err(InvalidExternalReference)
    else if amount == 0 then Err(InvalidAmount)
    else if expiry <= now then Err(InvalidExpiry)
    else if maintainer == DefaultKey then Err(InvalidMaintainer)
    else if contributor == DefaultKey then Err(InvalidContributor)
    else Ok(())
  }

  function ValidateSponsor(expected: Pubkey, signer: Pubkey): Result<(), EscrowError> {
    if signer != expected then Err(UnauthorizedSponsor) else Ok(())
  }

  function CanFund(status: Status, now: int, expiry: int): Result<Status, EscrowError> {
    if status != Initialized then Err(InvalidStatus)
    else if now >= expiry then Err(EscrowExpired)
    else Ok(Funded)
  }

  function CanRelease(status: Status, now: int, expiry: int): Result<Status, EscrowError> {
    if status != Funded then Err(InvalidStatus)
    else if now >= expiry then Err(EscrowExpired)
    else Ok(Released)
  }

  function CanRefund(status: Status, now: int, expiry: int): Result<Status, EscrowError> {
    if status != Funded then Err(InvalidStatus)
    else if now < expiry then Err(EscrowNotExpired)
    else Ok(Refunded)
  }

  function CanCancel(status: Status): Result<Status, EscrowError> {
    if status != Initialized then Err(InvalidStatus) else Ok(Cancelled)
  }

  /** At every moment exactly one of release and refund is open to a funded escrow, and neither to any other. */
  lemma {:induction false} OneSettlement(status: Status, now: int, expiry: int)
    ensures status == Funded <==> (CanRelease(status, now, expiry).Ok? || CanRefund(status, now, expiry).Ok?)
    ensures !(CanRelease(status, now, expiry).Ok? && CanRefund(status, now, expiry).Ok?)
    ensures CanRelease(status, now, expiry).Ok? <==> status == Funded && now < expiry
  {
  }
}
