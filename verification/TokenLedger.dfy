/**
 The token accounts the escrow program moves tokens between, as far as the program
 can see them: balances, owners and mints, and the checked transfer
 (used by programs/oss-bounty-escrow/src/lib.rs).
 */
module TokenLedger {
  import opened ByteStrings
  import opened Outcomes

  const U64_LIMIT: nat := 0x1_0000_0000_0000_0000

  /** Program-derived addresses are distinct for distinct seeds and from every key somebody can sign with. */
  datatype Pubkey =
    | DefaultKey
    | Wallet(id: nat)
    | EscrowAddress(sponsor: Pubkey, reference: Bytes)
    | VaultAddress(escrow: Pubkey)

  datatype TokenAccount = TokenAccount(mint: Pubkey, owner: Pubkey, amount: nat)

  datatype Mint = Mint(supply: nat)

  datatype Ledger = Ledger(mints: map<Pubkey, Mint>, accounts: map<Pubkey, TokenAccount>)

  datatype TokenError = InsufficientFunds | MintMismatch | OwnerMismatch | Overflow | UninitializedAccount

  /** A transfer to the same account changes nothing, but only after the same checks. */
  function Transfer(l: Ledger, from: Pubkey, mint: Pubkey, to: Pubkey, authority: Pubkey, amount: nat)
    : Result<Ledger, TokenError>
  {
    if from !in l.accounts || to !in l.accounts || mint !in l.mints then Err(UninitializedAccount)
    else if l.accounts[from].amount < amount then Err(InsufficientFunds)
    else if l.accounts[from].mint != l.accounts[to].mint || l.accounts[from].mint != mint then Err(MintMismatch)
    else if l.accounts[from].owner != authority then Err(OwnerMismatch)
    else if from == to then Ok(l)
    else if l.accounts[to].amount + amount >= U64_LIMIT then Err(Overflow)
    else Ok(l.(accounts := Credited(Debited(l.accounts, from, amount), to, amount)))
  }

  function Debited(accounts: map<Pubkey, TokenAccount>, k: Pubkey, amount: nat): map<Pubkey, TokenAccount>
    requires k in accounts && amount <= accounts[k].amount
  {
    accounts[k := accounts[k].(amount := accounts[k].amount - amount)]
  }

  function Credited(accounts: map<Pubkey, TokenAccount>, k: Pubkey, amount: nat): map<Pubkey, TokenAccount>
    requires k in accounts
  {
    accounts[k := accounts[k].(amount := accounts[k].amount + amount)]
  }

  // ----- how many tokens there are

  function Part(account: TokenAccount, mint: Pubkey): nat {
    if account.mint == mint then account.amount else 0
  }

  ghost function Total(accounts: map<Pubkey, TokenAccount>, mint: Pubkey): nat
    decreases |accounts|
  {
    if accounts == map[] then 0
    else
      var k :| k in accounts;
      Part(accounts[k], mint) + Total(accounts - {k}, mint)
  }

  /** Any account can be counted first. */
  lemma {:induction false} CountFirst(accounts: map<Pubkey, TokenAccount>, mint: Pubkey, k: Pubkey)
    requires k in accounts
    ensures Total(accounts, mint) == Part(accounts[k], mint) + Total(accounts - {k}, mint)
    decreases |accounts|
  {
    var first: Pubkey :| first in accounts && Total(accounts, mint) == Part(accounts[first], mint) + Total(accounts - {first}, mint);
    if first != k {
      var rest := accounts - {first};
      CountFirst(rest, mint, k);
      CountFirst(accounts - {k}, mint, first);
      assert rest - {k} == (accounts - {k}) - {first};
    }
  }

  lemma {:induction false} Recount(accounts: map<Pubkey, TokenAccount>, mint: Pubkey, k: Pubkey, account: TokenAccount)
    requires k in accounts
    ensures Total(accounts[k := account], mint) == Total(accounts, mint) - Part(accounts[k], mint) + Part(account, mint)
  {
    CountFirst(accounts, mint, k);
    CountFirst(accounts[k := account], mint, k);
    assert accounts[k := account] - {k} == accounts - {k};
  }

  lemma {:induction false} CountNew(accounts: map<Pubkey, TokenAccount>, mint: Pubkey, k: Pubkey, account: TokenAccount)
    requires k !in accounts
    ensures Total(accounts[k := account], mint) == Total(accounts, mint) + Part(account, mint)
  {
    CountFirst(accounts[k := account], mint, k);
    assert accounts[k := account] - {k} == accounts;
  }

  /** Every account holds no more of its mint than there is. */
  lemma {:induction false} NoMoreThanAll(accounts: map<Pubkey, TokenAccount>, mint: Pubkey, j: Pubkey, k: Pubkey)
    requires j in accounts && k in accounts && j != k && accounts[j].mint == accounts[k].mint == mint
    ensures accounts[j].amount + accounts[k].amount <= Total(accounts, mint)
  {
    CountFirst(accounts, mint, j);
    CountFirst(accounts - {j}, mint, k);
  }

  /** The supply of every mint is what its accounts hold, and fits in 64 bits. */
  ghost predicate Balanced(l: Ledger) {
    && (forall m :: m in l.mints ==> Total(l.accounts, m) == l.mints[m].supply < U64_LIMIT)
    && forall k :: k in l.accounts ==> l.accounts[k].mint in l.mints
  }

  /** Moving tokens creates and destroys none, and moves exactly the amount from the one to the other. */
  lemma {:induction false} TransferConserves(
    l: Ledger, from: Pubkey, mint: Pubkey, to: Pubkey, authority: Pubkey, amount: nat)
    requires Transfer(l, from, mint, to, authority, amount).Ok?
    ensures var t := Transfer(l, from, mint, to, authority, amount).value;
      && t.mints == l.mints && t.accounts.Keys == l.accounts.Keys
      && (forall m :: Total(t.accounts, m) == Total(l.accounts, m))
      && (forall k :: k in l.accounts ==>
            && t.accounts[k].mint == l.accounts[k].mint && t.accounts[k].owner == l.accounts[k].owner
            && t.accounts[k].amount ==
                l.accounts[k].amount - (if k == from then amount else 0) + (if k == to then amount else 0))
  {
    if from != to {
      forall m
        ensures Total(Transfer(l, from, mint, to, authority, amount).value.accounts, m) == Total(l.accounts, m)
      {
        var debited := Debited(l.accounts, from, amount);
        Recount(l.accounts, m, from, debited[from]);
        Recount(debited, m, to, Credited(debited, to, amount)[to]);
      }
    }
  }

  /** In a balanced ledger a transfer within the balance never overflows. */
  lemma {:induction false} TransferNeverOverflows(
    l: Ledger, from: Pubkey, mint: Pubkey, to: Pubkey, authority: Pubkey, amount: nat)
    requires Balanced(l)
    ensures Transfer(l, from, mint, to, authority, amount) != Err(Overflow)
  {
    hide Total;
    if from in l.accounts && to in l.accounts && from != to && l.accounts[from].mint == l.accounts[to].mint == mint
       && mint in l.mints && amount <= l.accounts[from].amount {
      NoMoreThanAll(l.accounts, mint, from, to);
    }
  }
}
