/** The launch_fund program: one `Campaign` account, its token mint and the
    wallets that pay into it or are paid out of it. Each instruction is one
    atomic transaction: it either aborts and leaves every account as it was,
    or applies all of its effects. The methods therefore decide the outcome
    first (the `...Verdict` functions, which follow the order of the checks
    in the instruction) and only then update the accounts. */
module LaunchFund {
  import opened Pricing

  /** An account address; addresses are only compared for equality. */
  type Pubkey = nat

  /** The program's own error codes. */
  datatype ErrorCode = CampaignNotActive | InvalidAmount | Unauthorized | InsufficientFunds

  /** Why an instruction aborts: one of the program's error codes, a panic on
      a `u64` overflow in the program's arithmetic, a failed lamport transfer
      by the system program, or an overflow of the token supply refused by the
      token program. */
  datatype Abort =
    | Program(code: ErrorCode)
    | ArithmeticOverflow
    | TransferFailed
    | MintOverflow

  datatype Result<T> = Ok(value: T) | Err(error: Abort)

  /** The balance held under `k`; an address that is not in the map holds nothing. */
  function Balance(m: map<Pubkey, U64>, k: Pubkey): U64
  {
    if k in m then m[k] else 0
  }

  /** The outcome of `contribute`: the checks on the campaign and the amount,
      then pricing, the lamport transfer into the campaign account, minting,
      and finally `raised_amount += amount`. On success the result is the
      number of token units minted, priced on the raised total before this
      contribution. */
  function ContributeVerdict(isActive: bool, raised: U64, vault: U64, amount: U64,
                             contributorLamports: U64, supply: U64): (r: Result<U64>)
    ensures r == Err(Program(CampaignNotActive)) <==> !isActive
    ensures r == Err(Program(InvalidAmount)) <==> isActive && amount == 0
    ensures r == Err(TransferFailed) <==>
              (isActive && 0 < amount <= MAX_PRICED_AMOUNT
               && (amount > contributorLamports || vault + amount > U64_MAX))
    ensures r == Err(MintOverflow) <==>
              (isActive && 0 < amount <= MAX_PRICED_AMOUNT
               && amount <= contributorLamports && vault + amount <= U64_MAX
               && supply + amount * RateAt(raised) > U64_MAX)
    ensures r == Err(ArithmeticOverflow) <==>
              (isActive && 0 < amount
               && (amount > MAX_PRICED_AMOUNT
                   || (amount <= contributorLamports && vault + amount <= U64_MAX
                       && supply + amount * RateAt(raised) <= U64_MAX
                       && raised + amount > U64_MAX)))
    ensures r.Ok? <==> isActive && 0 < amount <= MAX_PRICED_AMOUNT
                       && amount <= contributorLamports && vault + amount <= U64_MAX
                       && supply + amount * RateAt(raised) <= U64_MAX
                       && raised + amount <= U64_MAX
    ensures r.Ok? ==> r.value == amount * RateAt(raised)
  {
    if !isActive then Err(Program(CampaignNotActive))
    else if amount == 0 then Err(Program(InvalidAmount))
    else match CalculateTokensFromSol(amount, raised)
      case None => Err(ArithmeticOverflow)
      case Some(tokens) =>
        if contributorLamports < amount || vault + amount > U64_MAX then Err(TransferFailed)
        else if supply + tokens > U64_MAX then Err(MintOverflow)
        else if raised + amount > U64_MAX then Err(ArithmeticOverflow)
        else Ok(tokens)
  }

  /** While the raised total is covered by the campaign account's balance, a
      contribution can only panic in pricing: the transfer into the account
      fails first whenever `raised_amount += amount` would overflow. */
  lemma ContributeOverflowOnlyFromPricing(isActive: bool, raised: U64, vault: U64, amount: U64,
                                          contributorLamports: U64, supply: U64)
    requires raised <= vault
    ensures ContributeVerdict(isActive, raised, vault, amount, contributorLamports, supply) == Err(ArithmeticOverflow)
            <==> isActive && amount > MAX_PRICED_AMOUNT
  {
    if isActive && 0 < amount <= MAX_PRICED_AMOUNT && raised + amount > U64_MAX {
      assert vault + amount > U64_MAX;
    }
  }

  /** The outcome of `withdraw_funds`: the creator check, the two balance
      checks, then the credit to the creator's wallet. On success the result
      is the raised total that remains. */
  function WithdrawVerdict(creator: Pubkey, signer: Pubkey, amount: U64, raised: U64, vault: U64,
                           signerLamports: U64): (r: Result<U64>)
    ensures r == Err(Program(Unauthorized)) <==> signer != creator
    ensures r == Err(Program(InsufficientFunds)) <==> signer == creator && (amount > raised || amount > vault)
    ensures r.Ok? <==> signer == creator && amount <= raised && amount <= vault
                       && signerLamports + amount <= U64_MAX
    ensures r.Ok? ==> r.value + amount == raised
  {
    if signer != creator then Err(Program(Unauthorized))
    else if amount > raised then Err(Program(InsufficientFunds))
    else if amount > vault then Err(Program(InsufficientFunds))
    else if signerLamports + amount > U64_MAX then Err(ArithmeticOverflow)
    else Ok(raised - amount)
  }

  /** While the raised total is covered by the campaign account's balance,
      the check of the amount against that balance never decides anything:
      `InsufficientFunds` comes exactly from asking for more than was raised. */
  lemma VaultCheckRedundant(creator: Pubkey, signer: Pubkey, amount: U64, raised: U64, vault: U64,
                            signerLamports: U64)
    requires raised <= vault
    ensures WithdrawVerdict(creator, signer, amount, raised, vault, signerLamports) == Err(Program(InsufficientFunds))
            <==> signer == creator && amount > raised
  {
  }

  /** The bonus follows the raised total net of withdrawals, so it comes back
      after a withdrawal: at ten SOL raised a contribution gets the base rate,
      and after the creator withdraws one lamport the same contribution gets
      the bonus again. */
  lemma BonusReturnsAfterWithdrawal(creator: Pubkey)
    ensures ContributeVerdict(true, BONUS_CAP, BONUS_CAP, 1000, 1000, 0) == Ok(1000 * BASE_RATE)
    ensures WithdrawVerdict(creator, creator, 1, BONUS_CAP, BONUS_CAP, 0) == Ok(BONUS_CAP - 1)
    ensures ContributeVerdict(true, BONUS_CAP - 1, BONUS_CAP - 1, 1000, 1000, 0) == Ok(1000 * BONUS_RATE)
  {
  }

  /** Lamport balances of the wallets (system accounts) that sign instructions. */
  class Wallets {
    var lamports: map<Pubkey, U64>

    constructor (initial: map<Pubkey, U64>)
      ensures lamports == initial
    {
      lamports := initial;
    }
  }

  /** The token mint created with a campaign; the campaign account is its
      mint authority. `balances` holds the token accounts of the contributors. */
  class Mint {
    var supply: U64
    var balances: map<Pubkey, U64>

    /** No token account holds more than the whole supply. */
    ghost predicate Valid()
      reads this
    {
      forall k :: k in balances ==> balances[k] <= supply
    }

    constructor ()
      ensures Valid()
      ensures supply == 0 && balances == map[]
    {
      supply := 0;
      balances := map[];
    }
  }

  /** The `Campaign` account. Its own lamport balance is the vault that
      contributions are paid into and withdrawals are paid out of. */
  class Campaign {
    var creator: Pubkey
    var targetAmount: U64
    var raisedAmount: U64
    var totalSupply: U64
    var tokenMint: Mint
    var createdAt: int
    var isActive: bool
    var lamports: U64

    /** Every lamport counted as raised and not yet withdrawn is held by the account. */
    ghost predicate Valid()
      reads this, tokenMint
    {
      raisedAmount <= lamports && tokenMint.Valid()
    }

    /** `initialize_campaign`: a fresh record for the signing creator with a
        fresh mint. `now` is the host clock and `rentDeposit` the balance the
        host gives the new account when it is created. */
    constructor (signer: Pubkey, target: U64, supply: U64, now: int, rentDeposit: U64)
      ensures Valid() && fresh(tokenMint)
      ensures creator == signer && raisedAmount == 0 && isActive
      ensures targetAmount == target && totalSupply == supply && createdAt == now
      ensures lamports == rentDeposit
      ensures tokenMint.supply == 0 && tokenMint.balances == map[]
    {
      creator := signer;
      targetAmount := target;
      raisedAmount := 0;
      totalSupply := supply;
      tokenMint := new Mint();
      createdAt := now;
      isActive := true;
      lamports := rentDeposit;
    }

    /** `contribute`: pays `amount` lamports from the contributor's wallet into
        the campaign account, mints the priced number of tokens to the
        contributor and adds `amount` to the raised total. Any failure leaves
        every account unchanged. */
    method Contribute(wallets: Wallets, contributor: Pubkey, amount: U64) returns (r: Result<U64>)
      requires Valid()
      modifies this, tokenMint, wallets
      ensures Valid() && tokenMint == old(tokenMint)
      ensures r == ContributeVerdict(old(isActive), old(raisedAmount), old(lamports), amount,
                                     Balance(old(wallets.lamports), contributor), old(tokenMint.supply))
      ensures r.Err? ==> unchanged(this, tokenMint, wallets)
      ensures r.Ok? ==> raisedAmount == old(raisedAmount) + amount
                        && lamports == old(lamports) + amount
                        && wallets.lamports == old(wallets.lamports)[contributor := Balance(old(wallets.lamports), contributor) - amount]
                        && tokenMint.supply == old(tokenMint.supply) + r.value
                        && tokenMint.balances == old(tokenMint.balances)[contributor := Balance(old(tokenMint.balances), contributor) + r.value]
      ensures lamports + Balance(wallets.lamports, contributor) == old(lamports) + Balance(old(wallets.lamports), contributor)
      ensures creator == old(creator) && targetAmount == old(targetAmount) && totalSupply == old(totalSupply)
      ensures createdAt == old(createdAt) && isActive == old(isActive)
    {
      r := ContributeVerdict(isActive, raisedAmount, lamports, amount, Balance(wallets.lamports, contributor), tokenMint.supply);
      if r.Ok? {
        var tokens := r.value;
        var paid := Balance(wallets.lamports, contributor);
        wallets.lamports := wallets.lamports[contributor := paid - amount];
        lamports := lamports + amount;
        var held := Balance(tokenMint.balances, contributor);
        assert held <= tokenMint.supply;
        tokenMint.balances := tokenMint.balances[contributor := held + tokens];
        tokenMint.supply := tokenMint.supply + tokens;
        raisedAmount := raisedAmount + amount;
      }
    }

    /** `withdraw_funds`: the creator moves `amount` lamports out of the
        campaign account into their own wallet and the raised total drops by
        the same amount. Any failure leaves every account unchanged. */
    method WithdrawFunds(wallets: Wallets, signer: Pubkey, amount: U64) returns (r: Result<U64>)
      requires Valid()
      modifies this, wallets
      ensures Valid()
      ensures r == WithdrawVerdict(old(creator), signer, amount, old(raisedAmount), old(lamports),
                                   Balance(old(wallets.lamports), signer))
      ensures r.Err? ==> unchanged(this, wallets)
      ensures r.Ok? ==> raisedAmount == old(raisedAmount) - amount
                        && lamports == old(lamports) - amount
                        && wallets.lamports == old(wallets.lamports)[signer := Balance(old(wallets.lamports), signer) + amount]
                        && r.value == raisedAmount
      ensures lamports + Balance(wallets.lamports, signer) == old(lamports) + Balance(old(wallets.lamports), signer)
      ensures creator == old(creator) && targetAmount == old(targetAmount) && totalSupply == old(totalSupply)
      ensures createdAt == old(createdAt) && isActive == old(isActive) && tokenMint == old(tokenMint)
    {
      r := WithdrawVerdict(creator, signer, amount, raisedAmount, lamports, Balance(wallets.lamports, signer));
      if r.Ok? {
        lamports := lamports - amount;
        var held := Balance(wallets.lamports, signer);
        wallets.lamports := wallets.lamports[signer := held + amount];
        raisedAmount := raisedAmount - amount;
      }
    }

    /** `get_token_price`: the current price, read without changing any account. */
    method GetTokenPrice() returns (price: U64)
      ensures price == CalculateTokenPrice(raisedAmount)
      ensures price >= BASE_RATE
    {
      price := CalculateTokenPrice(raisedAmount);
    }
  }
}
