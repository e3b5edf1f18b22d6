# launch_fund: campaign ledger and pricing

A Dafny model of the launch_fund Solana program. A creator opens a
`Campaign` account together with a token mint. Contributors pay lamports
into the campaign account and receive newly minted tokens at a step rate:
1000 token units per lamport, or 1200 while the raised total, net of
withdrawals, is below ten SOL. Because withdrawals lower the raised total,
the bonus can come back after a withdrawal. The creator can withdraw lamports from the campaign account up to
the raised total. A read-only instruction reports the current token price,
1000 lamports plus 1000 more for every whole SOL raised.

- `pricing.dfy`, module `Pricing`: the `u64` type and the two pure pricing
  functions, with the properties of issuance and price.
- `launch_fund.dfy`, module `LaunchFund`: the error codes, the `Campaign`
  account as a class whose methods update it in place, the token `Mint`
  and the signers' `Wallets` as classes. Two pure functions,
  `ContributeVerdict` and `WithdrawVerdict`, decide the outcome of
  `contribute` and `withdraw_funds` in the order of their checks.

Each instruction is one atomic transaction. When it fails, whether from a
`require!`, an arithmetic panic or a failed call into the system or token
program, no account changes. The methods therefore compute the outcome
first and then apply every effect.

Unchecked `u64` arithmetic (`lib.rs:82`, `lib.rs:105`, `lib.rs:135`,
`lib.rs:137`, `lib.rs:145`) is modelled as a panic that aborts the
transaction with no state change. This is the behaviour of a build with
overflow checks on; the workspace's build profile is not part of this
model, and a build that wraps instead would differ. Two of
these steps are proved never to overflow:
- `base_tokens * bonus_rate` at `lib.rs:137`, once `lib.rs:135` fits;
- the price at `lib.rs:145`, for every `u64` raised total.

The comment at `lib.rs:133` describes a square-root curve. The code
computes a linear rate, and the model follows the code.

## Model

| member | source | states |
|---|---|---|
| Pricing.CalculateTokensFromSol | programs/launch_fund/src/lib.rs:134-139 | aborts exactly when `sol_amount * 1_000_000_000` overflows `u64` (amount above 18,446,744,073 lamports); otherwise the issue is exactly `amount * 1200` below ten SOL raised and `amount * 1000` from then on, with no truncation |
| Pricing.ExactScaling | programs/launch_fund/src/lib.rs:135-137 | the division by 1,000,000 and by 100 are exact, and the second product cannot overflow once the first fits |
| Pricing.NoBonusAtCap | programs/launch_fund/src/lib.rs:136 | a contribution made at exactly 10,000,000,000 lamports raised gets the base rate, not the bonus |
| Pricing.EarlierNeverFewer | programs/launch_fund/src/lib.rs:136-137 | for the same amount, a contribution made at a lower raised total never yields fewer tokens |
| Pricing.TokensMonotoneInAmount | programs/launch_fund/src/lib.rs:135-137 | at the same raised total, a larger contribution never yields fewer tokens |
| Pricing.SplittingNeverGains | programs/launch_fund/src/lib.rs:134-139 | two consecutive contributions `a` then `b` never earn more tokens than one contribution of `a + b` |
| Pricing.IssuedOver | programs/launch_fund/src/lib.rs:44-82 | over consecutive contributions, each priced on the raised total before it, every lamport earns between 1000 and 1200 token units |
| Pricing.IssuedOverFirstStep | programs/launch_fund/src/lib.rs:44 | the first term of a run is exactly what `calculate_tokens_from_sol` returns for that contribution at the raised total before it |
| Pricing.LumpSumNeverLess | programs/launch_fund/src/lib.rs:44-82 | however a run of contributions is split up, it never earns more than one contribution of the whole amount at the start |
| Pricing.BonusUpToCap | programs/launch_fund/src/lib.rs:136-137 | contributions that together end at or below ten SOL raised get the bonus rate on every lamport |
| Pricing.BaseRateFromCap | programs/launch_fund/src/lib.rs:136-137 | contributions made from ten SOL raised on get the base rate on every lamport |
| Pricing.CalculateTokenPrice | programs/launch_fund/src/lib.rs:142-146 | the price never overflows, is at least 1000, is a multiple of 1000, and is exactly 1000 below one SOL raised |
| Pricing.TokenPriceSteps | programs/launch_fund/src/lib.rs:143-145 | with `n` whole SOL raised the price is `1000 * (n + 1)` |
| Pricing.TokenPriceMonotone | programs/launch_fund/src/lib.rs:144-145 | the price is non-decreasing in the raised total |
| LaunchFund.ContributeVerdict | programs/launch_fund/src/lib.rs:39-82 | `CampaignNotActive` exactly when inactive; `InvalidAmount` exactly when active with a zero amount; `TransferFailed`, `MintOverflow` and `ArithmeticOverflow` each exactly when every earlier step succeeds and that step does not fit; success exactly when pricing, the transfer, the mint and the raised total all fit; and then the tokens are `amount` times the rate at the raised total before the contribution |
| LaunchFund.ContributeOverflowOnlyFromPricing | programs/launch_fund/src/lib.rs:44-82 | while the raised total is covered by the account balance, `raised_amount += amount` never panics; a contribution panics only in pricing |
| LaunchFund.BonusReturnsAfterWithdrawal | programs/launch_fund/src/lib.rs:99-107 | at ten SOL raised a 1000-lamport contribution gets the base rate; after the creator withdraws one lamport, the same contribution gets the bonus again |
| LaunchFund.WithdrawVerdict | programs/launch_fund/src/lib.rs:95-107 | `Unauthorized` exactly when the signer is not the creator; `InsufficientFunds` exactly when the creator asks for more than the raised total or the account balance; on success the remaining raised total is the old one minus the amount |
| LaunchFund.VaultCheckRedundant | programs/launch_fund/src/lib.rs:99-102 | while the raised total is covered by the account balance, `InsufficientFunds` comes exactly from asking for more than was raised |
| LaunchFund.Campaign.constructor | programs/launch_fund/src/lib.rs:11-37 | a fresh record: creator is the signer, nothing raised, active, the given target, supply and timestamp, and a fresh mint with no supply and no holders |
| LaunchFund.Campaign.Contribute | programs/launch_fund/src/lib.rs:39-93 | the outcome is the verdict above; on failure no account changes; on success the raised total and the account balance grow by `amount`, the contributor's wallet shrinks by `amount`, the contributor and the supply gain the priced tokens, the lamports of account and contributor are conserved, and no other campaign field changes |
| LaunchFund.Campaign.WithdrawFunds | programs/launch_fund/src/lib.rs:95-117 | the outcome is the verdict above; on failure no account changes; on success the account balance and the raised total drop by `amount`, the creator's wallet grows by `amount`, their sum is conserved, the raised total never goes below zero, and no other field changes |
| LaunchFund.Campaign.GetTokenPrice | programs/launch_fund/src/lib.rs:119-130 | returns the price of the current raised total, at least 1000, and changes nothing (it has no frame to modify) |
| LaunchFund.Mint.constructor | programs/launch_fund/src/lib.rs:160-166 | the mint created with the campaign has no supply and no token accounts |

The class invariant `Campaign.Valid` states that the raised total never
exceeds the campaign account's balance and that no token account holds
more than the supply. The constructor establishes it, and `Contribute` and
`WithdrawFunds` preserve it.

Nothing in the program sets `is_active` back to false; only
`initialize_campaign` assigns it (`lib.rs:33`). In the model, the
constructor sets `isActive` and both `Contribute` and `WithdrawFunds`
leave it unchanged. So after initialization no sequence of instructions
can make `Contribute` return `CampaignNotActive`: the guard at
`lib.rs:40` never fails on a campaign this program created.

## Left out

- Account wiring (`lib.rs:148-227`) is not modelled: PDA seeds and bumps,
  `init`, `payer` and `space`, and associated-token-account creation. The
  creator check of `withdraw_funds` is the only identity check kept.
- The `init` constraint on the contributor's token account
  (`lib.rs:188-194`) is left out. It makes a second contribution from the
  same wallet fail before the instruction body runs. In the model, a
  wallet's contributions add up in one token balance.
- The system-program transfer and `token::mint_to` calls are host code.
  They are modelled only as balance updates: the transfer fails when the
  contributor's wallet is short or the campaign balance would overflow,
  and the mint fails when the supply would overflow.
- The rent a new account needs is left out. `initialize_campaign` takes
  the new account's starting balance as a parameter, and no operation
  checks rent exemption.
- The clock is a parameter of the constructor (`created_at`).
- Events (`emit!`) are left out. `Contribute` returns the minted amount
  and `WithdrawFunds` the remaining total, which the events report.
- The string fields `name`, `description`, `token_symbol` and `token_name`,
  their length limits, and `bump` are storage layout and not modelled.
- `target_amount` and `total_supply` are stored but no logic reads them,
  so the model sets no cap from them.
- Borrow failures of `try_borrow_mut_lamports` are host behaviour and are
  not modelled.
- `Campaign.WithdrawFunds` states conservation for the two accounts it
  touches and says the other wallets are unchanged. It does not state a
  sum over all wallets.
