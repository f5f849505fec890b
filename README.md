# cw20-escrow: a Dafny model of the escrow contract

This project models the escrow contract of `contracts/cw20-escrow` in Dafny.
The contract keeps a registry of escrows keyed by id. Each escrow holds a
multi-asset balance: native coins by denomination, and cw20 token holdings by
token contract address. The contract also keeps a small store of governance
constants. Its entry points are:

- `instantiate`, which writes the default constants;
- `execute`, which routes create, top-up, approve, refund, a wrapped token
  deposit (`Receive`) and the governance write (`SetConstant`);
- the details and constants queries.

The model follows the code as written in `contracts/cw20-escrow/src/contract.rs`.

## How the model is built

- `results.dfy` holds the `Option` and `Result` wrappers.
- `balance.dfy` (module `BalanceMerge`) holds the balance and the
  `add_tokens` merge.
  - Native coins and token holdings are both `Holding(key, amount)`. The
    merge rule is the same for both: add the amount to the first entry with
    the same key, or append a new entry.
  - `Merged` is the reference definition of the merge. `AddTokens` is the
    imperative loop, proved equal to it.
  - Lemmas prove what the merge keeps: per-key totals (`Conserves`), key
    order (old keys first, then new keys in first-seen order), and unique
    keys.
- `transfers.dfy` (module `Transfers`) holds the outbound instructions and
  `send_tokens`. `Released` reads a list of instructions back into a balance.
  It is the inverse that shows `send_tokens` pays out exactly the balance.
- `state.dfy` (module `EscrowState`) holds the records, messages, errors and
  constant keys.
- `contract.dfy` (module `Contract`) holds the entry points.
  - Each state-changing entry point is first a pure function of the stored
    maps: `Created`, `ToppedUp`, `Received` and `ConstantsSet`. Each function
    states every error case and the exact new state.
  - The class `EscrowContract` holds the two stores as fields. Its methods
    are proved to commit exactly what those functions compute. A failing
    call leaves the stores untouched (`Committed`).
  - The class invariant `Valid` says every constant entry is stored and no
    stored balance holds two entries for one denomination or token. Every
    method preserves it, given native funds without a repeated denomination.
  - Approve, refund and the queries change nothing, so they are functions.
- `scenarios.dfy` (module `Scenarios`) replays the source's two end-to-end
  tests as client code. Each outcome is stated as the code computes it.

Address validation by the host (`addr_validate`) is the parameter
`api: string -> bool`. A valid address validates to itself. An invalid one
fails with `InvalidAddress`. Times are `nat`. Amounts are `nat`.

### Behaviour as written

The model keeps these behaviours of the code, even where a reader might
expect otherwise:

- Approval needs a sender equal to the escrow's client AND to the stored
  manager (`contract.rs:216`).
- The transfer list built for the manager at `contract.rs:228` is discarded.
- Refund pays whoever calls (`contract.rs:257`). No ownership or expiry check
  is made.
- Neither approve nor refund removes the escrow or reduces its balance, so a
  second approval pays again.
- The escrow's client is the sender of the create, not the `client` field of
  the request (`contract.rs:142`).
- A token deposit that creates an escrow is accepted only from the token
  named by the stored `rate_manager` value (`contract.rs:126`). Right after
  `instantiate` that value is "10", so no token deposit can create an escrow
  until a `SetConstant` names the token.
- Native coins attached to a `Receive` call are ignored.

The in-file tests expect several things this code does not do:

- the requested client at lines 400 and 413;
- a token create accepted while `rate_manager` is "10", at line 390;
- `NotFound` on the second approval, at lines 430-434;
- an approval by the requested client, at line 577.

The scenarios state what the code does instead. `Scenarios.TopUpMixedTokens`
first runs a bootstrap `SetConstant` that names "source" as manager, so
that an approval can succeed at all.

## Model

| member | source | states |
|---|---|---|
| BalanceMerge.FirstIndex | contracts/cw20-escrow/src/contract.rs:195 | the merge's search: a found index is in range, carries the key and is the first such entry; nothing is found exactly when the key is absent |
| BalanceMerge.Position | contracts/cw20-escrow/src/contract.rs:195 | the search loop over the held entries returns exactly `FirstIndex` |
| BalanceMerge.AddOne | contracts/cw20-escrow/src/contract.rs:195 | adding one coin or token (to the amount at its entry's position, or as a new entry at the end) equals the merge rule `Add` |
| BalanceMerge.AddTokens | contracts/cw20-escrow/src/contract.rs:195 | `add_tokens`: the loop over a native deposit, or the single token deposit, yields exactly the reference merge `Merged(b, add)` |
| BalanceMerge.AppendNew | contracts/cw20-escrow/src/contract.rs:442-445 | reference key order after a merge: it extends the old keys, holds exactly the old and arriving keys, and keeps distinct keys distinct |
| BalanceMerge.AddAmount | contracts/cw20-escrow/src/contract.rs:195 | merging one holding raises its own key's total by its amount and leaves every other key's total alone |
| BalanceMerge.AddAllAmount | contracts/cw20-escrow/src/contract.rs:437-446 | after merging a list, each key's total is the old total plus the arriving total for that key |
| BalanceMerge.AddAllCommutes | contracts/cw20-escrow/src/contract.rs:437-446 | the order of two deposits changes no key's total |
| BalanceMerge.AmountOfConcat | contracts/cw20-escrow/src/contract.rs:437-446 | the total of a concatenation of holdings is the sum of the parts' totals |
| BalanceMerge.AddAllConcat | contracts/cw20-escrow/src/contract.rs:440-441 | merging two deposits in turn equals merging their concatenation at once |
| BalanceMerge.AddAllAssociates | contracts/cw20-escrow/src/contract.rs:437-446 | totals are associative: grouped in turn or as one, each key ends with the old total plus both arrivals |
| BalanceMerge.Merged | contracts/cw20-escrow/src/contract.rs:195 | the reference merge: only the deposit's own list changes, its old keys keep their order and new keys follow in first-seen order (`AppendNew`) |
| BalanceMerge.EmptyIffNoValue | contracts/cw20-escrow/src/contract.rs:112 | `is_empty` (the test at lines 112 and 171) holds exactly when the deposit carries no value under any denomination or token |
| BalanceMerge.MergedConserves | contracts/cw20-escrow/src/contract.rs:194-195 | a top-up merge conserves value: per key, native and token totals after equal totals before plus the deposit |
| BalanceMerge.AddKeys | contracts/cw20-escrow/src/contract.rs:195 | merging one holding keeps every key in place and appends the key only when it is new |
| BalanceMerge.AddAllKeys | contracts/cw20-escrow/src/contract.rs:437-446 | the keys after a merge are the old keys in order, then each new key in first-seen order (`AppendNew`) |
| BalanceMerge.AddAllUnique | contracts/cw20-escrow/src/contract.rs:437-446 | merging a list into a balance without repeated keys never creates a second entry for a key |
| BalanceMerge.AddUnique | contracts/cw20-escrow/src/contract.rs:448-478 | merging one token into holdings without repeated keys keeps them free of repeats |
| BalanceMerge.MergeSums | contracts/cw20-escrow/src/contract.rs:437-478 | after a merge every key appears once and holds the old amount plus all amounts merged for it |
| BalanceMerge.MergedKeepsUnique | contracts/cw20-escrow/src/contract.rs:194-195 | a balance merge keeps both the native and the token list free of repeated keys |
| BalanceMerge.UniqueAmount | contracts/cw20-escrow/src/contract.rs:442-445 | in a list without repeated keys an entry's amount is the whole total for its key |
| BalanceMerge.DepositedIsMergedIntoEmpty | contracts/cw20-escrow/src/contract.rs:119-138 | the balance an escrow is created with equals the deposit merged into an empty balance, for deposits without repeated denominations |
| BalanceMerge.AddTokensProper | contracts/cw20-escrow/src/contract.rs:437-446 | two native deposits give atom 579, eth 789, btc 12 in that order |
| BalanceMerge.AddCwTokensProper | contracts/cw20-escrow/src/contract.rs:448-478 | three token deposits give foo_token 35745 then bar_token 777 |
| Transfers.TokenTransfers | contracts/cw20-escrow/src/contract.rs:278-293 | one transfer per token holding, in holding order, of the holding's amount by the holding's contract |
| Transfers.SendTokens | contracts/cw20-escrow/src/contract.rs:267-296 | `send_tokens`: a bank send only when native coins are held and only first, then one transfer per token; every instruction pays `to` |
| Transfers.ReleasedAppend | contracts/cw20-escrow/src/contract.rs:294 | what two concatenated instruction lists release is what each releases, concatenated |
| Transfers.ReleasedTokenTransfers | contracts/cw20-escrow/src/contract.rs:278-293 | the token transfers release exactly the token holdings |
| Transfers.SendTokensReleasesBalance | contracts/cw20-escrow/src/contract.rs:267-296 | round trip: the instructions `send_tokens` builds release exactly the balance, nothing added or dropped |
| Contract.ValidateAddr | contracts/cw20-escrow/src/contract.rs:214 | an address validates iff the host accepts it, to itself; otherwise `InvalidAddress` |
| Contract.LoadManager | contracts/cw20-escrow/src/contract.rs:213-214 | a missing manager entry is `NotFound`, an invalid one `InvalidAddress`; the load succeeds exactly when the stored manager is valid (`ManagerValid`, the guard approve and refund are stated through) and yields that address |
| Contract.ConstantsSet | contracts/cw20-escrow/src/contract.rs:61-82 | `execute_setconstant`: missing manager is `NotFound`; an unset manager lets anyone write; a set manager must validate and must be the sender (`Unauthorized` otherwise); success writes all four values, which the constants query then returns, and keeps every other entry |
| Contract.QueryConstants | contracts/cw20-escrow/src/contract.rs:344-351 | `query_constants`: succeeds iff all four entries are stored, and returns them |
| Contract.BootstrapThenLock | contracts/cw20-escrow/src/contract.rs:67-78 | from an unset manager the first write succeeds; after it stores a valid manager, a write by anyone else is `Unauthorized` |
| Contract.Created | contracts/cw20-escrow/src/contract.rs:106-161 | `execute_create`: `EmptyBalance`, `NotFound` (no `rate_manager`), `Unauthorized` (token not the `rate_manager` token), `AlreadyInUse`, in that order; success iff none applies; the new escrow belongs to the sender, holds the deposit, has an empty funding log, state 0 and the request's metadata; the whitelist is the requested one, with the deposited token appended only when absent; no other escrow changes |
| Contract.CreatedKeepsUnique | contracts/cw20-escrow/src/contract.rs:119-157 | if no stored balance repeats a denomination or token and the native funds repeat none, none does after a create |
| Contract.ToppedUpKeepsUnique | contracts/cw20-escrow/src/contract.rs:194-198 | a top-up keeps every stored balance free of repeated denominations and tokens, whatever the deposit |
| Contract.ReceivedKeepsUnique | contracts/cw20-escrow/src/contract.rs:85-104 | a token deposit keeps every stored balance free of repeated denominations and tokens |
| Contract.ToppedUp | contracts/cw20-escrow/src/contract.rs:163-202 | `execute_top_up`: `EmptyBalance`, `NotFound`, `NotInWhitelist`, in that order; success iff none applies; one funding record appended (token amount, or 0 for native); balance is the merge and conserves value; nothing else in this escrow or any other changes |
| Contract.Received | contracts/cw20-escrow/src/contract.rs:85-104 | `execute_receive`: an invalid wrapped sender fails with `InvalidAddress`; otherwise exactly create or top-up with the calling token contract's amount as deposit and the wrapped sender as creator or funder |
| Contract.CreateTwiceFails | contracts/cw20-escrow/src/contract.rs:153-157 | a second create under a used id fails with `AlreadyInUse` |
| Contract.ApproveAllowed | contracts/cw20-escrow/src/contract.rs:216-217 | the approve guard as written admits a sender iff it is both the client and the manager |
| Contract.ExecuteApprove | contracts/cw20-escrow/src/contract.rs:204-236 | `execute_approve`: `NotFound` for an unknown id or missing manager, `InvalidAddress` for an invalid manager, `Unauthorized` unless the sender is client and manager; success iff none applies, with the whole balance sent to the client |
| Contract.ExecuteRefund | contracts/cw20-escrow/src/contract.rs:238-265 | `execute_refund`: `NotFound` or `InvalidAddress` as for approve; success iff the escrow and a valid manager exist, whoever the sender; the whole balance is sent to the sender |
| Contract.ApprovePaysClient | contracts/cw20-escrow/src/contract.rs:216-234 | a successful approve releases exactly the escrow's balance, every instruction paying the client, who is the sender and the manager |
| Contract.RefundPaysCaller | contracts/cw20-escrow/src/contract.rs:245-263 | with the escrow and a valid manager stored, refund succeeds for any caller and releases exactly the balance to that caller |
| Contract.TopUpThenApprove | contracts/cw20-escrow/src/contract.rs:163-236 | an approval after a top-up releases exactly the old balance with the deposit merged in |
| Contract.QueryDetails | contracts/cw20-escrow/src/contract.rs:307-336 | `query_details`: `NotFound` iff the id is unknown; otherwise the id, client, end time, both balances and the whitelist as stored |
| Contract.CreateThenDetails | contracts/cw20-escrow/src/contract.rs:140-151 | right after a create the details show the sender as client, the request's end time, exactly the deposit, and the deposited token on the whitelist |
| Contract.Contains | contracts/cw20-escrow/src/contract.rs:180 | the whitelist scan finds a key iff it is listed |
| Contract.EscrowContract.Instantiate | contracts/cw20-escrow/src/contract.rs:21-37 | `instantiate`: no escrows; manager "", min stake, both rates "10", and the developer address; the constants query returns ("", "10", "10", "10"); the invariant `Valid` holds |
| Contract.EscrowContract.SetConstant | contracts/cw20-escrow/src/contract.rs:61-82 | commits exactly `ConstantsSet`, or changes nothing on failure; escrows untouched; preserves `Valid` |
| Contract.EscrowContract.Create | contracts/cw20-escrow/src/contract.rs:106-161 | commits exactly `Created`, or changes nothing on failure; constants untouched; preserves `Valid` (every constant stored, no stored balance repeats a key) when the native funds repeat no denomination |
| Contract.EscrowContract.TopUp | contracts/cw20-escrow/src/contract.rs:163-202 | commits exactly `ToppedUp`, or changes nothing on failure; constants untouched; preserves `Valid` |
| Contract.EscrowContract.Receive | contracts/cw20-escrow/src/contract.rs:85-104 | commits exactly `Received` for the calling token contract, or changes nothing on failure; preserves `Valid` |
| Contract.EscrowContract.Execute | contracts/cw20-escrow/src/contract.rs:39-59 | routes each message: attached coins are the deposit of create and top-up, the caller is the token of a `Receive`; approve and refund return `ExecuteApprove`/`ExecuteRefund` and change nothing; preserves `Valid` when the attached coins repeat no denomination |
| Scenarios.HappyPathCw20 | contracts/cw20-escrow/src/contract.rs:361-435 | a token create is `Unauthorized` before the bootstrap write; after it, the details show client "source" and whitelist [other-token, my-cw20-token]; approval by "arbitrate" is `Unauthorized`; approval by "source" pays 100 tokens, twice; a stranger's refund pays the stranger |
| Scenarios.MixedNativeMerge | contracts/cw20-escrow/src/contract.rs:505-520 | [fee 100, stake 200] topped up with [random 250, stake 300] holds [fee 100, stake 500, random 250] |
| Scenarios.FundMixed | contracts/cw20-escrow/src/contract.rs:493-522 | the native create and top-up leave one escrow of "source" with that native balance and the requested whitelist |
| Scenarios.TopUpTokens | contracts/cw20-escrow/src/contract.rs:524-573 | two whitelisted tokens are appended in arrival order; a token off the whitelist is `NotInWhitelist` and changes nothing |
| Scenarios.TopUpMixedTokens | contracts/cw20-escrow/src/contract.rs:480-618 | the token off the list is refused; the approval pays one bank send [fee 100, stake 500, random 250] then bar_token 7890 then foo_token 888, all to "source" |

## Left out

- `contracts/cw20-escrow/src/state.rs` is not part of this model. `add_tokens`, `Escrow`, `GenericBalance` and the storage maps are modelled from their uses in `contract.rs` and from the balance tests. The list query (`query_list`, `all_escrow_ids`) depends on that file and is left out.
- `contracts/cw20-escrow/src/msg.rs` is not part of this model. The requested whitelist is taken as given (none requested is the empty list). The validation of each listed address by `addr_whitelist` (line 116), and its `InvalidAddress` failure, are not modelled.
- Contract.EscrowContract.Create: keeps the no-repeated-keys invariant only for native funds without a repeated denomination. The host delivers validated coins of that shape; the contract itself does not check it, and a create with a repeated denomination stores it as it is.
- Contract.EscrowContract.Execute: same premise as `Contract.EscrowContract.Create` on the attached coins.
- Contract.Created: does not model the whitelist validation failure at line 116, because the validating code is in `msg.rs`.
- BalanceMerge.AddTokens: amounts are unbounded; the Uint128 overflow check of `+=`, which aborts the call, is not modelled.
- Contract.ToppedUp: inherits the unbounded merge; a top-up that would overflow a Uint128 amount succeeds in the model.
- Contract.EscrowContract.TopUp: same as `Contract.ToppedUp`; no overflow abort.
- Start and end times are `nat`, not `u64`; no bound is modelled.
- The `query` entry point, `to_binary`/`from_binary` encoding, and the failure of a malformed wrapped payload in `execute_receive` (line 90) are left out. Payloads are typed values here.
- `set_contract_version` (line 28) and the response attributes are left out. Responses carry only their instructions.
- In `execute_approve`, the second load and validation of the manager (lines 225-226) are folded into the first, since nothing changes between them. The manager transfer list built at line 228 is discarded by the code and has no effect.
- `addr_validate` is the parameter `api`. Address normalisation inside the host is not modelled.
- Expiry (`is_expired`) is commented out in the code, and so it is not modelled.
