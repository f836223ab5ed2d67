# Collectible ledger, modelled in Dafny

This project models `Collectible` (`src/contract.ts`), a small in-memory
multi-token ledger written in the style of a NEAR contract. It keeps:

- `tokensById`: one `Token` record (owner, token id, balance, approved
  accounts with their approval ids, next approval id) per (token id, holder);
- `tokensPerOwner`: a unit count per account, summed over token ids;
- `greeting`: a string only the account that constructed the ledger may change.

Its operations mint one unit to the caller (`nft_collect`), grant an approval
on the caller's record (`nft_approve`), query an approval (`nft_is_approved`),
move one unit (`nft_transfer`), and answer balance and supply queries
(`nft_balance`, `collection_balance`, `nft_total_supply`). It also reads and
writes the greeting (`get_greeting`, `set_greeting`).

## Layout

- `ledger.dfy`, module `Ledger`: the `Token` record and the error kinds. It
  holds the invariants of the maps: records agree with their keys, hold at
  least one unit, their approval ids are distinct and below the next id, and
  "__proto__" is never an approved account (`WellFormed`); every holder has a count (`Indexed`); the count is exact
  (`Consistent`); the count is never below the holdings (`Covered`). It also
  holds total supply and per-account holdings as sums over keys (`SumOf`,
  `Supply`, `HolderSum`), with lemmas for one update or one removal. Last come
  the operations as functions on the two maps (`Collected`, `Approved`,
  `Approval`, `TransferCheck`, `Transferred`, ...).
- `properties.dfy`, module `LedgerProperties`: what each operation does to
  the records, the counts, the supply and the invariants.
- `contract.dfy`, module `Contract`: the class `Collectible`. Its fields are
  the contract's fields, and each method's `ensures` ties the new state to the
  functions of `Ledger`. The methods run the source's checks in its order, and
  its updates in its order except in `nft_transfer` (see "Left out"). The record writes of `nft_transfer` (alias, debit, overwrite) sit
  in one method on map values, `DebitAndCredit`, whose result the class stores.
  The loops of `nft_total_supply` and `nft_is_approved` stay loops.
- `scenarios.dfy`, module `Scenarios`: the repository's test scenarios
  (`test/index.test.ts:31-90`), replayed as methods whose assertions follow
  from the operations' contracts.

Modelling decisions:

- The signer returned by `near.signerAccountId()` becomes an explicit `caller`
  parameter. The constructor's caller becomes `owner`.
- The string key `token_id + ":" + account` becomes the pair
  `(token_id, account)`. A numeric token id never renders with a `:`, so the
  string key is injective and the pair is an exact stand-in.
- A thrown exception becomes an `Err` result, and in every case state is
  unchanged. A missing record that the source dereferences with `!` (a
  TypeError) becomes `MissingRecord`; the `assert` messages become
  `NotTokenOwner`, `NotApproved`, `NoBalance` and `NotContractOwner`.
- Every mutation reads a record, changes it and stores it back. The alias that
  `nft_transfer` stores under the recipient's key (`src/contract.ts:144`) is
  always overwritten (`:157`). So records are immutable datatype values.
- The approved accounts of a record are a plain JavaScript object (`{}` at
  `src/contract.ts:162` and `:186`), modelled as a map. Writing a number under
  the key "__proto__" (`:122`) runs the inherited prototype setter, which
  ignores it: no key is stored, and `Object.keys` (`:132`) never lists one.
  The model follows this (`ProtoKey` in `Approved` and `NftApprove`). Every
  other account id is an ordinary key.

Behaviour worth knowing:

- `nft_approve` without a record throws the dereference TypeError at
  `src/contract.ts:121`, before its owner check runs. On a well-formed ledger
  the owner check itself can never fail (`ApproveCheckWellFormed`).
- `nft_transfer` runs its checks on `from`'s record but debits the caller's
  record (`src/contract.ts:150-155`).
- Crediting the recipient overwrites its record with a fresh one-unit record
  (`:157-163`). For a transfer by `from` to another account, supply and the
  exact per-account count are therefore kept only when the recipient held none
  of the token. Otherwise the supply drops by what the recipient held
  (`TransferSupply`), and the recipient's count overshoots by exactly that much
  (`TransferToHolderOvercounts`). A transfer to oneself turns the holder's b
  units into one, so it keeps the supply only when b is 1.
- When the caller is `from`, a count never falls below the account's holdings
  (`TransferCovered`, `CollectCovered`). When the caller is someone else it
  can: the caller's record is debited but `from`'s count is
  (`TransferByOtherCallerUndercounts`). Exact consistency is therefore proved
  only for collect, approve and transfer by `from` to a new holder. Neither is
  part of the class invariant.

## Model

| member | source | states |
|---|---|---|
| `Contract.Collectible.constructor` | src/contract.ts:83-91 | the constructing account becomes the owner, the greeting is "hi", both maps are empty and the invariant holds |
| `Contract.Collectible.SetGreeting` | src/contract.ts:98-103 | succeeds exactly when the caller is the owner, after which the greeting is the new value; any other caller gets `NotContractOwner` and the greeting is unchanged; nothing else changes |
| `Contract.Collectible.NftTotalSupply` | src/contract.ts:110-116 | the loop over all records returns the sum of their balances |
| `Contract.Collectible.NftApprove` | src/contract.ts:118-126 | fails exactly when `ApproveCheck` does, with its error; on a valid ledger that is `MissingRecord`, changing nothing, exactly when the caller has no record of the token; otherwise returns true and the records become `Approved` (grantee gets the old next id unless it is "__proto__", the counter advances); counts and greeting unchanged; invariant kept |
| `Contract.Collectible.NftIsApproved` | src/contract.ts:128-135 | fails exactly when (token, owner) has no record; otherwise true exactly when the account is a key of the approvals or is the record's owner |
| `Contract.Collectible.NftTransfer` | src/contract.ts:137-166 | fails exactly when the checks on from's record fail, with their error and no state change; otherwise returns true, the records become `Transferred` (caller's record debited, recipient overwritten) and the counts `TransferredIndex`; invariant kept |
| `Contract.Collectible.NftCollect` | src/contract.ts:168-196 | always returns true; the records become `Collected` and the counts `CollectedIndex`; invariant kept |
| `Contract.Collectible.CollectionBalance` | src/contract.ts:214-217 | the account's count, absent when never credited; on a valid ledger every holder of a record has a count |
| `Contract.Collectible.NftBalance` | src/contract.ts:219-222 | the record's balance, 0 without a record; on a valid ledger it is 0 exactly when there is no record |
| `Contract.Collectible.GetGreeting` | src/contract.ts:93-96 | the current greeting; its value is stated by the constructor (`greeting == "hi"`) and by `SetGreeting` (`GetGreeting() == ...`) |
| `Contract.DebitAndCredit` | src/contract.ts:144-163 | storing the caller's record under to's key, debiting the caller's record (deleted at zero), then overwriting to's key gives exactly `Transferred` |
| `Ledger.Collected` | src/contract.ts:171-187 | the records after nft_collect; its effect is stated by `CollectEffect`, `CollectSupply` and `CollectKeepsValid` |
| `Ledger.CollectedIndex` | src/contract.ts:171-179 | the counts after nft_collect; its effect is stated by `CollectEffect` |
| `Ledger.ApproveCheck` | src/contract.ts:120-121 | nft_approve's two checks in order; `NftApprove` fails exactly with its error, and `ApproveCheckWellFormed` states when |
| `Ledger.Approved` | src/contract.ts:122-124 | the records after nft_approve, where a write to the key "__proto__" stores nothing; its effect is stated by `ApproveEffect`, `ApproveKeepsValid` and `ApproveBalances` |
| `Ledger.Approval` | src/contract.ts:128-135 | nft_is_approved's answer; `NftIsApproved`'s loop is proved equal to it |
| `Ledger.TransferCheck` | src/contract.ts:140-142 | nft_transfer's checks in order; `NftTransfer` fails exactly with its error, and `TransferCheckWellFormed` states when |
| `Ledger.Transferred` | src/contract.ts:144-163 | the records after nft_transfer; its effect is stated by `TransferEffect`, `SelfTransferEffect`, `TransferSupply` and `TransferKeepsValid` |
| `Ledger.TransferredIndex` | src/contract.ts:146-148 | the counts after nft_transfer; its effect is stated by `TransferIndexEffect` |
| `LedgerProperties.CollectEffect` | src/contract.ts:169-188 | the caller's balance rises by one; a missing record becomes a fresh one-unit record, an existing one changes only its balance; the caller's count becomes old (absent read as 0) plus one; no other record or count changes |
| `LedgerProperties.CollectKeepsValid` | src/contract.ts:171-187 | collecting keeps records well formed and holders indexed |
| `LedgerProperties.CollectSupply` | src/contract.ts:169-188 | every collect raises the total supply by exactly one |
| `LedgerProperties.CollectConsistent` | src/contract.ts:171-187 | collecting keeps every count equal to the account's holdings |
| `LedgerProperties.CollectCovered` | src/contract.ts:171-187 | collecting keeps every count at or above the account's holdings |
| `LedgerProperties.ApproveCheckWellFormed` | src/contract.ts:120-121 | on a well-formed ledger approve fails exactly when the caller has no record, and then with `MissingRecord` |
| `LedgerProperties.ApproveEffect` | src/contract.ts:122-124 | the grantee's approval id is the old next id and the approved accounts are the old ones plus the grantee, except that for "__proto__" the approvals are unchanged; the next id rises by one; balance, owner, token id, the other approvals and all other records are unchanged |
| `LedgerProperties.ReapproveIncreases` | src/contract.ts:122-123 | approving the same grantee again stores a strictly larger id; approving "__proto__" twice stores nothing and advances the counter by two |
| `LedgerProperties.ApproveKeepsValid` | src/contract.ts:122-124 | approving keeps approval ids distinct and below the counter, and the records well formed |
| `LedgerProperties.ApproveBalances` | src/contract.ts:122-124 | approving changes neither the supply nor any account's holdings, so an exact count stays exact |
| `LedgerProperties.ApprovalAfterApprove` | src/contract.ts:122-135 | after the owner approves a grantee, is-approved for that grantee is true; for "__proto__", on a well-formed ledger, it is true only when "__proto__" is itself the holder |
| `LedgerProperties.ApprovalOfHolder` | src/contract.ts:130-134 | on a well-formed ledger a holder is approved on its own record, and the query fails only without a record |
| `LedgerProperties.TransferCheckWellFormed` | src/contract.ts:140-142 | on a well-formed ledger the transfer checks pass exactly when from holds a record of the token |
| `LedgerProperties.TransferEffect` | src/contract.ts:144-163 | transfer by from to another account: from's balance drops by one and its record disappears exactly when it held one unit, otherwise only its balance changes; to's record is a fresh one-unit record; no other record changes |
| `LedgerProperties.TransferAliasOverwritten` | src/contract.ts:144-163 | the caller's record first stored under to's key never survives: with the alias written, the records end exactly as `Transferred` |
| `LedgerProperties.SelfTransferEffect` | src/contract.ts:144-163 | a transfer to oneself leaves a fresh one-unit record under the holder's key |
| `LedgerProperties.TransferIndexEffect` | src/contract.ts:146-148 | from's count drops by one and to's becomes old (absent read as 0) plus one; to oneself the counts are unchanged; other counts unchanged |
| `LedgerProperties.TransferKeepsValid` | src/contract.ts:144-163 | any transfer, whoever the caller, keeps records well formed and holders indexed |
| `LedgerProperties.TransferSupply` | src/contract.ts:150-163 | for a transfer by from (whose record is debited) to another account: it lowers the supply by exactly what the recipient held of the token (unchanged when it held none); to oneself, b units become one |
| `LedgerProperties.TransferHolderSum` | src/contract.ts:150-163 | for a transfer by from to another account: from's holdings drop by one, to's lose their old units of the token and gain one, everyone else's are unchanged |
| `LedgerProperties.TransferToNewHolderConsistent` | src/contract.ts:147-163 | for a transfer by from to another account without a record of the token conserves supply and keeps every count exact |
| `LedgerProperties.TransferToHolderOvercounts` | src/contract.ts:148-163 | for a transfer by from to another account: when the recipient held b units, its count ends exactly b above its holdings |
| `LedgerProperties.TransferCovered` | src/contract.ts:147-163 | for a transfer by from, whatever the recipient held, counts never fall below holdings |
| `LedgerProperties.TransferByOtherCallerUndercounts` | src/contract.ts:140-155 | a ledger where paul passes the checks but morgan calls: morgan's unit goes to x, paul's count drops to 0 while paul still holds 1, so counts no longer cover holdings |
| `LedgerProperties.TransferCountAt` | src/contract.ts:147-163 | on a well-formed ledger, after a transfer by from each account's count is still at least its holdings |
| `LedgerProperties.SupplyBounds` | src/contract.ts:110-116 | on a well-formed ledger the supply is at least the number of records, and zero exactly when there are none |
| `Ledger.SumOfRemove` | src/contract.ts:112-114 | the sum of balances does not depend on the order the records are visited in |
| `Ledger.SupplyAfterSet` | src/contract.ts:111-116 | storing a record changes the supply by its balance minus what the key held |
| `Ledger.SupplyAfterRemove` | src/contract.ts:111-116 | deleting a record lowers the supply by its balance |

## Left out

- MobX: the `observable`/`action`/`computed` decorators and
  `makeAutoObservable` only notify observers of changes and do not affect the
  ledger's values.
- Logging: the log lines of `set_greeting` and `nft_collect` are dropped.
- The `near` stub: the signer identity is a `caller` parameter.
- Metadata: the metadata types, `tokenMetadataById`, `contractMetadata`,
  `tokenMetadata`, the constructor's metadata arguments and `nft_metadata` are
  stored and returned but never interpreted. The commented-out `nft_token` is
  not code.
- Contract.Collectible.NftTransfer: requires that the caller holds a record of the token whenever from does. On a valid ledger the checks pass exactly when from holds a record, so this excludes only the case where they pass and the caller holds none. There the source stores `undefined` under the recipient's key, edits `tokensPerOwner` and throws. That corrupted state is not modelled.
- Contract.Collectible.NftTransfer: the record writes (alias, debit, overwrite) are made by `DebitAndCredit` on a map value, which the method then stores in `tokensById`; the count updates follow. The source makes the count updates (`src/contract.ts:147-148`) between the alias write and the debit, but they touch only `tokensPerOwner` and nothing else runs in between, so the final state is the same.
- JavaScript numbers: balances, ids and counts are unbounded integers. There
  is no float rounding or 2^53 limit, and token ids are integers. The
  `undefined + 1` read at `src/contract.ts:172` cannot happen on a valid ledger,
  because every holder has a count.
- `Object.keys` order: `NftIsApproved` visits the approved accounts in no
  particular order. Its result does not depend on the order.
- The test harness: jest and `autorun` are dropped. The scenarios are replayed
  in `scenarios.dfy`.
