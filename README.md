# ERC-1155 balance ledger and OpenSea v1 sale matcher

This project is a Dafny model of two event handlers from an NFT indexer, with proofs about that model.

- **ERC-1155 ledger.** The `TransferSingle` and `TransferBatch` handlers apply each token movement to the indexer's store:
  - the sender's `Holding` (per token) and `CollectionHolding` (per collection) are debited, and each is removed when it reaches exactly 0;
  - the receiver's two records are credited, or created when absent;
  - the token's `totalSupply` moves on mints (from the zero address) and on burns (to the zero address);
  - one `Transfer` record is written under `block-logIndex-batchIndex`.

  A mint emitted by a deny-listed contract is dropped.
- **OpenSea v1 sales.** For an `OrdersMatched` event, the handler:
  - loads the transaction;
  - writes one `Sale` under `block-logIndex`, with the price converted from wei to ether;
  - divides the amount evenly by the transaction's unmatched-transfer count;
  - hands every transfer of the transaction, in list order, to the transfer/sale matcher.

How the model is built:

- The stores are maps from the composite string key to the record.
- The classes `Eip1155.Ledger` and `OpenSeaV1.Marketplace` hold those maps and update them step by step, like the handlers do.
- Each method is proved equal to a function from the old state to the new one: `TransferStep`, `SingleStep`, `BatchStep` or `SaleStep`. The lemmas state what those functions promise.
- Module `Keys` derives the composite keys. It proves that two keys collide only when their parts are equal: for decimal numbers always, and for hex account ids, which contain no `-`.

Modelling choices:

- An account id is the lowercase hex string of the address.
- The registry lookups (contract address to collection id, and (collection, token number) to token id) are a `Registry` parameter.
- A token not yet stored has supply 0.
- Amounts are exact `real`s.
- The division by an unmatched count of 0 is an explicit `DivisionByZero` outcome. It is reached after the sale has been saved, as in the code.

## Model

| member | source | states |
|---|---|---|
| Eip1155.Ledger.Transfer | src/eip1155/index.ts:60-154 | The ledger after one `transfer` call is `TransferStep` of the ledger before: sender debit and removal at 0, receiver credit or creation, supply on mint and burn, collection saved, one Transfer record |
| Eip1155.Ledger.HandleTransferSingle | src/eip1155/index.ts:22-38 | The ledger after a TransferSingle event is `SingleStep`: one `transfer` with batch index 0, or no change at all for a deny-listed mint |
| Eip1155.Ledger.HandleTransferBatch | src/eip1155/index.ts:40-58 | The ledger after a TransferBatch event is `BatchStep`: one `transfer` per `ids[i]`, in increasing `i`, with `values[i]` and batch index `i`; no change for a deny-listed mint |
| Eip1155.DebitRecord | src/eip1155/index.ts:81-102 | Load, subtract, save, and remove at exactly 0, as step-by-step map updates equal to `Debit` |
| Eip1155.CreditRecord | src/eip1155/index.ts:105-136 | Load and add, or create with balance `value`, as step-by-step map updates equal to `Credit` |
| Eip1155Properties.OnlyFirstIgnoredEntryMatches | src/eip1155/index.ts:12-20 | For a lowercase hex address, `isIgnoredAddress` holds iff the address is the first deny-list entry; the two mixed-case entries never match |
| Eip1155Properties.DenyListedMintIgnored | src/eip1155/index.ts:22-26 | A mint from a deny-listed contract leaves holdings, supply, collections and Transfer records unchanged, in both handlers |
| Eip1155Properties.SenderDebited | src/eip1155/index.ts:81-102 | A non-zero sender distinct from the receiver: its existing Holding and CollectionHolding become old − value, and are removed iff that is 0; a sender without a record stays without one |
| Eip1155Properties.ReceiverCredited | src/eip1155/index.ts:105-136 | A non-zero receiver distinct from the sender: its existing record gains exactly `value`; an absent one is created with balance `value` and its account and token (or collection) set |
| Eip1155Properties.OtherRecordsUnchanged | src/eip1155/index.ts:81-136 | Every Holding and CollectionHolding other than the sender's and the receiver's is left exactly as it was |
| Eip1155Properties.ZeroAddressUntouched | src/eip1155/index.ts:82-136 | For dash-free sender and receiver ids, no Holding or CollectionHolding of the zero address is created, changed or removed, in any token or collection |
| Eip1155Properties.SupplyAdjusted | src/eip1155/index.ts:139-140 | Supply rises by `value` on a mint and falls by `value` on a burn. It is unchanged when both ends are zero or neither is, and no other token's supply moves |
| Eip1155Properties.DebitTotal | src/eip1155/index.ts:81-102 | A debit lowers the sum of balances of the debited record's asset by exactly `value`, and no other sum |
| Eip1155Properties.CreditTotal | src/eip1155/index.ts:105-136 | A credit raises the sum of balances of the credited asset by exactly `value`, and no other sum |
| Eip1155Properties.MoveTotal | src/eip1155/index.ts:81-136 | When the records already under the sender's and the receiver's keys belong to the moved asset, a debit followed by a credit in one store changes that asset's sum by credited minus debited amount, and no other sum |
| Eip1155Properties.HoldingsConserved | src/eip1155/index.ts:81-140 | When every record is filed under its own key (`Keyed`), account ids contain no `-`, and the sender is zero or holds a record, the sum of the token's Holding balances changes by exactly the change in its totalSupply; other tokens' sums are unchanged |
| Eip1155Properties.CollectionHoldingsConserved | src/eip1155/index.ts:93-140 | Under the same conditions (`Keyed`, dash-free account ids, sender zero or holding a CollectionHolding), the same conservation for CollectionHolding sums of the collection, against the token's supply change |
| Eip1155Properties.DebitKeeps | src/eip1155/index.ts:83-89 | A debit only changes a balance or removes a record: every record left under a key was there before, with the same account and asset |
| Eip1155Properties.EmptyLedgerKeyed | src/eip1155/index.ts:81-136 | In the empty ledger every record is filed under its own key (`Keyed`), the starting point for `KeyedPreserved` |
| Eip1155Properties.KeyedPreserved | src/eip1155/index.ts:105-136 | From a `Keyed` ledger and a dash-free receiver, every record stays stored under the key built from its own account and token (`account-token`) or collection (`collection-account`) |
| Eip1155Properties.BalancesStayPositive | src/eip1155/index.ts:81-136 | With positive values and senders holding at least `value`, every stored record keeps a positive balance, so a record exists iff its balance is non-zero |
| Eip1155Properties.ZeroValueCreatesEmptyHolding | src/eip1155/index.ts:112-119 | A zero-value transfer to a non-zero receiver without a record creates a record with balance 0 |
| Eip1155Properties.SelfTransferRestores | src/eip1155/index.ts:81-136 | When every record is filed under its own key (`Keyed`) and the account id has no `-`, a self-transfer by an account holding both records leaves the stores as they were, although the debit may have removed a record that the credit then re-creates |
| Eip1155Properties.SelfTransferFromUntrackedCreates | src/eip1155/index.ts:105-119 | A self-transfer by a non-zero account without a Holding creates one with balance `value` while supply is unchanged |
| Eip1155Properties.SingleWritesRecord | src/eip1155/index.ts:27-37 | A TransferSingle event that is not dropped writes its Transfer record under batch index 0 |
| Eip1155Properties.BatchPrefixTransfers | src/eip1155/index.ts:45-57 | Along the items of a batch, the Transfer records change by one write per item, in order |
| Eip1155Properties.BatchRecords | src/eip1155/index.ts:145-153 | After the first `n` items of a batch, the record under `block-logIndex-i` is the one for item `i`, for every `i < n` |
| Eip1155Properties.BatchRecordsFrame | src/eip1155/index.ts:145-153 | A batch adds exactly the keys of its own items, and leaves every other Transfer record unchanged |
| Eip1155Properties.SingleIsBatchOfOne | src/eip1155/index.ts:22-58 | A TransferSingle event has the same effect as a TransferBatch event of the one (id, value) pair |
| Keys.NatToString | src/eip1155/index.ts:145 | The decimal form of a number is a non-empty digit string without `-` |
| Keys.ParseNatToString | src/eip1155/index.ts:145 | The decimal form of a number reads back as that number |
| Keys.HoldingKeyInjective | src/eip1155/index.ts:81 | Two `account-token` keys of dash-free accounts are equal iff the accounts and the tokens are |
| Keys.CollectionHoldingKeyInjective | src/eip1155/index.ts:93 | Two `collection-account` keys of dash-free accounts are equal iff the collections and the accounts are |
| Keys.TransferKeyInjective | src/eip1155/index.ts:145 | Two `block-logIndex-index` keys are equal iff block, log index and batch index are |
| Keys.SaleKeyInjective | src/marketplaces/OpenSeaV1Mapping.ts:35 | Two `block-logIndex` sale keys are equal iff block and log index are |
| OpenSeaV1.Marketplace.HandleOSv1Sale | src/marketplaces/OpenSeaV1Mapping.ts:26-76 | The store, log and outcome after the handler are `SaleStep` of the store before, and the transaction store is never written |
| OpenSeaV1.WeiToEth | src/marketplaces/OpenSeaV1Mapping.ts:43 | The sale amount times 10^18 is the price in wei, and it is non-negative |
| OpenSeaV1.PerTransferAmount | src/marketplaces/OpenSeaV1Mapping.ts:48 | The per-transfer amount times the unmatched count is the sale amount; it is defined only for a non-zero count |
| OpenSeaV1.MatchCallsInOrder | src/marketplaces/OpenSeaV1Mapping.ts:52-66 | The matcher is called once per entry of the transfer list, and call `i` is for entry `i`, each time with the same amount, transaction id and sale id |
| OpenSeaV1.TotalMatchedIsEvenSplit | src/marketplaces/OpenSeaV1Mapping.ts:52-66 | The amounts handed to the matcher add up to the share times the number of transfers |
| OpenSeaV1.RecordedSaleCalls | src/marketplaces/OpenSeaV1Mapping.ts:39-66 | After a recorded sale, the count is non-zero, the sale amount is the price in ether, and the log has grown by exactly the calls for the transaction's transfers, in order; by no call at all when the transaction id is empty, as the line-52 guard skips the loop |
| OpenSeaV1.EvenSplitCoversSale | src/marketplaces/OpenSeaV1Mapping.ts:43-66 | For a transaction with a non-empty id (its hash, in the indexer) whose unmatched count equals the number of listed transfers, the amounts handed to the matcher add up to exactly the sale amount |
| OpenSeaV1.SaleRecordWritten | src/marketplaces/OpenSeaV1Mapping.ts:29-44 | The call is skipped and nothing changes iff the transaction is absent, its value is 0 or the sale key exists. Otherwise the only record written is the new sale (`block-logIndex`, tx id, "ETH", "OpenSea", price / 10^18), and transactions are never written |
| OpenSeaV1.DivisionByZeroOnlyOnEmptyCount | src/marketplaces/OpenSeaV1Mapping.ts:44-48 | Past the guards, the division fault happens iff the unmatched count is 0; the sale is saved but no matcher call is made |
| OpenSeaV1.ReplayIsNoOp | src/marketplaces/OpenSeaV1Mapping.ts:35-36 | Handling the same event a second time changes nothing and is skipped |
| OpenSeaV1.TwoTransferSale | src/marketplaces/OpenSeaV1Mapping.ts:39-66 | A transaction with two transfers, count 2 and a price of 2 ether yields a sale of 2.0 and matcher calls of 1.0 for each transfer, in order |

## Left out

- The graph-node store and the generated schema and event classes are replaced by maps and datatypes. Entity loading and saving are map reads and writes.
- Event decoding is not modelled. `toHexString()` is taken to give the lowercase hex account id.
- `BigInt` is modelled as unbounded integers. `BigDecimal` is modelled as exact reals, so decimal precision and rounding are not modelled.
- `fetchRegistry` and `fetchToken` (src/utils/erc1155) are not part of this model. They become the `Registry` functions, and a token seen for the first time reads as supply 0.
- `getOrCreateAccount` (src/utils/entity-factory) is not part of this model. An account id is its hex address, and Account records are not stored.
- The token entity is reduced to its `totalSupply`, and the collection entity to membership in a set of saved collections.
- `MatchTransferWithSale` (src/utils/matchTransferSale) is not part of this model. Each call is recorded in `matchLog` with its arguments. Its effects on transfers and on the unmatched count are not modelled, so the transfer price and the count reaching 0 are not stated.
- The appending to `transaction.transfers` and the incrementing of the unmatched count happen outside these handlers and are not modelled.
- `tx.transfers` is always a list in the model, so the null case of the line-52 guard is not modelled. `transferAmount` is always present. `tx.id` and the sale id count as true when non-empty.
- The host aborts the handler after a division by zero. The model stops the handler there with the sale already saved, and does not model whether the host discards that save.
- The metrics step (OpenSeaV1Mapping.ts:69) and the commented-out error log (line 74) are left out. Neither does anything.
- The model follows the code as written, including where a ledger would be expected to behave otherwise:
  - nothing keeps balances or `totalSupply` from going negative (`SenderDebited`);
  - a zero-balance record can be created (`ZeroValueCreatesEmptyHolding`);
  - the loop walks every listed transfer, not only the unmatched ones;
  - a zero unmatched count is not handled (`DivisionByZeroOnlyOnEmptyCount`).
- Eip1155Properties.HoldingsConserved: holds only when the sender is the zero address or holds a record, when account ids contain no `-`, and when every stored record sits under the key built from its own fields (`Keyed`). `Keyed` holds for the empty ledger (`EmptyLedgerKeyed`) and every step keeps it (`KeyedPreserved`). A self-transfer from an untracked account creates balance from nothing (`SelfTransferFromUntrackedCreates`).
- Eip1155Properties.CollectionHoldingsConserved: holds only under the same preconditions as HoldingsConserved, `Keyed` included.
- Eip1155Properties.SelfTransferRestores: also requires `Keyed` and a dash-free account id.
- Eip1155Properties.BalancesStayPositive: "a record exists iff its balance is non-zero" is proved only for positive values and senders holding at least `value`. The code itself keeps neither.
- Eip1155.Ledger.HandleTransferBatch: requires `values` to be at least as long as `ids`. EIP-1155 makes them equal, and the code would read past the end otherwise.
