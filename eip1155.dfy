/**
 * The ERC-1155 balance ledger: the TransferSingle and TransferBatch event
 * handlers and the `transfer` step they share. Each step loads, changes,
 * saves or removes Holding and CollectionHolding records, adjusts the
 * token's total supply on mints and burns, and writes one Transfer record.
 *
 * Records live in keyed stores, here maps from the composite string key to
 * the record. The `Ledger` class holds those stores and performs the steps in
 * place; `TransferStep`, `SingleStep` and `BatchStep` give the state after a
 * step as a function of the state before it, and the lemmas in module
 * Eip1155Properties state what those functions promise.
 */
module Eip1155 {
  import opened Keys

  /** The account id of the zero address: mints come from it, burns go to it. */
  const ADDRESS_ZERO: string := "0x0000000000000000000000000000000000000000"

  /** Contracts whose mints are not indexed, compared with the lowercase hex form of the emitter. */
  const IGNORE_CONTRACT_ADDRESSES: seq<string> := [
    "0xe0427d3a6a1cde18e0d697e20c71b0c86ee0bc4c",
    "0xd17528b58Ba1D1E3DDdC48B1cE3B892049889c93",
    "0xaBe3b6b8EEDeB953046e3C5E83FbCE0cF9625E64"
  ]

  /**
   * A balance record. In the Holding store `asset` is the token id; in the
   * CollectionHolding store it is the collection id.
   */
  datatype Holding = Holding(account: string, asset: string, balance: int)

  datatype Block = Block(number: nat, timestamp: int)

  /** The immutable record written for every transferred item. */
  datatype TransferRecord = TransferRecord(
    transaction: string,
    token: string,
    collection: string,
    senderAddress: string,
    receiverAddress: string,
    blockNumber: nat,
    timestamp: int)

  /**
   * The registry lookups the ledger relies on: the collection id of a
   * contract address and the token id of (collection, token number).
   */
  datatype Registry = Registry(collectionOf: string -> string, tokenOf: (string, nat) -> string)

  /** The arguments of one `transfer` call. Addresses are lowercase hex account ids. */
  datatype Movement = Movement(
    contract: string,
    from: string,
    to: string,
    value: nat,
    id: nat,
    block: Block,
    logIndex: nat,
    hash: string,
    index: nat)

  datatype TransferSingleEvent = TransferSingleEvent(
    address: string,
    from: string,
    to: string,
    id: nat,
    value: nat,
    block: Block,
    logIndex: nat,
    hash: string)

  datatype TransferBatchEvent = TransferBatchEvent(
    address: string,
    from: string,
    to: string,
    ids: seq<nat>,
    values: seq<nat>,
    block: Block,
    logIndex: nat,
    hash: string)

  /** Everything the ledger stores. `supply` maps a token id to its totalSupply. */
  datatype LedgerState = LedgerState(
    holdings: map<string, Holding>,
    collectionHoldings: map<string, Holding>,
    supply: map<string, int>,
    collections: set<string>,
    transfers: map<string, TransferRecord>)

  predicate IsIgnoredAddress(address: string) {
    address in IGNORE_CONTRACT_ADDRESSES
  }

  /** The shape `toHexString()` produces: "0x" followed by lowercase hex digits. */
  predicate IsLowerHex(s: string) {
    |s| >= 2 && s[0] == '0' && s[1] == 'x' &&
    forall i :: 2 <= i < |s| ==> s[i] in "0123456789abcdef"
  }

  /** An event the handlers drop: a mint emitted by a deny-listed contract. */
  predicate Suppressed(address: string, from: string) {
    from == ADDRESS_ZERO && IsIgnoredAddress(address)
  }

  function CollectionOf(reg: Registry, m: Movement): string {
    reg.collectionOf(m.contract)
  }

  function TokenOf(reg: Registry, m: Movement): string {
    reg.tokenOf(CollectionOf(reg, m), m.id)
  }

  /** The totalSupply of a token; a token not yet stored starts at 0. */
  function SupplyOf(supply: map<string, int>, token: string): int {
    if token in supply then supply[token] else 0
  }

  /** Sender side: subtract from an existing record, dropping it when it reaches exactly 0. */
  function Debit(store: map<string, Holding>, key: string, value: nat): (debited: map<string, Holding>) {
    if key in store then
      var h := store[key].(balance := store[key].balance - value);
      if h.balance == 0 then store - {key} else store[key := h]
    else
      store
  }

  /** Receiver side: add to an existing record, or create one holding `value`. */
  function Credit(store: map<string, Holding>, key: string, account: string, asset: string, value: nat)
    : (credited: map<string, Holding>)
  {
    if key in store then store[key := store[key].(balance := store[key].balance + value)]
    else store[key := Holding(account, asset, value)]
  }

  /**
   * One store after a movement of `value` of `asset`: first the sender's
   * record is debited (when `debit`), then the receiver's is credited (when
   * `credit`), the receiver's record being looked up after the debit.
   */
  function Move(store: map<string, Holding>, senderKey: string, receiverKey: string, receiver: string,
                asset: string, value: nat, debit: bool, credit: bool): (moved: map<string, Holding>)
  {
    var debited := if debit then Debit(store, senderKey, value) else store;
    if credit then Credit(debited, receiverKey, receiver, asset, value) else debited
  }

  function RecordOf(reg: Registry, m: Movement): TransferRecord {
    TransferRecord(m.hash, TokenOf(reg, m), CollectionOf(reg, m), m.from, m.to, m.block.number, m.block.timestamp)
  }

  /** The ledger after one `transfer` call. */
  function TransferStep(s: LedgerState, reg: Registry, m: Movement): (after: LedgerState) {
    var collection := CollectionOf(reg, m);
    var token := TokenOf(reg, m);
    var senderActive := m.from != ADDRESS_ZERO;
    var receiverActive := m.to != ADDRESS_ZERO;
    var holdings := Move(s.holdings, HoldingKey(m.from, token), HoldingKey(m.to, token), m.to, token, m.value,
                         senderActive, receiverActive);
    var collectionHoldings := Move(s.collectionHoldings, CollectionHoldingKey(collection, m.from),
                                   CollectionHoldingKey(collection, m.to), m.to, collection, m.value,
                                   senderActive, receiverActive);
    var minted := if senderActive then SupplyOf(s.supply, token) else SupplyOf(s.supply, token) + m.value;
    var burned := if receiverActive then minted else minted - m.value;
    LedgerState(
      holdings,
      collectionHoldings,
      s.supply[token := burned],
      s.collections + {collection},
      s.transfers[TransferKey(m.block.number, m.logIndex, m.index) := RecordOf(reg, m)])
  }

  function SingleMovement(e: TransferSingleEvent): Movement {
    Movement(e.address, e.from, e.to, e.value, e.id, e.block, e.logIndex, e.hash, 0)
  }

  function BatchMovement(e: TransferBatchEvent, i: nat): Movement
    requires i < |e.ids| <= |e.values|
  {
    Movement(e.address, e.from, e.to, e.values[i], e.ids[i], e.block, e.logIndex, e.hash, i)
  }

  /** The ledger after a TransferSingle event. */
  function SingleStep(s: LedgerState, reg: Registry, e: TransferSingleEvent): (after: LedgerState) {
    if Suppressed(e.address, e.from) then s else TransferStep(s, reg, SingleMovement(e))
  }

  /** The ledger after the first `n` items of a TransferBatch event, taken in order. */
  function BatchPrefix(s: LedgerState, reg: Registry, e: TransferBatchEvent, n: nat): (after: LedgerState)
    requires n <= |e.ids| <= |e.values|
  {
    if n == 0 then s else TransferStep(BatchPrefix(s, reg, e, n - 1), reg, BatchMovement(e, n - 1))
  }

  /** The ledger after a TransferBatch event. */
  function BatchStep(s: LedgerState, reg: Registry, e: TransferBatchEvent): (after: LedgerState)
    requires |e.ids| <= |e.values|
  {
    if Suppressed(e.address, e.from) then s else BatchPrefix(s, reg, e, |e.ids|)
  }

  /** Loads the record under `key`, subtracts `value`, saves it, and removes it if it is now 0. */
  method DebitRecord(store: map<string, Holding>, key: string, value: nat) returns (updated: map<string, Holding>)
    ensures updated == Debit(store, key, value)
  {
    updated := store;
    if key in updated {
      var held := updated[key];
      held := held.(balance := held.balance - value);
      updated := updated[key := held];
      if held.balance == 0 {
        updated := updated - {key};
      }
    }
  }

  /** Loads the record under `key` and adds `value`, or creates it with balance `value`. */
  method CreditRecord(store: map<string, Holding>, key: string, account: string, asset: string, value: nat)
    returns (updated: map<string, Holding>)
    ensures updated == Credit(store, key, account, asset, value)
  {
    updated := store;
    var found := key in updated;
    if found {
      var held := updated[key];
      updated := updated[key := held.(balance := held.balance + value)];
    }
    if !found {
      updated := updated[key := Holding(account, asset, value)];
    }
  }

  /** The keyed stores of the indexer that the ledger writes. */
  class Ledger {
    var holdings: map<string, Holding>
    var collectionHoldings: map<string, Holding>
    var supply: map<string, int>
    var collections: set<string>
    var transfers: map<string, TransferRecord>

    function State(): LedgerState
      reads this
    {
      LedgerState(holdings, collectionHoldings, supply, collections, transfers)
    }

    constructor ()
      ensures State() == LedgerState(map[], map[], map[], {}, map[])
    {
      holdings, collectionHoldings, supply, collections, transfers := map[], map[], map[], {}, map[];
    }

    /** The shared `transfer` step: balances, supply and the Transfer record. */
    method Transfer(reg: Registry, m: Movement)
      modifies this
      ensures State() == TransferStep(old(State()), reg, m)
    {
      var collection := reg.collectionOf(m.contract);
      var token := reg.tokenOf(collection, m.id);
      var sender, receiver := m.from, m.to;

      // decrement the sender's token and collection holdings
      var senderKey := HoldingKey(sender, token);
      if sender != ADDRESS_ZERO {
        holdings := DebitRecord(holdings, senderKey, m.value);
      }
      var senderCollectionKey := CollectionHoldingKey(collection, sender);
      if sender != ADDRESS_ZERO {
        collectionHoldings := DebitRecord(collectionHoldings, senderCollectionKey, m.value);
      }

      // increment (or create) the receiver's token and collection holdings
      var receiverKey := HoldingKey(receiver, token);
      if receiver != ADDRESS_ZERO {
        holdings := CreditRecord(holdings, receiverKey, receiver, token, m.value);
      }
      var receiverCollectionKey := CollectionHoldingKey(collection, receiver);
      if receiver != ADDRESS_ZERO {
        collectionHoldings := CreditRecord(collectionHoldings, receiverCollectionKey, receiver, collection, m.value);
      }

      // total supply moves on mints and burns
      var totalSupply := if token in supply then supply[token] else 0;
      if sender == ADDRESS_ZERO {
        totalSupply := totalSupply + m.value;
      }
      if receiver == ADDRESS_ZERO {
        totalSupply := totalSupply - m.value;
      }

      collections := collections + {collection};
      supply := supply[token := totalSupply];

      var record := TransferRecord(m.hash, token, collection, sender, receiver, m.block.number, m.block.timestamp);
      transfers := transfers[TransferKey(m.block.number, m.logIndex, m.index) := record];
    }

    method HandleTransferSingle(reg: Registry, e: TransferSingleEvent)
      modifies this
      ensures State() == SingleStep(old(State()), reg, e)
      ensures Suppressed(e.address, e.from) ==> State() == old(State())
    {
      if Suppressed(e.address, e.from) {
        return;
      }
      Transfer(reg, SingleMovement(e));
    }

    /** One `transfer` per id, in order, paired with the value at the same position. */
    method HandleTransferBatch(reg: Registry, e: TransferBatchEvent)
      requires |e.ids| <= |e.values|
      modifies this
      ensures State() == BatchStep(old(State()), reg, e)
      ensures Suppressed(e.address, e.from) ==> State() == old(State())
    {
      if Suppressed(e.address, e.from) {
        return;
      }
      for index := 0 to |e.ids|
        invariant State() == BatchPrefix(old(State()), reg, e, index)
      {
        Transfer(reg, BatchMovement(e, index));
      }
    }
  }
}
