/**
 * What one `transfer` step, and the two event handlers in front of it,
 * promise about the ledger: how the sender's and the receiver's records
 * change, that the zero address is never tracked, how total supply moves,
 * that tracked balances are conserved against supply, which records a
 * batch writes, and the behaviours of the code that are easy to miss
 * (negative balances, zero-balance records, self-transfers, the deny-list).
 */
module Eip1155Properties {
  import opened Keys
  import opened Eip1155

  /** The two stores agree at `key`: both lack it, or both hold the same record. */
  ghost predicate SameAt<V>(before: map<string, V>, after: map<string, V>, key: string) {
    (key in before <==> key in after) && (key in before ==> before[key] == after[key])
  }

  /** Every Holding is stored under `account-token` of its own fields, with a dash-free account. */
  ghost predicate HoldingsKeyed(store: map<string, Holding>) {
    forall k :: k in store ==>
      NoDash(store[k].account) && k == HoldingKey(store[k].account, store[k].asset)
  }

  /** Every CollectionHolding is stored under `collection-account` of its own fields. */
  ghost predicate CollectionHoldingsKeyed(store: map<string, Holding>) {
    forall k :: k in store ==>
      NoDash(store[k].account) && k == CollectionHoldingKey(store[k].asset, store[k].account)
  }

  ghost predicate Keyed(s: LedgerState) {
    HoldingsKeyed(s.holdings) && CollectionHoldingsKeyed(s.collectionHoldings)
  }

  /** Every stored record holds a positive balance (so a record exists iff its balance is non-zero). */
  ghost predicate Positive(store: map<string, Holding>) {
    forall k :: k in store ==> store[k].balance > 0
  }

  /** What a record contributes to the total of `asset`. */
  function Share(h: Holding, asset: string): int {
    if h.asset == asset then h.balance else 0
  }

  /** Some key of a non-empty store: the one the total is taken apart at. */
  ghost function SomeKey(store: map<string, Holding>): (k: string)
    requires |store| > 0
    ensures k in store
  {
    var k :| k in store; k
  }

  /** The sum of the balances of all records of `asset` (a token, or a collection). */
  ghost function AssetTotal(store: map<string, Holding>, asset: string): int
    decreases |store|
  {
    if |store| == 0 then 0
    else
      var k := SomeKey(store);
      assert |store - {k}| == |store| - 1 by {
        assert (store - {k}).Keys == store.Keys - {k};
      }
      Share(store[k], asset) + AssetTotal(store - {k}, asset)
  }

  // ---------------------------------------------------------------------
  // Totals over a store

  /** The total can be taken apart at any key, not only the one AssetTotal picks. */
  lemma {:induction false} AssetTotalRemove(store: map<string, Holding>, key: string, asset: string)
    requires key in store
    ensures AssetTotal(store, asset) == Share(store[key], asset) + AssetTotal(store - {key}, asset)
    decreases |store|
  {
    var k := SomeKey(store);
    if k != key {
      assert (store - {k}).Keys == store.Keys - {k};
      AssetTotalRemove(store - {k}, key, asset);
      AssetTotalRemove(store - {key}, k, asset);
      assert store - {k} - {key} == store - {key} - {k};
    }
  }

  lemma AssetTotalUpdate(store: map<string, Holding>, key: string, h: Holding, asset: string)
    ensures AssetTotal(store[key := h], asset) == AssetTotal(store - {key}, asset) + Share(h, asset)
  {
    AssetTotalRemove(store[key := h], key, asset);
    assert store[key := h] - {key} == store - {key};
  }

  /** A debit lowers the total of the debited record's asset by exactly `value`, and no other total. */
  lemma DebitTotal(store: map<string, Holding>, key: string, value: nat, asset: string)
    ensures AssetTotal(Debit(store, key, value), asset) ==
            AssetTotal(store, asset) - (if key in store && store[key].asset == asset then value else 0)
  {
    if key in store {
      AssetTotalRemove(store, key, asset);
      var h := store[key].(balance := store[key].balance - value);
      if h.balance != 0 {
        AssetTotalUpdate(store, key, h, asset);
      }
    }
  }

  /** A credit raises the total of the credited record's asset by exactly `value`, and no other total. */
  lemma CreditTotal(store: map<string, Holding>, key: string, account: string, owner: string, value: nat,
                    asset: string)
    ensures AssetTotal(Credit(store, key, account, owner, value), asset) ==
            AssetTotal(store, asset) +
            (if (key in store && store[key].asset == asset) || (key !in store && owner == asset) then value else 0)
  {
    if key in store {
      AssetTotalRemove(store, key, asset);
      AssetTotalUpdate(store, key, store[key].(balance := store[key].balance + value), asset);
    } else {
      AssetTotalUpdate(store, key, Holding(account, owner, value), asset);
      assert store - {key} == store;
    }
  }

  // ---------------------------------------------------------------------
  // Frames of the two record updates

  lemma DebitFrame(store: map<string, Holding>, key: string, value: nat)
    ensures forall k :: k != key ==> SameAt(store, Debit(store, key, value), k)
  {
  }

  lemma CreditFrame(store: map<string, Holding>, key: string, account: string, asset: string, value: nat)
    ensures forall k :: k != key ==> SameAt(store, Credit(store, key, account, asset, value), k)
  {
  }

  lemma ZeroAddressHasNoDash()
    ensures NoDash(ADDRESS_ZERO)
  {
  }

  // ---------------------------------------------------------------------
  // One transfer step

  /**
   * A non-zero sender's existing records lose `value` and are removed exactly
   * when they reach 0; a sender without a record stays without one. Nothing
   * bounds the result below, so a balance can become negative.
   */
  lemma SenderDebited(s: LedgerState, reg: Registry, m: Movement)
    requires m.from != ADDRESS_ZERO && m.from != m.to
    ensures var s', key := TransferStep(s, reg, m), HoldingKey(m.from, TokenOf(reg, m));
      && (key in s.holdings ==> (key in s'.holdings <==> s.holdings[key].balance - m.value != 0))
      && (key in s.holdings && key in s'.holdings ==>
            s'.holdings[key] == s.holdings[key].(balance := s.holdings[key].balance - m.value))
      && (key !in s.holdings ==> key !in s'.holdings)
    ensures var s', key := TransferStep(s, reg, m), CollectionHoldingKey(CollectionOf(reg, m), m.from);
      && (key in s.collectionHoldings ==>
            (key in s'.collectionHoldings <==> s.collectionHoldings[key].balance - m.value != 0))
      && (key in s.collectionHoldings && key in s'.collectionHoldings ==>
            s'.collectionHoldings[key] ==
            s.collectionHoldings[key].(balance := s.collectionHoldings[key].balance - m.value))
      && (key !in s.collectionHoldings ==> key !in s'.collectionHoldings)
  {
    var token, collection := TokenOf(reg, m), CollectionOf(reg, m);
    JoinCancelRight(m.from, m.to, token);
    JoinCancelLeft(collection, m.from, m.to);
    var h1 := Debit(s.holdings, HoldingKey(m.from, token), m.value);
    var c1 := Debit(s.collectionHoldings, CollectionHoldingKey(collection, m.from), m.value);
    if m.to != ADDRESS_ZERO {
      CreditFrame(h1, HoldingKey(m.to, token), m.to, token, m.value);
      CreditFrame(c1, CollectionHoldingKey(collection, m.to), m.to, collection, m.value);
    }
  }

  /**
   * A non-zero receiver ends with a record: an existing one gains exactly
   * `value`, an absent one is created with balance `value` and its account
   * and token (or collection) set.
   */
  lemma ReceiverCredited(s: LedgerState, reg: Registry, m: Movement)
    requires m.to != ADDRESS_ZERO && m.from != m.to
    ensures var s', key, token := TransferStep(s, reg, m), HoldingKey(m.to, TokenOf(reg, m)), TokenOf(reg, m);
      && key in s'.holdings
      && s'.holdings[key] ==
         if key in s.holdings then s.holdings[key].(balance := s.holdings[key].balance + m.value)
         else Holding(m.to, token, m.value)
    ensures var s', collection := TransferStep(s, reg, m), CollectionOf(reg, m);
      var key := CollectionHoldingKey(collection, m.to);
      && key in s'.collectionHoldings
      && s'.collectionHoldings[key] ==
         if key in s.collectionHoldings
         then s.collectionHoldings[key].(balance := s.collectionHoldings[key].balance + m.value)
         else Holding(m.to, collection, m.value)
  {
    var token, collection := TokenOf(reg, m), CollectionOf(reg, m);
    JoinCancelRight(m.from, m.to, token);
    JoinCancelLeft(collection, m.from, m.to);
    if m.from != ADDRESS_ZERO {
      DebitFrame(s.holdings, HoldingKey(m.from, token), m.value);
      DebitFrame(s.collectionHoldings, CollectionHoldingKey(collection, m.from), m.value);
    }
  }

  /** Every record other than the sender's and the receiver's is left exactly as it was. */
  lemma OtherRecordsUnchanged(s: LedgerState, reg: Registry, m: Movement)
    ensures var s', token := TransferStep(s, reg, m), TokenOf(reg, m);
      forall k :: k != HoldingKey(m.from, token) && k != HoldingKey(m.to, token) ==>
        SameAt(s.holdings, s'.holdings, k)
    ensures var s', collection := TransferStep(s, reg, m), CollectionOf(reg, m);
      forall k :: k != CollectionHoldingKey(collection, m.from) && k != CollectionHoldingKey(collection, m.to) ==>
        SameAt(s.collectionHoldings, s'.collectionHoldings, k)
  {
    var token, collection := TokenOf(reg, m), CollectionOf(reg, m);
    var h1 := if m.from != ADDRESS_ZERO then Debit(s.holdings, HoldingKey(m.from, token), m.value) else s.holdings;
    var c1 := if m.from != ADDRESS_ZERO
              then Debit(s.collectionHoldings, CollectionHoldingKey(collection, m.from), m.value)
              else s.collectionHoldings;
    DebitFrame(s.holdings, HoldingKey(m.from, token), m.value);
    DebitFrame(s.collectionHoldings, CollectionHoldingKey(collection, m.from), m.value);
    CreditFrame(h1, HoldingKey(m.to, token), m.to, token, m.value);
    CreditFrame(c1, CollectionHoldingKey(collection, m.to), m.to, collection, m.value);
  }

  /** Records of the zero address are never created, changed or removed, in any token or collection. */
  lemma ZeroAddressUntouched(s: LedgerState, reg: Registry, m: Movement)
    requires NoDash(m.from) && NoDash(m.to)
    ensures forall token :: SameAt(s.holdings, TransferStep(s, reg, m).holdings, HoldingKey(ADDRESS_ZERO, token))
    ensures forall collection ::
      SameAt(s.collectionHoldings, TransferStep(s, reg, m).collectionHoldings,
             CollectionHoldingKey(collection, ADDRESS_ZERO))
  {
    ZeroAddressHasNoDash();
    var token, collection := TokenOf(reg, m), CollectionOf(reg, m);
    var h1 := if m.from != ADDRESS_ZERO then Debit(s.holdings, HoldingKey(m.from, token), m.value) else s.holdings;
    var c1 := if m.from != ADDRESS_ZERO
              then Debit(s.collectionHoldings, CollectionHoldingKey(collection, m.from), m.value)
              else s.collectionHoldings;
    DebitFrame(s.holdings, HoldingKey(m.from, token), m.value);
    DebitFrame(s.collectionHoldings, CollectionHoldingKey(collection, m.from), m.value);
    CreditFrame(h1, HoldingKey(m.to, token), m.to, token, m.value);
    CreditFrame(c1, CollectionHoldingKey(collection, m.to), m.to, collection, m.value);
    forall t
      ensures HoldingKey(m.from, token) == HoldingKey(ADDRESS_ZERO, t) ==> m.from == ADDRESS_ZERO
      ensures HoldingKey(m.to, token) == HoldingKey(ADDRESS_ZERO, t) ==> m.to == ADDRESS_ZERO
    {
      HoldingKeyInjective(m.from, token, ADDRESS_ZERO, t);
      HoldingKeyInjective(m.to, token, ADDRESS_ZERO, t);
    }
    forall c
      ensures CollectionHoldingKey(collection, m.from) == CollectionHoldingKey(c, ADDRESS_ZERO) ==> m.from == ADDRESS_ZERO
      ensures CollectionHoldingKey(collection, m.to) == CollectionHoldingKey(c, ADDRESS_ZERO) ==> m.to == ADDRESS_ZERO
    {
      CollectionHoldingKeyInjective(collection, m.from, c, ADDRESS_ZERO);
      CollectionHoldingKeyInjective(collection, m.to, c, ADDRESS_ZERO);
    }
  }

  /**
   * Supply rises by `value` on a mint, falls by `value` on a burn, is
   * unchanged when the zero address is both sender and receiver or neither,
   * and no other token's supply moves.
   */
  lemma SupplyAdjusted(s: LedgerState, reg: Registry, m: Movement)
    ensures var token := TokenOf(reg, m);
      SupplyOf(TransferStep(s, reg, m).supply, token) - SupplyOf(s.supply, token) ==
        if m.from == ADDRESS_ZERO && m.to != ADDRESS_ZERO then m.value as int
        else if m.to == ADDRESS_ZERO && m.from != ADDRESS_ZERO then -(m.value as int)
        else 0
    ensures forall token :: token != TokenOf(reg, m) ==>
      SupplyOf(TransferStep(s, reg, m).supply, token) == SupplyOf(s.supply, token)
  {
  }

  /**
   * A movement inside one store changes the total of the moved asset by the
   * credited amount minus the debited amount, and no other total, provided
   * the records at the two keys belong to that asset.
   */
  lemma MoveTotal(store: map<string, Holding>, senderKey: string, receiverKey: string, receiver: string,
                  owner: string, value: nat, debit: bool, credit: bool)
    requires senderKey in store ==> store[senderKey].asset == owner
    requires receiverKey in store ==> store[receiverKey].asset == owner
    ensures forall asset ::
      AssetTotal(Move(store, senderKey, receiverKey, receiver, owner, value, debit, credit), asset) ==
      AssetTotal(store, asset) +
      (if asset != owner then 0
       else (if credit then value else 0) - (if debit && senderKey in store then value else 0))
  {
    var debited := if debit then Debit(store, senderKey, value) else store;
    DebitFrame(store, senderKey, value);
    assert receiverKey in debited ==> debited[receiverKey].asset == owner;
    forall asset
      ensures AssetTotal(Move(store, senderKey, receiverKey, receiver, owner, value, debit, credit), asset) ==
              AssetTotal(store, asset) +
              (if asset != owner then 0
               else (if credit then value else 0) - (if debit && senderKey in store then value else 0))
    {
      DebitTotal(store, senderKey, value, asset);
      CreditTotal(debited, receiverKey, receiver, owner, value, asset);
    }
  }

  /**
   * Conservation: when the sender is the zero address or holds a record, the
   * sum of the Holding balances of the token changes by exactly the change in
   * its totalSupply, and every other token's sum is unchanged.
   */
  lemma HoldingsConserved(s: LedgerState, reg: Registry, m: Movement)
    requires Keyed(s) && NoDash(m.from) && NoDash(m.to)
    requires m.from == ADDRESS_ZERO || HoldingKey(m.from, TokenOf(reg, m)) in s.holdings
    ensures var s', token := TransferStep(s, reg, m), TokenOf(reg, m);
      AssetTotal(s'.holdings, token) - AssetTotal(s.holdings, token) ==
      SupplyOf(s'.supply, token) - SupplyOf(s.supply, token)
    ensures forall other :: other != TokenOf(reg, m) ==>
      AssetTotal(TransferStep(s, reg, m).holdings, other) == AssetTotal(s.holdings, other)
  {
    var token := TokenOf(reg, m);
    var ks, kr := HoldingKey(m.from, token), HoldingKey(m.to, token);
    if ks in s.holdings {
      HoldingKeyInjective(s.holdings[ks].account, s.holdings[ks].asset, m.from, token);
    }
    if kr in s.holdings {
      HoldingKeyInjective(s.holdings[kr].account, s.holdings[kr].asset, m.to, token);
    }
    MoveTotal(s.holdings, ks, kr, m.to, token, m.value, m.from != ADDRESS_ZERO, m.to != ADDRESS_ZERO);
    SupplyAdjusted(s, reg, m);
  }

  /** The same conservation for CollectionHolding sums, against the supply of the transferred token. */
  lemma CollectionHoldingsConserved(s: LedgerState, reg: Registry, m: Movement)
    requires Keyed(s) && NoDash(m.from) && NoDash(m.to)
    requires m.from == ADDRESS_ZERO || CollectionHoldingKey(CollectionOf(reg, m), m.from) in s.collectionHoldings
    ensures var s', token, collection := TransferStep(s, reg, m), TokenOf(reg, m), CollectionOf(reg, m);
      AssetTotal(s'.collectionHoldings, collection) - AssetTotal(s.collectionHoldings, collection) ==
      SupplyOf(s'.supply, token) - SupplyOf(s.supply, token)
    ensures forall other :: other != CollectionOf(reg, m) ==>
      AssetTotal(TransferStep(s, reg, m).collectionHoldings, other) == AssetTotal(s.collectionHoldings, other)
  {
    var collection := CollectionOf(reg, m);
    var ks, kr := CollectionHoldingKey(collection, m.from), CollectionHoldingKey(collection, m.to);
    var store := s.collectionHoldings;
    if ks in store {
      CollectionHoldingKeyInjective(store[ks].asset, store[ks].account, collection, m.from);
    }
    if kr in store {
      CollectionHoldingKeyInjective(store[kr].asset, store[kr].account, collection, m.to);
    }
    MoveTotal(store, ks, kr, m.to, collection, m.value, m.from != ADDRESS_ZERO, m.to != ADDRESS_ZERO);
    SupplyAdjusted(s, reg, m);
  }

  /** The ledger starts with every record filed under its own key. */
  lemma EmptyLedgerKeyed()
    ensures Keyed(LedgerState(map[], map[], map[], {}, map[]))
  {
  }

  /** A debit only lowers a balance or drops a record: every remaining record kept its account and asset. */
  lemma DebitKeeps(store: map<string, Holding>, key: string, value: nat)
    ensures forall k :: k in Debit(store, key, value) ==>
      k in store && Debit(store, key, value)[k].account == store[k].account &&
      Debit(store, key, value)[k].asset == store[k].asset
  {
  }

  /** Records stay filed under the key derived from their own fields. */
  lemma KeyedPreserved(s: LedgerState, reg: Registry, m: Movement)
    requires Keyed(s) && NoDash(m.to)
    ensures Keyed(TransferStep(s, reg, m))
  {
    var token, collection := TokenOf(reg, m), CollectionOf(reg, m);
    var s' := TransferStep(s, reg, m);
    DebitKeeps(s.holdings, HoldingKey(m.from, token), m.value);
    DebitKeeps(s.collectionHoldings, CollectionHoldingKey(collection, m.from), m.value);
    var h1 := if m.from != ADDRESS_ZERO then Debit(s.holdings, HoldingKey(m.from, token), m.value) else s.holdings;
    var c1 := if m.from != ADDRESS_ZERO
              then Debit(s.collectionHoldings, CollectionHoldingKey(collection, m.from), m.value)
              else s.collectionHoldings;
    assert HoldingsKeyed(h1);
    assert CollectionHoldingsKeyed(c1);
  }

  /**
   * With positive values and senders that hold at least `value`, no record
   * ever holds 0 or less: a record exists exactly when its balance is non-zero.
   */
  lemma BalancesStayPositive(s: LedgerState, reg: Registry, m: Movement)
    requires Positive(s.holdings) && Positive(s.collectionHoldings) && m.value > 0
    requires var key := HoldingKey(m.from, TokenOf(reg, m));
      m.from == ADDRESS_ZERO || key !in s.holdings || s.holdings[key].balance >= m.value
    requires var key := CollectionHoldingKey(CollectionOf(reg, m), m.from);
      m.from == ADDRESS_ZERO || key !in s.collectionHoldings || s.collectionHoldings[key].balance >= m.value
    ensures Positive(TransferStep(s, reg, m).holdings) && Positive(TransferStep(s, reg, m).collectionHoldings)
  {
    var token, collection := TokenOf(reg, m), CollectionOf(reg, m);
    DebitFrame(s.holdings, HoldingKey(m.from, token), m.value);
    DebitFrame(s.collectionHoldings, CollectionHoldingKey(collection, m.from), m.value);
  }

  // ---------------------------------------------------------------------
  // Behaviours of the code as written

  /** A zero-value transfer to a receiver without a record creates a record holding 0. */
  lemma ZeroValueCreatesEmptyHolding(s: LedgerState, reg: Registry, m: Movement)
    requires m.to != ADDRESS_ZERO && m.value == 0
    requires HoldingKey(m.to, TokenOf(reg, m)) !in s.holdings
    ensures var key := HoldingKey(m.to, TokenOf(reg, m));
      key in TransferStep(s, reg, m).holdings && TransferStep(s, reg, m).holdings[key].balance == 0
  {
    var token := TokenOf(reg, m);
    if m.from != ADDRESS_ZERO {
      DebitFrame(s.holdings, HoldingKey(m.from, token), m.value);
      assert HoldingKey(m.from, token) != HoldingKey(m.to, token) ==>
             HoldingKey(m.to, token) !in Debit(s.holdings, HoldingKey(m.from, token), m.value);
    }
  }

  /**
   * A self-transfer by an account that holds both records leaves them as they
   * were: the debit may remove a record, and the credit then re-creates it.
   */
  lemma SelfTransferRestores(s: LedgerState, reg: Registry, m: Movement)
    requires Keyed(s) && NoDash(m.from)
    requires m.from == m.to && m.from != ADDRESS_ZERO
    requires HoldingKey(m.from, TokenOf(reg, m)) in s.holdings
    requires CollectionHoldingKey(CollectionOf(reg, m), m.from) in s.collectionHoldings
    ensures TransferStep(s, reg, m).holdings == s.holdings
    ensures TransferStep(s, reg, m).collectionHoldings == s.collectionHoldings
  {
    var token, collection := TokenOf(reg, m), CollectionOf(reg, m);
    var ks, kc := HoldingKey(m.from, token), CollectionHoldingKey(collection, m.from);
    HoldingKeyInjective(s.holdings[ks].account, s.holdings[ks].asset, m.from, token);
    CollectionHoldingKeyInjective(s.collectionHoldings[kc].asset, s.collectionHoldings[kc].account, collection, m.from);
  }

  /**
   * A self-transfer by an account with no Holding creates one holding `value`
   * although no supply moved: the conservation lemma needs its precondition.
   */
  lemma SelfTransferFromUntrackedCreates(s: LedgerState, reg: Registry, m: Movement)
    requires m.from == m.to && m.from != ADDRESS_ZERO
    requires HoldingKey(m.from, TokenOf(reg, m)) !in s.holdings
    ensures var key := HoldingKey(m.from, TokenOf(reg, m));
      TransferStep(s, reg, m).holdings == s.holdings[key := Holding(m.from, TokenOf(reg, m), m.value)]
    ensures SupplyOf(TransferStep(s, reg, m).supply, TokenOf(reg, m)) == SupplyOf(s.supply, TokenOf(reg, m))
  {
  }

  // ---------------------------------------------------------------------
  // The deny-list and the handlers

  /**
   * The deny-list is compared with the lowercase hex form of the emitting
   * contract, so only its first entry can ever match; the two mixed-case
   * entries never do.
   */
  lemma OnlyFirstIgnoredEntryMatches(address: string)
    requires IsLowerHex(address)
    ensures IsIgnoredAddress(address) <==> address == IGNORE_CONTRACT_ADDRESSES[0]
  {
    assert IGNORE_CONTRACT_ADDRESSES[1][11] !in "0123456789abcdef";
    assert IGNORE_CONTRACT_ADDRESSES[2][3] !in "0123456789abcdef";
  }

  /** A mint emitted by a deny-listed contract changes nothing, in either handler. */
  lemma DenyListedMintIgnored(s: LedgerState, reg: Registry, single: TransferSingleEvent, batch: TransferBatchEvent)
    requires single.from == ADDRESS_ZERO && IsIgnoredAddress(single.address)
    requires batch.from == ADDRESS_ZERO && IsIgnoredAddress(batch.address) && |batch.ids| <= |batch.values|
    ensures SingleStep(s, reg, single) == s
    ensures BatchStep(s, reg, batch) == s
  {
  }

  /** A TransferSingle event writes one Transfer record, under batch index 0. */
  lemma SingleWritesRecord(s: LedgerState, reg: Registry, e: TransferSingleEvent)
    requires !Suppressed(e.address, e.from)
    ensures var key := TransferKey(e.block.number, e.logIndex, 0);
      SingleStep(s, reg, e).transfers == s.transfers[key := RecordOf(reg, SingleMovement(e))]
  {
  }

  /** The keys of the Transfer records written by the first `n` items of a batch. */
  function BatchKeys(e: TransferBatchEvent, n: nat): set<string> {
    set i | 0 <= i < n :: TransferKey(e.block.number, e.logIndex, i)
  }

  /** The Transfer records after the first `n` items of a batch, starting from the records `t`. */
  function BatchRecordMap(t: map<string, TransferRecord>, reg: Registry, e: TransferBatchEvent, n: nat): map<string, TransferRecord>
    requires n <= |e.ids| <= |e.values|
  {
    if n == 0 then t
    else BatchRecordMap(t, reg, e, n - 1)[TransferKey(e.block.number, e.logIndex, n - 1) := RecordOf(reg, BatchMovement(e, n - 1))]
  }

  /** Only the Transfer records change along the items of a batch, one write per item. */
  lemma {:induction false} BatchPrefixTransfers(s: LedgerState, reg: Registry, e: TransferBatchEvent, n: nat)
    requires n <= |e.ids| <= |e.values|
    ensures BatchPrefix(s, reg, e, n).transfers == BatchRecordMap(s.transfers, reg, e, n)
  {
    if n > 0 {
      BatchPrefixTransfers(s, reg, e, n - 1);
    }
  }

  lemma {:induction false} RecordMapWritten(t: map<string, TransferRecord>, reg: Registry, e: TransferBatchEvent, n: nat)
    requires n <= |e.ids| <= |e.values|
    ensures var r := BatchRecordMap(t, reg, e, n);
      forall i :: 0 <= i < n ==>
        TransferKey(e.block.number, e.logIndex, i) in r &&
        r[TransferKey(e.block.number, e.logIndex, i)] == RecordOf(reg, BatchMovement(e, i))
  {
    if n > 0 {
      RecordMapWritten(t, reg, e, n - 1);
      var earlier := BatchRecordMap(t, reg, e, n - 1);
      var last := TransferKey(e.block.number, e.logIndex, n - 1);
      var r := earlier[last := RecordOf(reg, BatchMovement(e, n - 1))];
      assert BatchRecordMap(t, reg, e, n) == r;
      forall i | 0 <= i < n
        ensures TransferKey(e.block.number, e.logIndex, i) in r
        ensures r[TransferKey(e.block.number, e.logIndex, i)] == RecordOf(reg, BatchMovement(e, i))
      {
        if i < n - 1 {
          TransferKeyInjective(e.block.number, e.logIndex, i, e.block.number, e.logIndex, n - 1);
        }
      }
    }
  }

  lemma {:induction false} RecordMapFrame(t: map<string, TransferRecord>, reg: Registry, e: TransferBatchEvent, n: nat)
    requires n <= |e.ids| <= |e.values|
    ensures var r := BatchRecordMap(t, reg, e, n);
      r.Keys == t.Keys + BatchKeys(e, n) &&
      forall k :: k in t && k !in BatchKeys(e, n) ==> r[k] == t[k]
  {
    if n > 0 {
      RecordMapFrame(t, reg, e, n - 1);
      assert BatchKeys(e, n) == BatchKeys(e, n - 1) + {TransferKey(e.block.number, e.logIndex, n - 1)};
    }
  }

  /** The first `n` items of a batch leave one Transfer record per item, under its own batch index. */
  lemma BatchRecords(s: LedgerState, reg: Registry, e: TransferBatchEvent, n: nat)
    requires n <= |e.ids| <= |e.values|
    ensures var t := BatchPrefix(s, reg, e, n).transfers;
      forall i :: 0 <= i < n ==>
        TransferKey(e.block.number, e.logIndex, i) in t &&
        t[TransferKey(e.block.number, e.logIndex, i)] == RecordOf(reg, BatchMovement(e, i))
  {
    BatchPrefixTransfers(s, reg, e, n);
    RecordMapWritten(s.transfers, reg, e, n);
  }

  /** Apart from the records of its own items, a batch adds and changes no Transfer record. */
  lemma BatchRecordsFrame(s: LedgerState, reg: Registry, e: TransferBatchEvent, n: nat)
    requires n <= |e.ids| <= |e.values|
    ensures var t := BatchPrefix(s, reg, e, n).transfers;
      t.Keys == s.transfers.Keys + BatchKeys(e, n) &&
      forall k :: k in s.transfers && k !in BatchKeys(e, n) ==> t[k] == s.transfers[k]
  {
    BatchPrefixTransfers(s, reg, e, n);
    RecordMapFrame(s.transfers, reg, e, n);
  }

  /** A TransferSingle event has the effect of a TransferBatch event of one item. */
  lemma SingleIsBatchOfOne(s: LedgerState, reg: Registry, e: TransferSingleEvent)
    ensures SingleStep(s, reg, e) ==
      BatchStep(s, reg, TransferBatchEvent(e.address, e.from, e.to, [e.id], [e.value], e.block, e.logIndex, e.hash))
  {
    var batch := TransferBatchEvent(e.address, e.from, e.to, [e.id], [e.value], e.block, e.logIndex, e.hash);
    assert BatchMovement(batch, 0) == SingleMovement(e);
    assert BatchPrefix(s, reg, batch, 1) == TransferStep(s, reg, SingleMovement(e));
  }
}
