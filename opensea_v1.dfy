/**
 * The OpenSea v1 sale handler: for an `OrdersMatched` event it loads the
 * transaction the event belongs to, creates one Sale record for the fill,
 * splits the sale amount evenly over the transaction's unmatched transfers
 * and hands every transfer of the transaction, in list order, to the
 * transfer/sale matcher.
 *
 * The matcher itself is not part of this model: each call to it is recorded
 * as one entry of `matchLog`, with the arguments it was given. Amounts are
 * exact reals, not the indexer's fixed-precision decimals.
 */
module OpenSeaV1 {
  import opened Keys

  /** The number of wei in one ether: prices arrive in wei, sale amounts are in ether. */
  const WEI_PER_ETH: nat := 1000000000000000000

  /** A transaction as this handler reads it: its id, its transfer ids in order, and the unmatched count. */
  datatype Transaction = Transaction(id: string, transfers: seq<string>, unmatchedTransferCount: int)

  datatype Sale = Sale(id: string, transaction: string, currency: string, platform: string, amount: real)

  /** One call of the external transfer/sale matcher, with its arguments. */
  datatype MatchCall = MatchCall(transferId: string, amount: real, transactionId: string, saleId: string)

  /** The fields of an `OrdersMatched` event and of its transaction that the handler reads. */
  datatype OrdersMatched = OrdersMatched(
    transactionHash: string,
    transactionValue: nat,
    blockNumber: nat,
    logIndex: nat,
    price: nat)

  datatype MarketState = MarketState(
    transactions: map<string, Transaction>,
    sales: map<string, Sale>,
    matchLog: seq<MatchCall>)

  /**
   * How a call ends: nothing done; a sale recorded (and its transfers handed
   * to the matcher); or the per-transfer division met an unmatched count of
   * zero, after the sale had been saved.
   */
  datatype Outcome = Skipped | SaleRecorded | DivisionByZero

  datatype Effect = Effect(state: MarketState, outcome: Outcome)

  /** A wei price as an ether amount. */
  function WeiToEth(price: nat): (amount: real)
    ensures amount * (WEI_PER_ETH as real) == price as real
    ensures amount >= 0.0
  {
    price as real / WEI_PER_ETH as real
  }

  /** The even share of a sale amount for each of `count` transfers. */
  function PerTransferAmount(amount: real, count: int): (share: real)
    requires count != 0
    ensures share * (count as real) == amount
  {
    amount / count as real
  }

  /** The matcher calls for `transfers`, one per entry, in list order. */
  function MatchCalls(transfers: seq<string>, amount: real, transactionId: string, saleId: string)
    : (calls: seq<MatchCall>)
  {
    if transfers == [] then []
    else MatchCalls(transfers[..|transfers| - 1], amount, transactionId, saleId) +
         [MatchCall(transfers[|transfers| - 1], amount, transactionId, saleId)]
  }

  /** The sum of the amounts handed to the matcher. */
  function TotalMatched(calls: seq<MatchCall>): (total: real) {
    if calls == [] then 0.0 else TotalMatched(calls[..|calls| - 1]) + calls[|calls| - 1].amount
  }

  /** The store, and how the call ends, after one `OrdersMatched` event. */
  function SaleStep(s: MarketState, e: OrdersMatched): (effect: Effect) {
    if e.transactionHash !in s.transactions || e.transactionValue == 0 then Effect(s, Skipped)
    else
      var tx := s.transactions[e.transactionHash];
      var key := SaleKey(e.blockNumber, e.logIndex);
      if key in s.sales then Effect(s, Skipped)
      else
        var sale := Sale(key, tx.id, "ETH", "OpenSea", WeiToEth(e.price));
        var saved := s.(sales := s.sales[key := sale]);
        if tx.unmatchedTransferCount == 0 then Effect(saved, DivisionByZero)
        else
          var share := PerTransferAmount(sale.amount, tx.unmatchedTransferCount);
          var calls := if tx.id == "" then [] else MatchCalls(tx.transfers, share, tx.id, key);
          Effect(saved.(matchLog := s.matchLog + calls), SaleRecorded)
  }

  /** The stores the handler reads and writes, and the log of matcher calls. */
  class Marketplace {
    var transactions: map<string, Transaction>
    var sales: map<string, Sale>
    var matchLog: seq<MatchCall>

    function State(): MarketState
      reads this
    {
      MarketState(transactions, sales, matchLog)
    }

    constructor (transactions: map<string, Transaction>)
      ensures State() == MarketState(transactions, map[], [])
    {
      this.transactions := transactions;
      sales, matchLog := map[], [];
    }

    method HandleOSv1Sale(e: OrdersMatched) returns (outcome: Outcome)
      modifies this
      ensures Effect(State(), outcome) == SaleStep(old(State()), e)
      ensures transactions == old(transactions)
    {
      outcome := Skipped;
      if e.transactionHash in transactions && e.transactionValue != 0 {
        var tx := transactions[e.transactionHash];
        var key := SaleKey(e.blockNumber, e.logIndex);
        JoinLayout(NatToString(e.blockNumber), NatToString(e.logIndex));
        if key !in sales {
          var sale := Sale(key, tx.id, "ETH", "OpenSea", WeiToEth(e.price));
          sales := sales[key := sale];

          if tx.unmatchedTransferCount == 0 {
            outcome := DivisionByZero;
            return;
          }
          var transferAmount := sale.amount / tx.unmatchedTransferCount as real;

          if tx.id != "" && sale.id != "" {
            var transfers := tx.transfers;
            for index := 0 to |transfers|
              invariant transactions == old(transactions) && sales == old(sales)[key := sale]
              invariant matchLog == old(matchLog) + MatchCalls(transfers[..index], transferAmount, tx.id, sale.id)
            {
              assert transfers[..index + 1][..index] == transfers[..index];
              matchLog := matchLog + [MatchCall(transfers[index], transferAmount, tx.id, sale.id)];
            }
            assert transfers[..|transfers|] == transfers;
          }
          outcome := SaleRecorded;
        }
      }
    }
  }

  // ---------------------------------------------------------------------
  // Properties

  /** The matcher is called once per transfer, in list order, always with the same amount and ids. */
  lemma {:induction false} MatchCallsInOrder(transfers: seq<string>, amount: real, transactionId: string,
                                             saleId: string)
    ensures |MatchCalls(transfers, amount, transactionId, saleId)| == |transfers|
    ensures forall i :: 0 <= i < |transfers| ==>
      MatchCalls(transfers, amount, transactionId, saleId)[i] == MatchCall(transfers[i], amount, transactionId, saleId)
    decreases |transfers|
  {
    if transfers != [] {
      MatchCallsInOrder(transfers[..|transfers| - 1], amount, transactionId, saleId);
    }
  }

  /** `amount` added up `n` times. */
  function Repeated(amount: real, n: nat): (total: real)
    ensures total == amount * (n as real)
  {
    if n == 0 then 0.0 else Repeated(amount, n - 1) + amount
  }

  /** Every call hands over the same amount, so together they hand over count times that amount. */
  lemma {:induction false} TotalMatchedIsEvenSplit(transfers: seq<string>, amount: real, transactionId: string,
                                                   saleId: string)
    ensures TotalMatched(MatchCalls(transfers, amount, transactionId, saleId)) == Repeated(amount, |transfers|)
    decreases |transfers|
  {
    if transfers != [] {
      var prefix := transfers[..|transfers| - 1];
      var calls := MatchCalls(transfers, amount, transactionId, saleId);
      var earlier := MatchCalls(prefix, amount, transactionId, saleId);
      TotalMatchedIsEvenSplit(prefix, amount, transactionId, saleId);
      assert calls == earlier + [MatchCall(transfers[|transfers| - 1], amount, transactionId, saleId)];
      assert calls[..|calls| - 1] == earlier;
    }
  }

  /** After a recorded sale, the log has grown by the calls for the transaction's transfers. */
  lemma RecordedSaleCalls(s: MarketState, e: OrdersMatched)
    requires SaleStep(s, e).outcome == SaleRecorded
    ensures e.transactionHash in s.transactions
    ensures var tx, key := s.transactions[e.transactionHash], SaleKey(e.blockNumber, e.logIndex);
      && tx.unmatchedTransferCount != 0
      && key in SaleStep(s, e).state.sales
      && SaleStep(s, e).state.sales[key].amount == WeiToEth(e.price)
      && SaleStep(s, e).state.matchLog ==
         s.matchLog +
         (if tx.id == "" then []
          else MatchCalls(tx.transfers, PerTransferAmount(WeiToEth(e.price), tx.unmatchedTransferCount), tx.id, key))
  {
  }

  /**
   * When the unmatched count equals the number of listed transfers, the
   * amounts handed to the matcher add up to exactly the sale amount.
   */
  lemma EvenSplitCoversSale(s: MarketState, e: OrdersMatched)
    requires e.transactionHash in s.transactions
    requires var tx := s.transactions[e.transactionHash];
      tx.unmatchedTransferCount == |tx.transfers| && tx.id != ""
    requires SaleStep(s, e).outcome == SaleRecorded
    ensures var r := SaleStep(s, e);
      TotalMatched(r.state.matchLog[|s.matchLog|..]) == r.state.sales[SaleKey(e.blockNumber, e.logIndex)].amount
  {
    RecordedSaleCalls(s, e);
    var tx := s.transactions[e.transactionHash];
    var key := SaleKey(e.blockNumber, e.logIndex);
    var amount := WeiToEth(e.price);
    var share := PerTransferAmount(amount, tx.unmatchedTransferCount);
    var calls := MatchCalls(tx.transfers, share, tx.id, key);
    var log := SaleStep(s, e).state.matchLog;
    assert log[|s.matchLog|..] == calls;
    TotalMatchedIsEvenSplit(tx.transfers, share, tx.id, key);
    RepeatedShare(share, amount, |tx.transfers|);
  }

  lemma RepeatedShare(share: real, amount: real, count: nat)
    requires count != 0 && share == PerTransferAmount(amount, count)
    ensures Repeated(share, count) == amount
  {
  }

  /**
   * The guards: no transaction record, a zero transaction value, or an
   * existing sale under the event's key leave everything as it was; past
   * them, the new sale is the only record written, it carries the event's
   * key, the transaction id, "ETH", "OpenSea" and the price in ether, and
   * the transaction record itself is never written.
   */
  lemma SaleRecordWritten(s: MarketState, e: OrdersMatched)
    ensures var r, key := SaleStep(s, e), SaleKey(e.blockNumber, e.logIndex);
      && (r.outcome == Skipped <==>
            e.transactionHash !in s.transactions || e.transactionValue == 0 || key in s.sales)
      && (r.outcome == Skipped ==> r.state == s)
      && (r.outcome != Skipped ==>
            r.state.sales ==
            s.sales[key := Sale(key, s.transactions[e.transactionHash].id, "ETH", "OpenSea", WeiToEth(e.price))])
      && r.state.transactions == s.transactions
  {
  }

  /**
   * A zero unmatched count is the only way to reach the division fault, and
   * then the sale is saved but the matcher is never called.
   */
  lemma DivisionByZeroOnlyOnEmptyCount(s: MarketState, e: OrdersMatched)
    ensures var r := SaleStep(s, e);
      && (r.outcome == DivisionByZero <==>
            r.outcome != Skipped && s.transactions[e.transactionHash].unmatchedTransferCount == 0)
      && (r.outcome == DivisionByZero ==> r.state.matchLog == s.matchLog)
  {
  }

  /** Replaying an event changes nothing: the sale key it wrote makes the second call skip. */
  lemma ReplayIsNoOp(s: MarketState, e: OrdersMatched)
    ensures var once := SaleStep(s, e).state;
      SaleStep(once, e) == Effect(once, Skipped)
  {
  }

  /**
   * A transaction with two listed transfers, an unmatched count of 2 and a
   * price of 2 ether: each transfer is handed 1 ether, in list order.
   */
  lemma TwoTransferSale(t0: string, t1: string, hash: string, block: nat, logIndex: nat)
    requires hash != ""
    ensures var s := MarketState(map[hash := Transaction(hash, [t0, t1], 2)], map[], []);
      var r := SaleStep(s, OrdersMatched(hash, 1, block, logIndex, 2 * WEI_PER_ETH));
      var key := SaleKey(block, logIndex);
      && r.outcome == SaleRecorded
      && r.state.sales[key].amount == 2.0
      && r.state.matchLog == [MatchCall(t0, 1.0, hash, key), MatchCall(t1, 1.0, hash, key)]
  {
    var key := SaleKey(block, logIndex);
    assert WeiToEth(2 * WEI_PER_ETH) == 2.0;
    assert PerTransferAmount(2.0, 2) == 1.0;
    assert MatchCalls([t0, t1], 1.0, hash, key) == MatchCalls([t0], 1.0, hash, key) + [MatchCall(t1, 1.0, hash, key)];
    assert [t0, t1][..1] == [t0];
    assert [t0][..0] == [];
  }
}
