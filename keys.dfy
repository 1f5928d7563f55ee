/**
 * Deterministic entity identifiers. Every record of the indexer is stored
 * under a composite string key built by joining parts with "-": holdings
 * under `account-token`, collection holdings under `collection-account`,
 * transfers under `block-logIndex-batchIndex` and sales under
 * `block-logIndex`. Numbers are written in decimal, as `BigInt.toString()`
 * and `i32.toString()` write non-negative values.
 */
module Keys {

  /** True when a string contains no "-" separator (hex addresses, decimal numbers). */
  predicate NoDash(s: string) {
    '-' !in s
  }

  predicate IsDigit(c: char) {
    '0' <= c <= '9'
  }

  predicate IsDecimal(s: string) {
    |s| > 0 && forall i :: 0 <= i < |s| ==> IsDigit(s[i])
  }

  /** Decimal representation of a non-negative number, most significant digit first. */
  function NatToString(n: nat): (r: string)
    ensures IsDecimal(r)
    ensures NoDash(r)
    ensures n < 10 <==> |r| == 1
    decreases n
  {
    var last := ['0' + (n % 10) as char];
    if n < 10 then last else NatToString(n / 10) + last
  }

  /** Reads a decimal string back as a number. */
  function ParseDecimal(s: string): (n: nat)
    requires IsDecimal(s)
    decreases |s|
  {
    var d := (s[|s| - 1] - '0') as nat;
    if |s| == 1 then d else 10 * ParseDecimal(s[..|s| - 1]) + d
  }

  lemma {:induction false} ParseNatToString(n: nat)
    ensures ParseDecimal(NatToString(n)) == n
    decreases n
  {
    var r := NatToString(n);
    if n >= 10 {
      ParseNatToString(n / 10);
      assert r[..|r| - 1] == NatToString(n / 10);
    }
  }

  /** Distinct numbers have distinct decimal representations. */
  lemma NatToStringInjective(m: nat, n: nat)
    ensures NatToString(m) == NatToString(n) ==> m == n
  {
    ParseNatToString(m);
    ParseNatToString(n);
  }

  /** The composite-key separator used at every call site. */
  function Join(a: string, b: string): string {
    a + "-" + b
  }

  lemma JoinLayout(a: string, b: string)
    ensures |Join(a, b)| == |a| + 1 + |b|
    ensures Join(a, b)[|a|] == '-'
    ensures forall i :: 0 <= i < |a| ==> Join(a, b)[i] == a[i]
    ensures forall i :: 0 <= i < |b| ==> Join(a, b)[|a| + 1 + i] == b[i]
  {
  }

  /** A join splits uniquely at its first "-" when the left parts contain none. */
  lemma JoinSplitFirst(a: string, b: string, c: string, d: string)
    requires NoDash(a) && NoDash(c)
    requires Join(a, b) == Join(c, d)
    ensures a == c && b == d
  {
    JoinLayout(a, b);
    JoinLayout(c, d);
    assert |a| == |c|;
    assert a == Join(a, b)[..|a|] == c;
    assert b == Join(a, b)[|a| + 1..] == d;
  }

  /** A join splits uniquely at its last "-" when the right parts contain none. */
  lemma JoinSplitLast(a: string, b: string, c: string, d: string)
    requires NoDash(b) && NoDash(d)
    requires Join(a, b) == Join(c, d)
    ensures a == c && b == d
  {
    JoinLayout(a, b);
    JoinLayout(c, d);
    assert |a| == |c|;
    assert a == Join(a, b)[..|a|] == c;
    assert b == Join(a, b)[|a| + 1..] == d;
  }

  /** Joins with the same right part are equal only if their left parts are. */
  lemma JoinCancelRight(a: string, a': string, b: string)
    ensures Join(a, b) == Join(a', b) ==> a == a'
  {
    if Join(a, b) == Join(a', b) {
      assert a == Join(a, b)[..|a|] == a';
    }
  }

  /** Joins with the same left part are equal only if their right parts are. */
  lemma JoinCancelLeft(a: string, b: string, b': string)
    ensures Join(a, b) == Join(a, b') ==> b == b'
  {
    if Join(a, b) == Join(a, b') {
      assert b == Join(a, b)[|a| + 1..] == b';
    }
  }

  /** Key of the Holding of `account` in `token`. */
  function HoldingKey(account: string, token: string): string {
    Join(account, token)
  }

  /** Key of the CollectionHolding of `account` in `collection`. */
  function CollectionHoldingKey(collection: string, account: string): string {
    Join(collection, account)
  }

  /** Key of the Transfer record written for one item of a (batch) transfer event. */
  function TransferKey(block: nat, logIndex: nat, batchIndex: nat): string {
    Join(Join(NatToString(block), NatToString(logIndex)), NatToString(batchIndex))
  }

  /** Key of the Sale record written for one marketplace fill. */
  function SaleKey(block: nat, logIndex: nat): string {
    Join(NatToString(block), NatToString(logIndex))
  }

  /** Holding keys of dash-free accounts identify the (account, token) pair. */
  lemma HoldingKeyInjective(a: string, t: string, a': string, t': string)
    requires NoDash(a) && NoDash(a')
    ensures HoldingKey(a, t) == HoldingKey(a', t') <==> a == a' && t == t'
  {
    if HoldingKey(a, t) == HoldingKey(a', t') {
      JoinSplitFirst(a, t, a', t');
    }
  }

  /** CollectionHolding keys of dash-free accounts identify the (collection, account) pair. */
  lemma CollectionHoldingKeyInjective(c: string, a: string, c': string, a': string)
    requires NoDash(a) && NoDash(a')
    ensures CollectionHoldingKey(c, a) == CollectionHoldingKey(c', a') <==> c == c' && a == a'
  {
    if CollectionHoldingKey(c, a) == CollectionHoldingKey(c', a') {
      JoinSplitLast(c, a, c', a');
    }
  }

  /** Two Transfer keys coincide only for the same block, log index and batch index. */
  lemma TransferKeyInjective(b: nat, l: nat, i: nat, b': nat, l': nat, i': nat)
    ensures TransferKey(b, l, i) == TransferKey(b', l', i') <==> b == b' && l == l' && i == i'
  {
    if TransferKey(b, l, i) == TransferKey(b', l', i') {
      JoinSplitLast(Join(NatToString(b), NatToString(l)), NatToString(i),
                    Join(NatToString(b'), NatToString(l')), NatToString(i'));
      JoinSplitFirst(NatToString(b), NatToString(l), NatToString(b'), NatToString(l'));
      NatToStringInjective(b, b');
      NatToStringInjective(l, l');
      NatToStringInjective(i, i');
    }
  }

  /** Two Sale keys coincide only for the same block and log index. */
  lemma SaleKeyInjective(b: nat, l: nat, b': nat, l': nat)
    ensures SaleKey(b, l) == SaleKey(b', l') <==> b == b' && l == l'
  {
    if SaleKey(b, l) == SaleKey(b', l') {
      JoinSplitFirst(NatToString(b), NatToString(l), NatToString(b'), NatToString(l'));
      NatToStringInjective(b, b');
      NatToStringInjective(l, l');
    }
  }
}
