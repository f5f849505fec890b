/**
 * The balance aggregator: the multi-asset balance an escrow holds (native
 * coins and token holdings) and the merge (`add_tokens`) that folds a deposit
 * into it.
 *
 * Native coins and token holdings are merged by the same rule, keyed by the
 * coin's denomination or by the token contract's address, so both are
 * `Holding`s here and the rule is written once.
 */
module BalanceMerge {
  import opened Results

  /** An amount of one asset. For a native coin the key is the denomination,
      for a token holding it is the address of the token contract. */
  datatype Holding = Holding(key: string, amount: nat)

  type Coin = Holding
  type Cw20CoinVerified = Holding

  /** One deposit: the native coins sent with a call, or one token amount
      forwarded by a token contract. */
  datatype Balance = Native(coins: seq<Coin>) | Cw20(token: Cw20CoinVerified)

  /** What an escrow holds: native coins and token holdings. */
  datatype GenericBalance = GenericBalance(native: seq<Coin>, cw20: seq<Cw20CoinVerified>)

  /** A deposit carries no value when every native amount is zero (in
      particular when no coin is sent) or when the token amount is zero. */
  predicate IsEmpty(b: Balance)
  {
    match b
    case Native(coins) => forall i :: 0 <= i < |coins| ==> coins[i].amount == 0
    case Cw20(token) => token.amount == 0
  }

  /** The balance holding exactly one deposit, as an escrow is created with it. */
  function Deposited(b: Balance): GenericBalance
  {
    match b
    case Native(coins) => GenericBalance(coins, [])
    case Cw20(token) => GenericBalance([], [token])
  }

  // ---------------------------------------------------------------------
  // Keys, totals and the merge rule
  // ---------------------------------------------------------------------

  function Keys(hs: seq<Holding>): (ks: seq<string>)
    ensures |ks| == |hs|
    ensures forall i :: 0 <= i < |hs| ==> ks[i] == hs[i].key
  {
    seq(|hs|, i requires 0 <= i < |hs| => hs[i].key)
  }

  ghost predicate Distinct(ks: seq<string>)
  {
    forall i, j :: 0 <= i < j < |ks| ==> ks[i] != ks[j]
  }

  /** No key is held twice. */
  ghost predicate UniqueKeys(hs: seq<Holding>)
  {
    Distinct(Keys(hs))
  }

  /** The total amount held under `key`, over every entry that carries it. */
  function AmountOf(hs: seq<Holding>, key: string): nat
    decreases |hs|
  {
    if hs == [] then 0
    else AmountOf(hs[..|hs| - 1], key) + (if hs[|hs| - 1].key == key then hs[|hs| - 1].amount else 0)
  }

  /** The position of the first entry carrying `key`, if any. */
  function FirstIndex(hs: seq<Holding>, key: string): (r: Option<nat>)
    ensures r.Some? ==> r.value < |hs| && hs[r.value].key == key
    ensures r.Some? ==> forall j :: 0 <= j < r.value ==> hs[j].key != key
    ensures r.None? <==> key !in Keys(hs)
    decreases |hs|
  {
    if hs == [] then None
    else if hs[0].key == key then Some(0)
    else
      match FirstIndex(hs[1..], key)
      case None => None
      case Some(i) => Some(i + 1)
  }

  /** Merges one holding: its amount is added to the first entry with the same
      key, or it is appended when the key is new. */
  function Add(hs: seq<Holding>, h: Holding): seq<Holding>
  {
    match FirstIndex(hs, h.key)
    case Some(i) => hs[i := hs[i].(amount := hs[i].amount + h.amount)]
    case None => hs + [h]
  }

  /** Merges a list of holdings one after another, in list order. */
  function AddAll(hs: seq<Holding>, incoming: seq<Holding>): seq<Holding>
    decreases |incoming|
  {
    if incoming == [] then hs
    else Add(AddAll(hs, incoming[..|incoming| - 1]), incoming[|incoming| - 1])
  }

  /** The balance after a deposit is merged into it. Only the list the
      deposit belongs to changes; its keys keep their order and each new key
      follows in the order it first arrives. */
  function Merged(b: GenericBalance, add: Balance): (r: GenericBalance)
    ensures add.Native? ==> r.cw20 == b.cw20 && Keys(r.native) == AppendNew(Keys(b.native), Keys(add.coins))
    ensures add.Cw20? ==> r.native == b.native && Keys(r.cw20) == AppendNew(Keys(b.cw20), [add.token.key])
  {
    match add
    case Native(coins) =>
      AddAllKeys(b.native, coins);
      b.(native := AddAll(b.native, coins))
    case Cw20(token) =>
      AddKeys(b.cw20, token);
      assert [token.key][..0] == [];
      b.(cw20 := Add(b.cw20, token))
  }

  /** Reference definition of the key order after a merge: the keys already
      seen, then each new key in the order it first arrives. */
  function AppendNew(seen: seq<string>, ks: seq<string>): (r: seq<string>)
    ensures seen <= r
    ensures forall k :: k in r <==> k in seen || k in ks
    ensures Distinct(seen) ==> Distinct(r)
    decreases |ks|
  {
    if ks == [] then seen
    else
      var before := AppendNew(seen, ks[..|ks| - 1]);
      var k := ks[|ks| - 1];
      assert forall x :: x in ks <==> x in ks[..|ks| - 1] || x == k by {
        assert ks == ks[..|ks| - 1] + [k];
      }
      if k in before then before else before + [k]
  }

  /** Every native and every token amount is summed per key, after a deposit
      as before it. */
  ghost predicate Conserves(before: GenericBalance, add: Balance, after: GenericBalance)
  {
    && (forall k :: AmountOf(after.native, k) == AmountOf(before.native, k) + AmountOf(Deposited(add).native, k))
    && (forall k :: AmountOf(after.cw20, k) == AmountOf(before.cw20, k) + AmountOf(Deposited(add).cw20, k))
  }

  // ---------------------------------------------------------------------
  // Totals
  // ---------------------------------------------------------------------

  lemma KeysPrefix(hs: seq<Holding>, n: nat)
    requires n <= |hs|
    ensures Keys(hs[..n]) == Keys(hs)[..n]
  {
  }

  lemma {:induction false} AmountOfAbsent(hs: seq<Holding>, key: string)
    requires key !in Keys(hs)
    ensures AmountOf(hs, key) == 0
    decreases |hs|
  {
    if hs != [] {
      var n := |hs| - 1;
      KeysPrefix(hs, n);
      assert Keys(hs)[n] == hs[n].key;
      AmountOfAbsent(hs[..n], key);
    }
  }

  lemma AmountOfAppend(hs: seq<Holding>, h: Holding, key: string)
    ensures AmountOf(hs + [h], key) == AmountOf(hs, key) + (if h.key == key then h.amount else 0)
  {
    assert (hs + [h])[..|hs|] == hs;
  }

  lemma {:induction false} AmountOfUpdate(hs: seq<Holding>, i: nat, a: nat, key: string)
    requires i < |hs|
    ensures AmountOf(hs[i := hs[i].(amount := a)], key) + (if hs[i].key == key then hs[i].amount else 0)
         == AmountOf(hs, key) + (if hs[i].key == key then a else 0)
    decreases |hs|
  {
    var hs' := hs[i := hs[i].(amount := a)];
    var n := |hs| - 1;
    if i == n {
      assert hs'[..n] == hs[..n];
    } else {
      assert hs'[..n] == hs[..n][i := hs[i].(amount := a)];
      AmountOfUpdate(hs[..n], i, a, key);
    }
  }

  /** Merging one holding adds its amount to its own key's total and leaves
      every other total alone. */
  lemma AddAmount(hs: seq<Holding>, h: Holding, key: string)
    ensures AmountOf(Add(hs, h), key) == AmountOf(hs, key) + (if h.key == key then h.amount else 0)
  {
    match FirstIndex(hs, h.key)
    case Some(i) => AmountOfUpdate(hs, i, hs[i].amount + h.amount, key);
    case None => AmountOfAppend(hs, h, key);
  }

  /** After merging a list, each key's total is the old total plus the
      total arriving for that key. */
  lemma {:induction false} AddAllAmount(hs: seq<Holding>, incoming: seq<Holding>, key: string)
    ensures AmountOf(AddAll(hs, incoming), key) == AmountOf(hs, key) + AmountOf(incoming, key)
    decreases |incoming|
  {
    if incoming != [] {
      var n := |incoming| - 1;
      AddAllAmount(hs, incoming[..n], key);
      AddAmount(AddAll(hs, incoming[..n]), incoming[n], key);
    }
  }

  /** The total of a concatenation is the sum of the totals of its parts. */
  lemma {:induction false} AmountOfConcat(p: seq<Holding>, q: seq<Holding>, key: string)
    ensures AmountOf(p + q, key) == AmountOf(p, key) + AmountOf(q, key)
    decreases |q|
  {
    if q == [] {
      assert p + q == p;
    } else {
      var n := |q| - 1;
      assert (p + q)[..|p + q| - 1] == p + q[..n];
      assert (p + q)[|p + q| - 1] == q[n];
      AmountOfConcat(p, q[..n], key);
    }
  }

  /** Merging two deposits one after the other is merging their
      concatenation: the merge is a left fold over the arriving holdings. */
  lemma {:induction false} AddAllConcat(hs: seq<Holding>, a: seq<Holding>, b: seq<Holding>)
    ensures AddAll(hs, a + b) == AddAll(AddAll(hs, a), b)
    decreases |b|
  {
    if b == [] {
      assert a + b == a;
    } else {
      var n := |b| - 1;
      assert (a + b)[..|a + b| - 1] == a + b[..n];
      assert (a + b)[|a + b| - 1] == b[n];
      AddAllConcat(hs, a, b[..n]);
    }
  }

  /** Totals are associative across merges: two deposits merged in turn, or
      merged as one, leave each key with the old total plus both arrivals. */
  lemma AddAllAssociates(hs: seq<Holding>, a: seq<Holding>, b: seq<Holding>, key: string)
    ensures AmountOf(AddAll(AddAll(hs, a), b), key) == AmountOf(AddAll(hs, a + b), key)
    ensures AmountOf(AddAll(hs, a + b), key) == AmountOf(hs, key) + AmountOf(a, key) + AmountOf(b, key)
  {
    AddAllConcat(hs, a, b);
    AddAllAmount(hs, a + b, key);
    AmountOfConcat(a, b, key);
  }

  /** An entry's amount is part of its key's total. */
  lemma {:induction false} AmountOfAtLeast(hs: seq<Holding>, i: nat)
    requires i < |hs|
    ensures AmountOf(hs, hs[i].key) >= hs[i].amount
    decreases |hs|
  {
    var n := |hs| - 1;
    if i < n {
      assert hs[..n][i] == hs[i];
      AmountOfAtLeast(hs[..n], i);
    }
  }

  lemma {:induction false} AllZeroNoValue(hs: seq<Holding>, key: string)
    requires forall i :: 0 <= i < |hs| ==> hs[i].amount == 0
    ensures AmountOf(hs, key) == 0
    decreases |hs|
  {
    if hs != [] {
      var n := |hs| - 1;
      assert forall i :: 0 <= i < n ==> hs[..n][i] == hs[i];
      AllZeroNoValue(hs[..n], key);
    }
  }

  /** `is_empty` means the deposit carries no value under any key. */
  lemma EmptyIffNoValue(b: Balance)
    ensures IsEmpty(b) <==> forall k :: AmountOf(Deposited(b).native, k) == 0 && AmountOf(Deposited(b).cw20, k) == 0
  {
    match b
    case Native(coins) =>
      if IsEmpty(b) {
        forall k ensures AmountOf(coins, k) == 0 {
          AllZeroNoValue(coins, k);
        }
      } else {
        var i :| 0 <= i < |coins| && coins[i].amount != 0;
        AmountOfAtLeast(coins, i);
        assert AmountOf(Deposited(b).native, coins[i].key) != 0;
      }
    case Cw20(token) =>
      assert [token][..0] == [];
      forall k ensures AmountOf([token], k) == if token.key == k then token.amount else 0 {
      }
      assert Deposited(b) == GenericBalance([], [token]);
      if IsEmpty(b) {
        forall k ensures AmountOf(Deposited(b).native, k) == 0 && AmountOf(Deposited(b).cw20, k) == 0 {
        }
      } else {
        assert AmountOf(Deposited(b).cw20, token.key) != 0;
      }
  }

  /** The order in which two deposits are merged does not change any total. */
  lemma AddAllCommutes(hs: seq<Holding>, a: seq<Holding>, b: seq<Holding>, key: string)
    ensures AmountOf(AddAll(AddAll(hs, a), b), key) == AmountOf(AddAll(AddAll(hs, b), a), key)
  {
    AddAllAmount(hs, a, key);
    AddAllAmount(AddAll(hs, a), b, key);
    AddAllAmount(hs, b, key);
    AddAllAmount(AddAll(hs, b), a, key);
  }

  /** Merging a deposit conserves value: no amount is created or lost. */
  lemma MergedConserves(b: GenericBalance, add: Balance)
    ensures Conserves(b, add, Merged(b, add))
  {
    match add
    case Native(coins) =>
      forall k ensures AmountOf(Merged(b, add).native, k) == AmountOf(b.native, k) + AmountOf(coins, k) {
        AddAllAmount(b.native, coins, k);
      }
    case Cw20(token) =>
      forall k ensures AmountOf(Merged(b, add).cw20, k) == AmountOf(b.cw20, k) + AmountOf([token], k) {
        AddAmount(b.cw20, token, k);
        AmountOfAppend([], token, k);
      }
  }

  // ---------------------------------------------------------------------
  // Key order and uniqueness
  // ---------------------------------------------------------------------

  /** Merging one holding keeps every key where it was and appends the key
      only when it is new. */
  lemma AddKeys(hs: seq<Holding>, h: Holding)
    ensures Keys(Add(hs, h)) == if h.key in Keys(hs) then Keys(hs) else Keys(hs) + [h.key]
  {
    match FirstIndex(hs, h.key)
    case Some(i) =>
      assert Keys(Add(hs, h)) == Keys(hs);
    case None =>
      assert Keys(hs + [h]) == Keys(hs) + [h.key];
  }

  /** The keys after merging a list are the old keys in their old order,
      followed by each new key in first-seen order. */
  lemma {:induction false} AddAllKeys(hs: seq<Holding>, incoming: seq<Holding>)
    ensures Keys(AddAll(hs, incoming)) == AppendNew(Keys(hs), Keys(incoming))
    decreases |incoming|
  {
    if incoming != [] {
      var n := |incoming| - 1;
      AddAllKeys(hs, incoming[..n]);
      KeysPrefix(incoming, n);
      AddKeys(AddAll(hs, incoming[..n]), incoming[n]);
    }
  }

  /** A merge never creates a second entry for a key. */
  lemma AddAllUnique(hs: seq<Holding>, incoming: seq<Holding>)
    requires UniqueKeys(hs)
    ensures UniqueKeys(AddAll(hs, incoming))
  {
    AddAllKeys(hs, incoming);
  }

  lemma AddUnique(hs: seq<Holding>, h: Holding)
    requires UniqueKeys(hs)
    ensures UniqueKeys(Add(hs, h))
  {
    AddKeys(hs, h);
    var ks := Keys(hs);
    if h.key !in ks {
      forall i, j | 0 <= i < j < |ks| + 1 ensures (ks + [h.key])[i] != (ks + [h.key])[j] {
        if j == |ks| {
          assert ks[i] in ks;
        }
      }
    }
  }

  lemma LastKeyIsNew(hs: seq<Holding>)
    requires UniqueKeys(hs) && hs != []
    ensures hs[|hs| - 1].key !in Keys(hs[..|hs| - 1])
  {
    KeysPrefix(hs, |hs| - 1);
  }

  /** In a balance without repeated keys, an entry's amount is the total for
      its key. */
  lemma {:induction false} UniqueAmount(hs: seq<Holding>, i: nat)
    requires UniqueKeys(hs) && i < |hs|
    ensures hs[i].amount == AmountOf(hs, hs[i].key)
    decreases |hs|
  {
    var n := |hs| - 1;
    KeysPrefix(hs, n);
    assert UniqueKeys(hs[..n]);
    if i == n {
      LastKeyIsNew(hs);
      AmountOfAbsent(hs[..n], hs[n].key);
    } else {
      assert Keys(hs)[i] != Keys(hs)[n];
      UniqueAmount(hs[..n], i);
    }
  }

  /** The merge rule as the balance tests state it: after merging, every key
      appears once and holds the sum of all amounts merged for it. */
  lemma MergeSums(hs: seq<Holding>, incoming: seq<Holding>, i: nat)
    requires UniqueKeys(hs)
    requires i < |AddAll(hs, incoming)|
    ensures UniqueKeys(AddAll(hs, incoming))
    ensures var r := AddAll(hs, incoming);
      r[i].amount == AmountOf(hs, r[i].key) + AmountOf(incoming, r[i].key)
  {
    AddAllUnique(hs, incoming);
    UniqueAmount(AddAll(hs, incoming), i);
    AddAllAmount(hs, incoming, AddAll(hs, incoming)[i].key);
  }

  /** A balance merge keeps both lists free of repeated keys. */
  lemma MergedKeepsUnique(b: GenericBalance, add: Balance)
    requires UniqueKeys(b.native) && UniqueKeys(b.cw20)
    ensures UniqueKeys(Merged(b, add).native) && UniqueKeys(Merged(b, add).cw20)
  {
    match add
    case Native(coins) => AddAllUnique(b.native, coins);
    case Cw20(token) => AddUnique(b.cw20, token);
  }

  /** Storing a deposit as it is (what creation does) and merging it into an
      empty balance (what a top-up does) agree when the deposit repeats no key. */
  lemma {:induction false} DepositedIsMergedIntoEmpty(b: Balance)
    requires b.Native? ==> UniqueKeys(b.coins)
    ensures Deposited(b) == Merged(GenericBalance([], []), b)
  {
    match b
    case Native(coins) => AddAllIntoEmpty(coins);
    case Cw20(token) =>
  }

  lemma {:induction false} AddAllIntoEmpty(hs: seq<Holding>)
    requires UniqueKeys(hs)
    ensures AddAll([], hs) == hs
    decreases |hs|
  {
    if hs != [] {
      var n := |hs| - 1;
      KeysPrefix(hs, n);
      assert UniqueKeys(hs[..n]);
      AddAllIntoEmpty(hs[..n]);
      LastKeyIsNew(hs);
      assert hs[..n] + [hs[n]] == hs;
    }
  }

  // ---------------------------------------------------------------------
  // The imperative merge
  // ---------------------------------------------------------------------

  /** Searches for the first entry carrying `key`. */
  method Position(hs: seq<Holding>, key: string) returns (idx: Option<nat>)
    ensures idx == FirstIndex(hs, key)
  {
    var i := 0;
    while i < |hs|
      invariant 0 <= i <= |hs|
      invariant forall j :: 0 <= j < i ==> hs[j].key != key
    {
      if hs[i].key == key {
        return Some(i);
      }
      i := i + 1;
    }
    return None;
  }

  /** Adds one holding in place: to the entry with its key, or at the end. */
  method AddOne(hs: seq<Holding>, h: Holding) returns (r: seq<Holding>)
    ensures r == Add(hs, h)
  {
    var idx := Position(hs, h.key);
    match idx {
      case Some(i) =>
        r := hs[i := hs[i].(amount := hs[i].amount + h.amount)];
      case None =>
        r := hs + [h];
    }
  }

  /** `add_tokens`: merges every coin of a native deposit, one after another,
      or the one token of a token deposit. */
  method AddTokens(b: GenericBalance, add: Balance) returns (r: GenericBalance)
    ensures r == Merged(b, add)
  {
    match add {
      case Native(coins) =>
        var native := b.native;
        for i := 0 to |coins|
          invariant native == AddAll(b.native, coins[..i])
        {
          assert coins[..i + 1][..i] == coins[..i];
          native := AddOne(native, coins[i]);
        }
        assert coins[..|coins|] == coins;
        r := b.(native := native);
      case Cw20(token) =>
        var cw20 := AddOne(b.cw20, token);
        r := b.(cw20 := cw20);
    }
  }

  // ---------------------------------------------------------------------
  // The balance tests
  // ---------------------------------------------------------------------

  /** Two native deposits: "atom" is summed in place, "btc" is appended. */
  lemma AddTokensProper()
    ensures Merged(Merged(GenericBalance([], []), Native([Holding("atom", 123), Holding("eth", 789)])),
                   Native([Holding("atom", 456), Holding("btc", 12)])).native
         == [Holding("atom", 579), Holding("eth", 789), Holding("btc", 12)]
  {
    var first := [Holding("atom", 123), Holding("eth", 789)];
    var second := [Holding("atom", 456), Holding("btc", 12)];
    assert first[..1] == [Holding("atom", 123)];
    assert AddAll([], first) == first;
    assert second[..1] == [Holding("atom", 456)];
    assert AddAll(first, second[..1]) == [Holding("atom", 579), Holding("eth", 789)];
  }

  /** Three token deposits: the second "foo_token" is summed into the first. */
  lemma AddCwTokensProper()
    ensures var foo := Cw20(Holding("foo_token", 12345));
      var bar := Cw20(Holding("bar_token", 777));
      var foo2 := Cw20(Holding("foo_token", 23400));
      Merged(Merged(Merged(GenericBalance([], []), foo), bar), foo2).cw20
        == [Holding("foo_token", 35745), Holding("bar_token", 777)]
  {
    assert Add([], Holding("foo_token", 12345)) == [Holding("foo_token", 12345)];
    assert Add([Holding("foo_token", 12345)], Holding("bar_token", 777))
        == [Holding("foo_token", 12345), Holding("bar_token", 777)];
  }
}
