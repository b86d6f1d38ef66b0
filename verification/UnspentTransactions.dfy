/** Selection of unspent outputs (client-core/src/unspent_transactions.rs). */
module UnspentTransactions {
  import opened Wrappers
  import opened Sequences
  import opened Coins
  import opened Transactions

  datatype WalletError = BalanceAdditionError | InsufficientBalance | SigningError | EncryptionError

  datatype Unspent = Unspent(pointer: TxoPointer, output: TxOut)

  datatype Sorter = HighestValueFirst | LowestValueFirst {
    predicate Before(a: Unspent, b: Unspent) {
      match this
      case HighestValueFirst => a.output.value >= b.output.value
      case LowestValueFirst => a.output.value <= b.output.value
    }
  }

  function CoinValues(us: seq<Unspent>): (vs: seq<Coin>)
    ensures |vs| == |us|
  {
    seq(|us|, i requires 0 <= i < |us| => us[i].output.value)
  }

  function Worth(us: seq<Unspent>): nat {
    Total(CoinValues(us))
  }

  // ---------- Sorting ----------

  predicate Ordered(sorter: Sorter, us: seq<Unspent>) {
    forall i, j | 0 <= i < j < |us| :: sorter.Before(us[i], us[j])
  }

  /** The outputs of one value, in order; a stable sort keeps these lists. */
  function OfValue(us: seq<Unspent>, v: Coin): seq<Unspent> {
    if us == [] then [] else (if us[0].output.value == v then [us[0]] else []) + OfValue(us[1..], v)
  }

  function Earlier(sorter: Sorter): Order<Unspent> {
    (a: Unspent, b: Unspent) => sorter.Before(a, b)
  }

  /** The result of the library's stable sort. */
  function Sort(sorter: Sorter, us: seq<Unspent>): seq<Unspent> {
    InsertionSort(Earlier(sorter), us)
  }

  lemma {:induction false} InsertedStable(sorter: Sorter, u: Unspent, us: seq<Unspent>, v: Coin)
    ensures OfValue(Inserted(Earlier(sorter), u, us), v) == OfValue([u] + us, v)
    decreases |us|
  {
    if us != [] && !sorter.Before(u, us[0]) {
      InsertedStable(sorter, u, us[1..], v);
      var tail := Inserted(Earlier(sorter), u, us[1..]);
      assert Inserted(Earlier(sorter), u, us) == [us[0]] + tail;
      assert ([us[0]] + tail)[1..] == tail && ([u] + us[1..])[1..] == us[1..] && ([u] + us)[1..] == us;
      assert us[0].output.value != u.output.value;
    }
  }

  lemma {:induction false} SortStable(sorter: Sorter, us: seq<Unspent>, v: Coin)
    ensures OfValue(Sort(sorter, us), v) == OfValue(us, v)
    decreases |us|
  {
    if us != [] {
      SortStable(sorter, us[1..], v);
      InsertedStable(sorter, us[0], Sort(sorter, us[1..]), v);
      var tail := Sort(sorter, us[1..]);
      assert ([us[0]] + tail)[1..] == tail;
    }
  }

  /** Sorting orders the list, keeps its elements, and keeps the order of equal values. */
  lemma SortShape(sorter: Sorter, us: seq<Unspent>, v: Coin)
    ensures Ordered(sorter, Sort(sorter, us))
    ensures multiset(Sort(sorter, us)) == multiset(us)
    ensures OfValue(Sort(sorter, us), v) == OfValue(us, v)
  {
    SortStable(sorter, us, v);
    InsertionSortShape(Earlier(sorter), us);
    hide InsertionSort;
  }

  /** By value, from the highest to the lowest or from the lowest to the highest. */
  lemma SortedByValue(us: seq<Unspent>, i: nat, j: nat)
    requires i < j < |us|
    ensures |Sort(HighestValueFirst, us)| == |us| == |Sort(LowestValueFirst, us)|
    ensures Sort(HighestValueFirst, us)[i].output.value >= Sort(HighestValueFirst, us)[j].output.value
    ensures Sort(LowestValueFirst, us)[i].output.value <= Sort(LowestValueFirst, us)[j].output.value
  {
    SortShape(HighestValueFirst, us, 0);
    SortShape(LowestValueFirst, us, 0);
    hide Sort;
    assert |Sort(HighestValueFirst, us)| == |multiset(Sort(HighestValueFirst, us))|;
    assert |Sort(LowestValueFirst, us)| == |multiset(Sort(LowestValueFirst, us))|;
    assert |us| == |multiset(us)|;
  }

  /** One sort after the other. */
  function SortAll(sorters: seq<Sorter>, us: seq<Unspent>): seq<Unspent> {
    if sorters == [] then us else Sort(sorters[|sorters| - 1], SortAll(sorters[..|sorters| - 1], us))
  }

  /** Whatever the operations, nothing is lost or added, and the last one decides the order. */
  lemma {:induction false} SortAllShape(sorters: seq<Sorter>, us: seq<Unspent>)
    ensures multiset(SortAll(sorters, us)) == multiset(us)
    ensures sorters != [] ==> Ordered(sorters[|sorters| - 1], SortAll(sorters, us))
    decreases |sorters|
  {
    if sorters != [] {
      SortAllShape(sorters[..|sorters| - 1], us);
      SortShape(sorters[|sorters| - 1], SortAll(sorters[..|sorters| - 1], us), 0);
    }
  }

  // ---------- Selecting ----------

  /** The shortest non-empty prefix worth at least the amount, and what it is worth beyond it. */
  function SelectFrom(us: seq<Unspent>, i: nat, selected: Coin, amount: Coin): Result<(nat, Coin), WalletError>
    requires i <= |us|
    decreases |us| - i
  {
    if i == |us| then Err(InsufficientBalance)
    else match Add(selected, us[i].output.value)
      case Err(_) => Err(BalanceAdditionError)
      case Ok(sum) => if sum >= amount then Ok((i + 1, sum - amount)) else SelectFrom(us, i + 1, sum, amount)
  }

  method Select(us: seq<Unspent>, amount: Coin) returns (r: Result<(seq<Unspent>, Coin), WalletError>)
    ensures r.Ok? <==> SelectFrom(us, 0, 0, amount).Ok?
    ensures r.Ok? ==> var k := SelectFrom(us, 0, 0, amount).value.0;
                      k <= |us| && r.value == (us[..k], SelectFrom(us, 0, 0, amount).value.1)
    ensures r.Err? ==> r.error == SelectFrom(us, 0, 0, amount).error
  {
    var selected := 0;
    for i := 0 to |us|
      invariant 0 <= selected <= MAX_COIN
      invariant SelectFrom(us, 0, 0, amount) == SelectFrom(us, i, selected, amount)
    {
      var sum := Add(selected, us[i].output.value);
      if sum.Err? {
        return Err(BalanceAdditionError);
      }
      selected := sum.value;
      if selected >= amount {
        return Ok((us[..i + 1], selected - amount));
      }
    }
    r := Err(InsufficientBalance);
  }

  lemma WorthPush(us: seq<Unspent>, i: nat)
    requires i < |us|
    ensures Worth(us[..i + 1]) == Worth(us[..i]) + us[i].output.value
  {
    assert CoinValues(us[..i + 1]) == CoinValues(us[..i]) + [us[i].output.value];
    TotalPush(CoinValues(us[..i]), us[i].output.value);
  }

  /** No non-empty prefix up to k reaches the amount. */
  predicate ShortOf(us: seq<Unspent>, k: nat, amount: Coin) {
    forall j | 1 <= j <= k && j <= |us| :: Worth(us[..j]) < amount
  }

  /** What selection decides, in terms of prefixes alone. */
  ghost predicate SelectionRight(us: seq<Unspent>, amount: Coin, r: Result<(nat, Coin), WalletError>) {
    match r
    case Ok(kd) =>
      && 1 <= kd.0 <= |us| && amount <= Worth(us[..kd.0]) <= MAX_COIN
      && ShortOf(us, kd.0 - 1, amount) && kd.1 == Worth(us[..kd.0]) - amount
    case Err(BalanceAdditionError) =>
      exists j | 1 <= j <= |us| :: Worth(us[..j]) > MAX_COIN && ShortOf(us, j - 1, amount)
    case Err(e) =>
      e == InsufficientBalance && ShortOf(us, |us|, amount)
  }

  lemma {:induction false} SelectDecides(us: seq<Unspent>, i: nat, amount: Coin)
    requires i <= |us| && Worth(us[..i]) <= MAX_COIN && ShortOf(us, i, amount)
    ensures SelectionRight(us, amount, SelectFrom(us, i, Worth(us[..i]), amount))
    decreases |us| - i
  {
    hide Worth;
    if i < |us| {
      WorthPush(us, i);
      if Worth(us[..i + 1]) <= MAX_COIN && Worth(us[..i + 1]) < amount {
        SelectDecides(us, i + 1, amount);
      }
    }
  }

  lemma SelectIsRight(us: seq<Unspent>, amount: Coin)
    ensures SelectionRight(us, amount, SelectFrom(us, 0, 0, amount))
  {
    assert Worth(us[..0]) == 0;
    SelectDecides(us, 0, amount);
  }

  // ---------- Fewest inputs ----------

  lemma {:induction false} WorthWithout(us: seq<Unspent>, i: nat)
    requires i < |us|
    ensures Worth(us[..i] + us[i + 1..]) + us[i].output.value == Worth(us)
  {
    var vs := CoinValues(us);
    assert CoinValues(us[..i] + us[i + 1..]) == vs[..i] + vs[i + 1..];
    assert vs == vs[..i] + ([vs[i]] + vs[i + 1..]);
    TotalAppend(vs[..i], [vs[i]] + vs[i + 1..]);
    TotalAppend([vs[i]], vs[i + 1..]);
    TotalAppend(vs[..i], vs[i + 1..]);
  }

  lemma WorthHead(us: seq<Unspent>, k: nat)
    requires 0 < k <= |us|
    ensures Worth(us[..k]) == us[0].output.value + Worth(us[1..][..k - 1])
  {
    assert CoinValues(us[..k])[1..] == CoinValues(us[1..][..k - 1]);
  }

  /** In a list sorted from high to low, dropping the first does not make a prefix worth more. */
  lemma {:induction false} ShiftedWorthLess(us: seq<Unspent>, k: nat)
    requires Ordered(HighestValueFirst, us) && k < |us|
    ensures Worth(us[1..][..k]) <= Worth(us[..k])
    decreases k
  {
    if k > 0 {
      ShiftedWorthLess(us, k - 1);
      WorthPush(us, k - 1);
      WorthPush(us[1..], k - 1);
    }
  }

  lemma FitsTail(us: seq<Unspent>, sel: seq<Unspent>)
    requires us != [] && multiset(sel) <= multiset(us) && us[0] !in sel
    ensures multiset(sel) <= multiset(us[1..])
  {
    assert us == [us[0]] + us[1..];
    forall x ensures multiset(sel)[x] <= multiset(us[1..])[x] {
      if x == us[0] { assert x !in multiset(sel); }
    }
  }

  lemma MultisetSize(us: seq<Unspent>, sel: seq<Unspent>)
    requires multiset(sel) <= multiset(us)
    ensures |sel| <= |us|
  {
    assert |multiset(us)| == |multiset(sel)| + |multiset(us) - multiset(sel)|;
  }

  /** No choice of outputs is worth more than as many of the first ones. */
  lemma {:induction false} FirstOnesWorthMost(us: seq<Unspent>, sel: seq<Unspent>)
    requires Ordered(HighestValueFirst, us) && multiset(sel) <= multiset(us)
    ensures |sel| <= |us| && Worth(sel) <= Worth(us[..|sel|])
    decreases |us|
  {
    hide Worth, Ordered;
    MultisetSize(us, sel);
    if us != [] { OrderedTail(us); }
    if sel == [] {
      NothingWorth(us, sel);
    } else if us[0] in sel {
      var i :| 0 <= i < |sel| && sel[i] == us[0];
      var rest := sel[..i] + sel[i + 1..];
      RestFits(us, sel, i);
      FirstOnesWorthMost(us[1..], rest);
      WorthWithout(sel, i);
      WorthHead(us, |sel|);
    } else {
      FitsTail(us, sel);
      FirstOnesWorthMost(us[1..], sel);
      ShiftedWorthLess(us, |sel|);
    }
  }

  lemma RestFits(us: seq<Unspent>, sel: seq<Unspent>, i: nat)
    requires us != [] && multiset(sel) <= multiset(us) && i < |sel| && sel[i] == us[0]
    ensures multiset(sel[..i] + sel[i + 1..]) <= multiset(us[1..])
  {
    RemoveAt(sel, i);
    TailCounts(us);
  }

  lemma OrderedTail(us: seq<Unspent>)
    requires Ordered(HighestValueFirst, us) && us != []
    ensures Ordered(HighestValueFirst, us[1..])
  {
  }

  lemma NothingWorth(us: seq<Unspent>, sel: seq<Unspent>)
    requires sel == []
    ensures Worth(sel) <= Worth(us[..|sel|])
  {
    assert us[..0] == [];
  }

  /** Once sorted by highest value first, a successful selection uses the fewest outputs of any
      non-empty choice that reaches the amount. */
  lemma FewestInputs(us: seq<Unspent>, amount: Coin, sel: seq<Unspent>)
    requires SelectFrom(Sort(HighestValueFirst, us), 0, 0, amount).Ok?
    requires sel != [] && multiset(sel) <= multiset(us) && Worth(sel) >= amount
    ensures SelectFrom(Sort(HighestValueFirst, us), 0, 0, amount).value.0 <= |sel|
  {
    hide Worth, SelectFrom, Sort;
    var sorted := Sort(HighestValueFirst, us);
    SortShape(HighestValueFirst, us, 0);
    SelectIsRight(sorted, amount);
    FirstOnesWorthMost(sorted, sel);
  }

  /** And when it reports an insufficient balance, no choice reaches the amount. */
  lemma InsufficientMeansNone(us: seq<Unspent>, amount: Coin, sel: seq<Unspent>)
    requires SelectFrom(Sort(HighestValueFirst, us), 0, 0, amount) == Err(InsufficientBalance)
    requires sel != [] && multiset(sel) <= multiset(us)
    ensures Worth(sel) < amount
  {
    hide Worth, SelectFrom, Sort;
    var sorted := Sort(HighestValueFirst, us);
    SortShape(HighestValueFirst, us, 0);
    SelectIsRight(sorted, amount);
    FirstOnesWorthMost(sorted, sel);
  }

  /** The list of unspent outputs, reordered in place. */
  class UnspentTransactions {
    var inner: seq<Unspent>

    constructor (us: seq<Unspent>)
      ensures inner == us
    {
      inner := us;
    }

    method ApplyAll(sorters: seq<Sorter>)
      modifies this
      ensures inner == SortAll(sorters, old(inner))
      ensures multiset(inner) == multiset(old(inner))
      ensures sorters != [] ==> Ordered(sorters[|sorters| - 1], inner)
    {
      for i := 0 to |sorters|
        invariant inner == SortAll(sorters[..i], old(inner))
      {
        assert sorters[..i + 1][..i] == sorters[..i];
        inner := Sort(sorters[i], inner);
      }
      assert sorters[..|sorters|] == sorters;
      SortAllShape(sorters, old(inner));
    }
  }
}
