/**
  The mover ranker (get_top_movers): every record gets a `changePercent`, the
  records are sorted by it, largest first and stably, and the first and the last
  `MoverCount` records of that order are the gainers and the losers.
*/
module Movers {
  import opened Quotes

  const MoverCount: nat := 5

  /**
    The percent change written into a record: (price - previousClose) / previousClose * 100
    when both fields are truthy, and 0 otherwise (missing, null or zero).
  */
  function ChangePercent(s: Stock): (r: real)
    ensures !(Truthy(s.previousClose) && Truthy(s.price)) ==> r == 0.0
    ensures Truthy(s.previousClose) && Truthy(s.price) ==>
              s.previousClose.value + r * s.previousClose.value / 100.0 == s.price.value
  {
    if Truthy(s.previousClose) && Truthy(s.price) then
      (s.price.value - s.previousClose.value) / s.previousClose.value * 100.0
    else
      0.0
  }

  /** A record after the annotation step: only `changePercent` is (re)written. */
  function Annotated(s: Stock): Stock {
    s.(changePercent := Present(ChangePercent(s)))
  }

  /** The sort key `x['changePercent']`; every record the sort sees has been annotated. */
  function Key(s: Stock): real {
    if s.changePercent.Present? then s.changePercent.value else 0.0
  }

  ghost predicate SortedDesc(s: seq<Stock>) {
    forall i, j | 0 <= i < j < |s| :: Key(s[i]) >= Key(s[j])
  }

  /** The records of `s` whose key is `v`, in their order in `s`. */
  function WithKey(s: seq<Stock>, v: real): seq<Stock> {
    if s == [] then []
    else (if Key(s[0]) == v then [s[0]] else []) + WithKey(s[1..], v)
  }

  /** A sorted list is its largest-key head followed by a sorted tail. */
  lemma SortedUncons(t: seq<Stock>)
    requires SortedDesc(t) && t != []
    ensures SortedDesc(t[1..])
    ensures forall y | y in t[1..] :: Key(t[0]) >= Key(y)
  {
    forall y | y in t[1..] ensures Key(t[0]) >= Key(y) {
      var m :| 0 <= m < |t[1..]| && t[1..][m] == y;
      assert t[1..][m] == t[m + 1];
    }
  }

  lemma SortedCons(h: Stock, t: seq<Stock>)
    requires SortedDesc(t)
    requires forall y | y in t :: Key(h) >= Key(y)
    ensures SortedDesc([h] + t)
  {
    forall i, j | 0 <= i < j < |[h] + t| ensures Key(([h] + t)[i]) >= Key(([h] + t)[j]) {
      if i == 0 {
        assert ([h] + t)[j] == t[j - 1];
        assert t[j - 1] in t;
      }
    }
  }

  /** Places `x` before the first record whose key is not above its own. */
  function Insert(x: Stock, t: seq<Stock>): (r: seq<Stock>)
    requires SortedDesc(t)
    ensures SortedDesc(r)
    ensures multiset(r) == multiset(t) + multiset{x}
    ensures forall y | y in r :: y == x || y in t
  {
    if t == [] || Key(x) >= Key(t[0]) then
      SortedCons(x, t);
      [x] + t
    else
      SortedUncons(t);
      var rest := Insert(x, t[1..]);
      SortedCons(t[0], rest);
      assert t == [t[0]] + t[1..];
      [t[0]] + rest
  }

  /** Python's `sorted(data, key=changePercent, reverse=True)`: a stable sort, largest key first. */
  function SortDesc(s: seq<Stock>): (r: seq<Stock>)
    ensures SortedDesc(r)
    ensures multiset(r) == multiset(s)
  {
    if s == [] then []
    else
      assert s == [s[0]] + s[1..];
      Insert(s[0], SortDesc(s[1..]))
  }

  /** `sorted_data[:5]` */
  function Gainers(sorted: seq<Stock>): seq<Stock> {
    sorted[..Min(MoverCount, |sorted|)]
  }

  /** `sorted_data[-5:]`, which is the whole list when it holds fewer than 5 records. */
  function Losers(sorted: seq<Stock>): seq<Stock> {
    sorted[|sorted| - Min(MoverCount, |sorted|)..]
  }

  function AnnotateAll(s: seq<Stock>): seq<Stock> {
    seq(|s|, i requires 0 <= i < |s| => Annotated(s[i]))
  }

  /** What get_top_movers returns for the records `stockData`. */
  function TopMovers(stockData: seq<Stock>): (seq<Stock>, seq<Stock>) {
    var sorted := SortDesc(AnnotateAll(stockData));
    (Gainers(sorted), Losers(sorted))
  }

  /**
    get_top_movers. The annotation loop writes `changePercent` into each record of
    the list in place; the sort and the slices leave the list itself as it is.
  */
  method GetTopMovers(stockData: array<Stock>) returns (gainers: seq<Stock>, losers: seq<Stock>)
    modifies stockData
    ensures stockData[..] == AnnotateAll(old(stockData[..]))
    ensures (gainers, losers) == TopMovers(old(stockData[..]))
  {
    for i := 0 to stockData.Length
      invariant forall k | 0 <= k < i :: stockData[k] == Annotated(old(stockData[k]))
      invariant forall k | i <= k < stockData.Length :: stockData[k] == old(stockData[k])
    {
      var stock := stockData[i];
      var previousClose := stock.previousClose;
      var price := stock.price;
      if Truthy(previousClose) && Truthy(price) {
        var changePercent := (price.value - previousClose.value) / previousClose.value * 100.0;
        stockData[i] := stock.(changePercent := Present(changePercent));
      } else {
        stockData[i] := stock.(changePercent := Present(0.0));
      }
    }
    var sortedData := SortDesc(stockData[..]);
    gainers := sortedData[..Min(MoverCount, |sortedData|)];
    losers := sortedData[|sortedData| - Min(MoverCount, |sortedData|)..];
  }

  /** With a positive previous close, the change is positive exactly when the price rose and negative exactly when it fell. */
  lemma ChangePercentSign(s: Stock)
    requires Truthy(s.price) && s.previousClose.Present? && s.previousClose.value > 0.0
    ensures ChangePercent(s) > 0.0 <==> s.price.value > s.previousClose.value
    ensures ChangePercent(s) < 0.0 <==> s.price.value < s.previousClose.value
  {
    var q, r := s.previousClose.value, ChangePercent(s);
    assert s.price.value - q == r * q / 100.0;
    if r > 0.0 { assert r * q > 0.0; }
    if r < 0.0 { assert r * q < 0.0; }
    if r == 0.0 { assert r * q == 0.0; }
  }

  /** The figures of the worked examples: 100 to 110 and 50 to 55 are +10%, 80 to 72 is -10%, a zero price or previous close gives 0. */
  lemma ChangePercentExamples()
    ensures ChangePercent(Stock(Present("A"), Absent, Present(110.0), Present(100.0), Absent)) == 10.0
    ensures ChangePercent(Stock(Present("A"), Absent, Present(55.0), Present(50.0), Absent)) == 10.0
    ensures ChangePercent(Stock(Present("B"), Absent, Present(72.0), Present(80.0), Absent)) == -10.0
    ensures ChangePercent(Stock(Present("C"), Absent, Present(0.0), Present(80.0), Absent)) == 0.0
    ensures ChangePercent(Stock(Present("D"), Absent, Present(72.0), Present(0.0), Absent)) == 0.0
    ensures ChangePercent(Stock(Present("E"), Absent, Present(72.0), Null, Absent)) == 0.0
  {
  }

  /** Annotation keeps the list's length and order, writes `changePercent` into every record and changes no other field. */
  lemma AnnotateAllFields(s: seq<Stock>)
    ensures |AnnotateAll(s)| == |s|
    ensures forall i | 0 <= i < |s| ::
              && AnnotateAll(s)[i].changePercent == Present(ChangePercent(s[i]))
              && AnnotateAll(s)[i].symbol == s[i].symbol
              && AnnotateAll(s)[i].name == s[i].name
              && AnnotateAll(s)[i].price == s[i].price
              && AnnotateAll(s)[i].previousClose == s[i].previousClose
  {
  }

  lemma {:induction false} WithKeyMember(s: seq<Stock>, v: real, x: Stock)
    ensures x in WithKey(s, v) <==> x in s && Key(x) == v
    decreases |s|
  {
    if s != [] {
      WithKeyMember(s[1..], v, x);
      assert s == [s[0]] + s[1..];
    }
  }

  lemma {:induction false} InsertWithKey(x: Stock, t: seq<Stock>, v: real)
    requires SortedDesc(t)
    ensures WithKey(Insert(x, t), v) == (if Key(x) == v then [x] else []) + WithKey(t, v)
    decreases |t|
  {
    if t == [] || Key(x) >= Key(t[0]) {
      WithKeyCons([x] + t, v);
      assert ([x] + t)[1..] == t;
    } else {
      SortedUncons(t);
      InsertWithKey(x, t[1..], v);
      InsertWithKeyStep(x, t, v);
    }
  }

  /** The step of InsertWithKey where `x` goes past the head of `t`. */
  lemma InsertWithKeyStep(x: Stock, t: seq<Stock>, v: real)
    requires SortedDesc(t) && t != [] && Key(x) < Key(t[0])
    requires SortedDesc(t[1..])
    requires WithKey(Insert(x, t[1..]), v) == (if Key(x) == v then [x] else []) + WithKey(t[1..], v)
    ensures WithKey(Insert(x, t), v) == (if Key(x) == v then [x] else []) + WithKey(t, v)
  {
    assert Insert(x, t) == [t[0]] + Insert(x, t[1..]);
    assert t == [t[0]] + t[1..];
    WithKeyPast(t[0], x, Insert(x, t[1..]), t[1..], v);
  }

  /** A record with a larger key than `x` can be moved from behind `x` to in front of it without changing any key's records. */
  lemma WithKeyPast(h: Stock, x: Stock, r: seq<Stock>, tail: seq<Stock>, v: real)
    requires Key(x) < Key(h)
    requires WithKey(r, v) == (if Key(x) == v then [x] else []) + WithKey(tail, v)
    ensures WithKey([h] + r, v) == (if Key(x) == v then [x] else []) + WithKey([h] + tail, v)
  {
    WithKeyCons([h] + r, v);
    WithKeyCons([h] + tail, v);
    assert ([h] + r)[1..] == r;
    assert ([h] + tail)[1..] == tail;
  }

  /** Stability: for every key value, the records with that key come out in their input order. */
  lemma {:induction false} SortStable(s: seq<Stock>, v: real)
    ensures WithKey(SortDesc(s), v) == WithKey(s, v)
    decreases |s|
  {
    if s != [] {
      SortStable(s[1..], v);
      InsertWithKey(s[0], SortDesc(s[1..]), v);
    }
  }

  /** Unfolding `WithKey` one record at a time. */
  lemma WithKeyCons(s: seq<Stock>, v: real)
    requires s != []
    ensures WithKey(s, v) == (if Key(s[0]) == v then [s[0]] else []) + WithKey(s[1..], v)
  {
  }

  /** In a list sorted largest first, no record has a key above the head's. */
  lemma SortedHeadIsMax(s: seq<Stock>, x: Stock)
    requires SortedDesc(s) && x in s
    ensures Key(s[0]) >= Key(x)
  {
    var i :| 0 <= i < |s| && s[i] == x;
  }

  /** Two non-empty sorted lists that agree on each key's records have the same head and agreeing tails. */
  lemma SortedAgreeingHeads(a: seq<Stock>, b: seq<Stock>)
    requires SortedDesc(a) && SortedDesc(b) && a != [] && b != []
    requires forall v :: WithKey(a, v) == WithKey(b, v)
    ensures a[0] == b[0]
    ensures forall v :: WithKey(a[1..], v) == WithKey(b[1..], v)
  {
    var va, vb := Key(a[0]), Key(b[0]);
    WithKeyMember(a, va, a[0]);
    WithKeyMember(b, va, a[0]);
    SortedHeadIsMax(b, a[0]);
    WithKeyMember(b, vb, b[0]);
    WithKeyMember(a, vb, b[0]);
    SortedHeadIsMax(a, b[0]);
    WithKeyCons(a, va);
    WithKeyCons(b, va);
    assert WithKey(a, va)[0] == WithKey(b, va)[0];
    forall v ensures WithKey(a[1..], v) == WithKey(b[1..], v) {
      var head := if Key(a[0]) == v then [a[0]] else [];
      WithKeyCons(a, v);
      WithKeyCons(b, v);
      assert WithKey(a[1..], v) == WithKey(a, v)[|head|..];
      assert WithKey(b[1..], v) == WithKey(b, v)[|head|..];
    }
  }

  /** Two lists sorted by key, largest first, that agree on the order of each key's records are the same list. */
  lemma {:induction false} SortedAgreeing(a: seq<Stock>, b: seq<Stock>)
    requires SortedDesc(a) && SortedDesc(b)
    requires forall v :: WithKey(a, v) == WithKey(b, v)
    ensures a == b
    decreases |a|
  {
    if a != [] {
      WithKeyCons(a, Key(a[0]));
      assert WithKey(b, Key(a[0])) != [];
    }
    if b != [] {
      WithKeyCons(b, Key(b[0]));
      assert WithKey(a, Key(b[0])) != [];
    }
    if a != [] {
      SortedAgreeingHeads(a, b);
      SortedUncons(a);
      SortedUncons(b);
      SortedAgreeing(a[1..], b[1..]);
      assert a == [a[0]] + a[1..] && b == [b[0]] + b[1..];
    }
  }

  /** The sort is the only order that is by key, largest first, and stable. */
  lemma SortUnique(s: seq<Stock>, r: seq<Stock>)
    requires SortedDesc(r)
    requires forall v :: WithKey(r, v) == WithKey(s, v)
    ensures r == SortDesc(s)
  {
    forall v ensures WithKey(r, v) == WithKey(SortDesc(s), v) {
      SortStable(s, v);
    }
    SortedAgreeing(r, SortDesc(s));
  }

  /**
    Gainers are the first and losers the last min(5, n) records of the sorted list; every
    gainer's change is at least that of every record after the gainers, every loser's at most
    that of every record before the losers. With 10 or more records the sorted list is gainers,
    then the rest, then losers; with fewer (but some) the losers start inside the gainers.
  */
  lemma MoversSlices(sorted: seq<Stock>)
    requires SortedDesc(sorted)
    ensures |Gainers(sorted)| == |Losers(sorted)| == Min(MoverCount, |sorted|)
    ensures Gainers(sorted) == sorted[..|Gainers(sorted)|]
    ensures Losers(sorted) == sorted[|sorted| - |Losers(sorted)|..]
    ensures forall i, j | 0 <= i < |Gainers(sorted)| <= j < |sorted| :: Key(Gainers(sorted)[i]) >= Key(sorted[j])
    ensures forall i, j | 0 <= j < |sorted| - |Losers(sorted)| && 0 <= i < |Losers(sorted)| ::
              Key(Losers(sorted)[i]) <= Key(sorted[j])
    ensures |sorted| >= 2 * MoverCount ==>
              sorted == Gainers(sorted) + sorted[MoverCount..|sorted| - MoverCount] + Losers(sorted)
    ensures 0 < |sorted| < 2 * MoverCount ==>
              |sorted| - |Losers(sorted)| < |Gainers(sorted)| &&
              Losers(sorted)[0] == Gainers(sorted)[|sorted| - |Losers(sorted)|]
  {
  }

  /** Every record get_top_movers returns is an annotated record of its input. */
  lemma TopMoversFromInput(stockData: seq<Stock>)
    ensures forall x | x in TopMovers(stockData).0 || x in TopMovers(stockData).1 ::
              x.changePercent.Present? && exists y :: y in stockData && x == Annotated(y)
  {
    var annotated := AnnotateAll(stockData);
    var sorted := SortDesc(annotated);
    forall x | x in sorted ensures x.changePercent.Present? && exists y :: y in stockData && x == Annotated(y) {
      assert x in multiset(annotated);
      var i :| 0 <= i < |annotated| && annotated[i] == x;
      assert stockData[i] in stockData;
    }
  }
}
