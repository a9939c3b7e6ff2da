/**
  The quote fetcher: the symbol list is cut into consecutive batches of at most
  `BatchSize` symbols, one request is issued per batch, and the records of every
  batch answered with status 200 are concatenated in batch order. The HTTP call is
  the parameter `fetch`: `fetch(k, batch)` is the provider's answer to the k-th
  request (counting from 0), which asks for the symbols of `batch`.
*/
module BatchFetch {
  import opened Quotes

  const BatchSize: nat := 100

  /** The slices `symbols[i:i+BatchSize]` for `i` in `range(0, len(symbols), BatchSize)`. */
  function Batches(symbols: seq<Symbol>): seq<seq<Symbol>>
    decreases |symbols|
  {
    if |symbols| == 0 then []
    else if |symbols| <= BatchSize then [symbols]
    else [symbols[..BatchSize]] + Batches(symbols[BatchSize..])
  }

  function Flatten<T>(xss: seq<seq<T>>): seq<T> {
    if xss == [] then [] else xss[0] + Flatten(xss[1..])
  }

  /** What one answer contributes: its records when the status is 200, nothing otherwise. */
  function Accepted(r: Response): seq<Stock> {
    if r.status == 200 then r.body else []
  }

  /** The records kept from the answers to `batches`, the first of them being request number `first`. */
  function Collected(batches: seq<seq<Symbol>>, fetch: (nat, seq<Symbol>) -> Response, first: nat): seq<Stock>
    decreases |batches|
  {
    if batches == [] then []
    else Accepted(fetch(first, batches[0])) + Collected(batches[1..], fetch, first + 1)
  }

  /**
    get_batch_stock_data. Besides the combined records it returns `requests`, the
    batches it asked for, in the order it asked for them.
  */
  method GetBatchStockData(symbols: seq<Symbol>, fetch: (nat, seq<Symbol>) -> Response)
    returns (stockData: seq<Stock>, requests: seq<seq<Symbol>>)
    ensures requests == Batches(symbols)
    ensures stockData == Collected(requests, fetch, 0)
  {
    stockData, requests := [], [];
    var i := 0;
    ghost var rest := symbols;
    while i < |symbols|
      invariant 0 <= i
      invariant rest == if i < |symbols| then symbols[i..] else []
      invariant requests + Batches(rest) == Batches(symbols)
      invariant stockData == Collected(requests, fetch, 0)
      decreases |symbols| - i
    {
      var batch := symbols[i..Min(i + BatchSize, |symbols|)];
      BatchesFrom(symbols, i);
      ghost var next := symbols[Min(i + BatchSize, |symbols|)..];
      assert requests + Batches(rest) == (requests + [batch]) + Batches(next);
      var response := fetch(|requests|, batch);
      CollectedSnoc(requests, batch, fetch, 0);
      if response.status == 200 {
        stockData := stockData + response.body;
      }
      requests := requests + [batch];
      i := i + BatchSize;
      rest := next;
    }
  }

  /** From offset `i`, the batches are the slice `symbols[i:i+BatchSize]` and then the batches after it. */
  lemma BatchesFrom(symbols: seq<Symbol>, i: nat)
    requires i < |symbols|
    ensures Batches(symbols[i..])
         == [symbols[i..Min(i + BatchSize, |symbols|)]] + Batches(symbols[Min(i + BatchSize, |symbols|)..])
  {
    if |symbols| - i <= BatchSize {
      assert symbols[i..Min(i + BatchSize, |symbols|)] == symbols[i..];
      assert symbols[Min(i + BatchSize, |symbols|)..] == [];
    } else {
      assert symbols[i..Min(i + BatchSize, |symbols|)] == symbols[i..][..BatchSize];
      assert symbols[i..][BatchSize..] == symbols[i + BatchSize..];
    }
  }

  /** Collecting one more batch appends exactly what its answer contributes. */
  lemma {:induction false} CollectedSnoc(batches: seq<seq<Symbol>>, b: seq<Symbol>,
                                         fetch: (nat, seq<Symbol>) -> Response, first: nat)
    ensures Collected(batches + [b], fetch, first)
         == Collected(batches, fetch, first) + Accepted(fetch(first + |batches|, b))
    decreases |batches|
  {
    if batches == [] {
      assert [] + [b] == [b];
    } else {
      assert (batches + [b])[1..] == batches[1..] + [b];
      CollectedSnoc(batches[1..], b, fetch, first + 1);
    }
  }

  /** The number of requests is ceil(N / BatchSize). */
  lemma {:induction false} BatchesCount(symbols: seq<Symbol>)
    ensures |Batches(symbols)| == (|symbols| + BatchSize - 1) / BatchSize
    decreases |symbols|
  {
    if |symbols| > BatchSize {
      BatchesCount(symbols[BatchSize..]);
    }
  }

  /** The k-th request asks for exactly `symbols[k*BatchSize : k*BatchSize + BatchSize]`, never empty, never over `BatchSize`. */
  lemma {:induction false} BatchAt(symbols: seq<Symbol>, k: nat)
    requires k < |Batches(symbols)|
    ensures BatchSize * k < |symbols|
    ensures Batches(symbols)[k] == symbols[BatchSize * k .. Min(BatchSize * k + BatchSize, |symbols|)]
    ensures 0 < |Batches(symbols)[k]| <= BatchSize
    decreases |symbols|
  {
    if k == 0 {
      assert Batches(symbols)[0] == symbols[..Min(BatchSize, |symbols|)];
    } else {
      assert |symbols| > BatchSize;
      var tail := symbols[BatchSize..];
      assert Batches(symbols) == [symbols[..BatchSize]] + Batches(tail);
      assert Batches(symbols)[k] == Batches(tail)[k - 1];
      BatchAt(tail, k - 1);
      var lo, hi := BatchSize * k, Min(BatchSize * k + BatchSize, |symbols|);
      assert BatchSize * (k - 1) == lo - BatchSize;
      assert Min(BatchSize * (k - 1) + BatchSize, |tail|) == hi - BatchSize;
      SliceOfSuffix(symbols, BatchSize, lo, hi);
    }
  }

  /** A slice of the suffix from `d` is the slice of the whole list shifted by `d`. */
  lemma SliceOfSuffix<T>(s: seq<T>, d: nat, lo: nat, hi: nat)
    requires d <= lo <= hi <= |s|
    ensures s[d..][lo - d .. hi - d] == s[lo..hi]
  {
    forall i | 0 <= i < hi - lo ensures s[d..][lo - d .. hi - d][i] == s[lo..hi][i] {
      assert s[d..][lo - d .. hi - d][i] == s[d..][lo - d + i] == s[lo + i];
    }
  }

  /** The batches, concatenated in order, give back the symbol list. */
  lemma {:induction false} BatchesFlatten(symbols: seq<Symbol>)
    ensures Flatten(Batches(symbols)) == symbols
    decreases |symbols|
  {
    if |symbols| > BatchSize {
      BatchesFlatten(symbols[BatchSize..]);
      assert symbols == symbols[..BatchSize] + symbols[BatchSize..];
    }
  }

  /** What the answer to the j-th of `batches` contributes. */
  function Kept(batches: seq<seq<Symbol>>, fetch: (nat, seq<Symbol>) -> Response, first: nat, j: nat): seq<Stock>
    requires j < |batches|
  {
    Accepted(fetch(first + j, batches[j]))
  }

  /** A record is in the result exactly when some batch was answered with status 200 and carried it. */
  lemma {:induction false} CollectedMember(batches: seq<seq<Symbol>>, fetch: (nat, seq<Symbol>) -> Response,
                                           first: nat, x: Stock)
    ensures x in Collected(batches, fetch, first)
        <==> exists j :: 0 <= j < |batches| && x in Kept(batches, fetch, first, j)
    decreases |batches|
  {
    if batches != [] {
      var tail := batches[1..];
      CollectedMember(tail, fetch, first + 1, x);
      if x in Collected(tail, fetch, first + 1) {
        var j :| 0 <= j < |tail| && x in Kept(tail, fetch, first + 1, j);
        assert Kept(tail, fetch, first + 1, j) == Kept(batches, fetch, first, j + 1);
      }
      if x in Accepted(fetch(first, batches[0])) {
        assert x in Kept(batches, fetch, first, 0);
      }
      if exists j :: 0 <= j < |batches| && x in Kept(batches, fetch, first, j) {
        var j :| 0 <= j < |batches| && x in Kept(batches, fetch, first, j);
        if j > 0 {
          assert Kept(tail, fetch, first + 1, j - 1) == Kept(batches, fetch, first, j);
        }
      }
    }
  }

  /** When no request is answered with status 200 the result is empty. */
  lemma {:induction false} CollectedAllFailed(batches: seq<seq<Symbol>>, fetch: (nat, seq<Symbol>) -> Response, first: nat)
    requires forall j :: 0 <= j < |batches| ==> fetch(first + j, batches[j]).status != 200
    ensures Collected(batches, fetch, first) == []
    decreases |batches|
  {
    if batches != [] {
      assert fetch(first + 0, batches[0]).status != 200;
      forall j | 0 <= j < |batches[1..]|
        ensures fetch(first + 1 + j, batches[1..][j]).status != 200
      {
        assert batches[1..][j] == batches[j + 1];
      }
      CollectedAllFailed(batches[1..], fetch, first + 1);
    }
  }

  /** When every request is answered with status 200 the result is all the answers' records, in order. */
  lemma {:induction false} CollectedAllOk(batches: seq<seq<Symbol>>, fetch: (nat, seq<Symbol>) -> Response, first: nat)
    requires forall j :: 0 <= j < |batches| ==> fetch(first + j, batches[j]).status == 200
    ensures Collected(batches, fetch, first)
         == Flatten(seq(|batches|, j requires 0 <= j < |batches| => fetch(first + j, batches[j]).body))
    decreases |batches|
  {
    if batches != [] {
      assert fetch(first + 0, batches[0]).status == 200;
      forall j | 0 <= j < |batches[1..]|
        ensures fetch(first + 1 + j, batches[1..][j]).status == 200
      {
        assert batches[1..][j] == batches[j + 1];
      }
      CollectedAllOk(batches[1..], fetch, first + 1);
      var bodies := seq(|batches|, j requires 0 <= j < |batches| => fetch(first + j, batches[j]).body);
      assert bodies[1..] == seq(|batches[1..]|, j requires 0 <= j < |batches[1..]| => fetch(first + 1 + j, batches[1..][j]).body);
    }
  }

  /** The bot's own list of 49 tickers is fetched in a single request. */
  lemma Sp500OneBatch()
    ensures |Sp500Symbols| == 49
    ensures Batches(Sp500Symbols) == [Sp500Symbols]
  {
  }
}
