/**
  The send routines. Posting a message to the chat appends it to `outbox`; the
  quote provider is the parameter `fetch` (see BatchFetch) and the `:.2f`
  rendering of a percentage the parameter `num` (see Format).
*/
module Notify {
  import opened Quotes
  import BatchFetch
  import Movers
  import Format

  const MarketOpenText: string := "🟢 Market Open!"
  const MarketCloseText: string := "🔴 Market Close!"
  const FailedText: string := "⚠️ Failed to load stock data."
  const GainersTitle: string := "Top 5 Gainers"
  const GainersEmoji: string := "📈"
  const LosersTitle: string := "Top 5 Losers"
  const LosersEmoji: string := "📉"

  /** The records one run obtains for the bot's symbol list. */
  function FetchedData(fetch: (nat, seq<Symbol>) -> Response): seq<Stock> {
    BatchFetch.Collected(BatchFetch.Batches(Sp500Symbols), fetch, 0)
  }

  /**
    What send_sp500_top_movers posts for the fetched records `data`: the one warning
    when there are none, otherwise the gainers message and then the losers message.
  */
  function TopMoversMessages(data: seq<Stock>, num: real -> string): (msgs: seq<string>)
    ensures |msgs| == 1 <==> data == []
    ensures data == [] ==> msgs == [FailedText]
    ensures data != [] ==>
              && |msgs| == 2
              && Format.HeaderText(GainersEmoji, GainersTitle) + "\n" <= msgs[0]
              && Format.HeaderText(LosersEmoji, LosersTitle) + "\n" <= msgs[1]
  {
    if data == [] then
      [FailedText]
    else
      Movers.TopMoversFromInput(data);
      var (gainers, losers) := Movers.TopMovers(data);
      [Format.MoversMessage(GainersTitle, gainers, GainersEmoji, num),
       Format.MoversMessage(LosersTitle, losers, LosersEmoji, num)]
  }

  /** The chat the bot posts to; `outbox` holds every message posted so far, oldest first. */
  class MarketBot {
    var outbox: seq<string>

    constructor ()
      ensures outbox == []
    {
      outbox := [];
    }

    /** send_telegram_message: the message is posted; the POST's response is not read, and a failing POST is not modelled. */
    method SendTelegramMessage(message: string)
      modifies this
      ensures outbox == old(outbox) + [message]
    {
      outbox := outbox + [message];
    }

    /** send_sp500_top_movers */
    method SendSp500TopMovers(fetch: (nat, seq<Symbol>) -> Response, num: real -> string)
      modifies this
      ensures outbox == old(outbox) + TopMoversMessages(FetchedData(fetch), num)
    {
      var stockData, _ := BatchFetch.GetBatchStockData(Sp500Symbols, fetch);
      if stockData == [] {
        SendTelegramMessage(FailedText);
        return;
      }
      var records := new Stock[|stockData|](i requires 0 <= i < |stockData| => stockData[i]);
      assert records[..] == stockData;
      var gainers, losers := Movers.GetTopMovers(records);
      Movers.TopMoversFromInput(stockData);
      var gainersMessage := Format.FormatMoversMessage(GainersTitle, gainers, GainersEmoji, num);
      var losersMessage := Format.FormatMoversMessage(LosersTitle, losers, LosersEmoji, num);
      SendTelegramMessage(gainersMessage);
      SendTelegramMessage(losersMessage);
    }

    /** send_market_open_message: the status line, then the movers. */
    method SendMarketOpenMessage(fetch: (nat, seq<Symbol>) -> Response, num: real -> string)
      modifies this
      ensures outbox == old(outbox) + [MarketOpenText] + TopMoversMessages(FetchedData(fetch), num)
    {
      SendTelegramMessage(MarketOpenText);
      SendSp500TopMovers(fetch, num);
    }

    /** send_market_close_message: the status line, then the movers. */
    method SendMarketCloseMessage(fetch: (nat, seq<Symbol>) -> Response, num: real -> string)
      modifies this
      ensures outbox == old(outbox) + [MarketCloseText] + TopMoversMessages(FetchedData(fetch), num)
    {
      SendTelegramMessage(MarketCloseText);
      SendSp500TopMovers(fetch, num);
    }
  }

  /**
    A trigger posts its status line first and then either the warning alone (nothing
    fetched) or the gainers and the losers messages, and the warning is never posted
    when records were fetched.
  */
  lemma TriggerMessages(status: string, data: seq<Stock>, num: real -> string)
    ensures var sent := [status] + TopMoversMessages(data, num);
            && sent[0] == status
            && (data == [] <==> |sent| == 2)
            && (data == [] ==> sent[1] == FailedText)
            && (data != [] ==> |sent| == 3 && FailedText != sent[1] && FailedText != sent[2])
  {
    if data != [] {
      var msgs := TopMoversMessages(data, num);
      assert msgs[0][0] == GainersEmoji[0] != FailedText[0];
      assert msgs[1][0] == LosersEmoji[0] != FailedText[0];
    }
  }

  function ScenarioA(): Stock { Stock(Present("A"), Present("Alpha"), Present(55.0), Present(50.0), Absent) }
  function ScenarioB(): Stock { Stock(Present("B"), Present("Beta"), Present(72.0), Present(80.0), Absent) }

  /** Ranking the two quotes of the scenario below: A at +10% ahead of B at -10%, both in both slices. */
  lemma TwoStockRanking()
    ensures var a' := ScenarioA().(changePercent := Present(10.0));
            var b' := ScenarioB().(changePercent := Present(-10.0));
            Movers.TopMovers([ScenarioA(), ScenarioB()]) == ([a', b'], [a', b'])
  {
    var a', b' := Movers.Annotated(ScenarioA()), Movers.Annotated(ScenarioB());
    assert Movers.ChangePercent(ScenarioA()) == 10.0 && Movers.ChangePercent(ScenarioB()) == -10.0;
    assert Movers.AnnotateAll([ScenarioA(), ScenarioB()]) == [a', b'];
    assert Movers.SortDesc([b']) == [b'];
    assert Movers.SortDesc([a', b']) == Movers.Insert(a', [b']) == [a', b'];
    assert [a', b'][..2] == [a', b'] && [a', b'][0..] == [a', b'];
  }

  /** The scenario's mover lines: A's first, then B's. */
  function ScenarioLines(num: real -> string): string {
    "A (Alpha): " + num(10.0) + "%\n" + "B (Beta): " + num(-10.0) + "%\n"
  }

  /** The movers message of the scenario's two ranked records, under any title. */
  lemma TwoStockMessage(title: string, emoji: string, num: real -> string)
    ensures Format.MoversMessage(title, [ScenarioA().(changePercent := Present(10.0)),
                                         ScenarioB().(changePercent := Present(-10.0))], emoji, num)
         == emoji + " " + title + "\n" + ScenarioLines(num)
  {
    var a' := ScenarioA().(changePercent := Present(10.0));
    var b' := ScenarioB().(changePercent := Present(-10.0));
    assert Format.LineText(a', num) == "A (Alpha): " + num(10.0) + "%";
    assert Format.LineText(b', num) == "B (Beta): " + num(-10.0) + "%";
    assert Format.Lines([b'], num) == "B (Beta): " + num(-10.0) + "%\n";
    assert [a', b'][1..] == [b'];
    assert Format.Lines([a', b'], num)
        == "A (Alpha): " + num(10.0) + "%\n" + "B (Beta): " + num(-10.0) + "%\n";
  }

  lemma HeaderLiterals()
    ensures Format.HeaderText(GainersEmoji, GainersTitle) + "\n" == "📈 Top 5 Gainers\n"
    ensures Format.HeaderText(LosersEmoji, LosersTitle) + "\n" == "📉 Top 5 Losers\n"
  {
  }

  /** The scenario's two messages, before the headers are spelled out. */
  lemma TwoStockMessages(num: real -> string)
    ensures TopMoversMessages([ScenarioA(), ScenarioB()], num)
         == [Format.HeaderText(GainersEmoji, GainersTitle) + "\n" + ScenarioLines(num),
             Format.HeaderText(LosersEmoji, LosersTitle) + "\n" + ScenarioLines(num)]
  {
    TwoStockRanking();
    var data := [ScenarioA(), ScenarioB()];
    var (g, l) := Movers.TopMovers(data);
    assert TopMoversMessages(data, num)
        == [Format.MoversMessage(GainersTitle, g, GainersEmoji, num),
            Format.MoversMessage(LosersTitle, l, LosersEmoji, num)];
    TwoStockMessage(GainersTitle, GainersEmoji, num);
    TwoStockMessage(LosersTitle, LosersEmoji, num);
  }

  /**
    Two quotes, A from 50 to 55 and B from 80 to 72: A is +10% and B is -10%, so both
    messages list A's line before B's.
  */
  lemma TwoStockScenario(num: real -> string)
    ensures TopMoversMessages([ScenarioA(), ScenarioB()], num)
         == ["📈 Top 5 Gainers\n" + ScenarioLines(num), "📉 Top 5 Losers\n" + ScenarioLines(num)]
  {
    TwoStockMessages(num);
    HeaderLiterals();
  }
}
