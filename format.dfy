/**
  The notifier's text layout (format_movers_message): a header line
  "{emoji} {title}" and then one line "{symbol} ({name}): {changePercent}%" per
  mover, every line ending in a newline. The `:.2f` rendering of the percentage
  is the parameter `num`.
*/
module Format {
  import opened Quotes

  /** How `stock.get('symbol')` prints: the text, or "None" when the key is missing or null. */
  function SymbolText(f: Field<string>): string {
    match f
    case Present(v) => v
    case _ => "None"
  }

  /** How `stock.get('name', 'N/A')` prints: "N/A" for a missing key, "None" for a null value. */
  function NameText(f: Field<string>): string {
    match f
    case Absent => "N/A"
    case Null => "None"
    case Present(v) => v
  }

  /** `stock.get('changePercent', 0)`; a null value cannot be rendered with `:.2f`. */
  function ShownPercent(f: Field<real>): real
    requires !f.Null?
  {
    if f.Present? then f.value else 0.0
  }

  /** Every mover's percentage can be rendered (get_top_movers always writes a number). */
  predicate Renderable(movers: seq<Stock>) {
    forall i | 0 <= i < |movers| :: !movers[i].changePercent.Null?
  }

  function HeaderText(emoji: string, title: string): string {
    emoji + " " + title
  }

  /** The line of one mover, without its newline. */
  function LineText(stock: Stock, num: real -> string): string
    requires !stock.changePercent.Null?
  {
    SymbolText(stock.symbol) + " (" + NameText(stock.name) + "): " + num(ShownPercent(stock.changePercent)) + "%"
  }

  function Lines(movers: seq<Stock>, num: real -> string): string
    requires Renderable(movers)
  {
    if movers == [] then "" else LineText(movers[0], num) + "\n" + Lines(movers[1..], num)
  }

  function MoversMessage(title: string, movers: seq<Stock>, emoji: string, num: real -> string): string
    requires Renderable(movers)
  {
    HeaderText(emoji, title) + "\n" + Lines(movers, num)
  }

  /** format_movers_message: the header, then one line per mover appended in order. */
  method FormatMoversMessage(title: string, movers: seq<Stock>, emoji: string, num: real -> string)
    returns (message: string)
    requires Renderable(movers)
    ensures message == MoversMessage(title, movers, emoji, num)
  {
    message := emoji + " " + title + "\n";
    for i := 0 to |movers|
      invariant Renderable(movers[..i])
      invariant message == HeaderText(emoji, title) + "\n" + Lines(movers[..i], num)
    {
      var stock := movers[i];
      var symbol := SymbolText(stock.symbol);
      var name := NameText(stock.name);
      var changePercent := ShownPercent(stock.changePercent);
      var line := symbol + " (" + name + "): " + num(changePercent) + "%\n";
      assert line == LineText(stock, num) + "\n";
      LinesStep(movers, i, num);
      message := message + line;
    }
    assert movers[..|movers|] == movers;
  }

  /** The lines of the first i + 1 movers are those of the first i and then mover i's line. */
  lemma LinesStep(movers: seq<Stock>, i: nat, num: real -> string)
    requires Renderable(movers) && i < |movers|
    ensures Lines(movers[..i + 1], num) == Lines(movers[..i], num) + (LineText(movers[i], num) + "\n")
  {
    LinesSnoc(movers[..i + 1], num);
    assert movers[..i + 1][..i] == movers[..i];
  }

  /** Appending a mover appends its line. */
  lemma {:induction false} LinesSnoc(movers: seq<Stock>, num: real -> string)
    requires Renderable(movers) && movers != []
    ensures Lines(movers, num) == Lines(movers[..|movers| - 1], num) + (LineText(movers[|movers| - 1], num) + "\n")
    decreases |movers|
  {
    var n := |movers|;
    var init := movers[..n - 1];
    var last := LineText(movers[n - 1], num) + "\n";
    var head := LineText(movers[0], num) + "\n";
    if n > 1 {
      LinesSnoc(movers[1..], num);
      assert movers[1..][..n - 2] == init[1..];
      assert movers[1..][n - 2] == movers[n - 1];
      assert Lines(movers[1..], num) == Lines(init[1..], num) + last;
      assert Lines(movers, num) == head + Lines(movers[1..], num);
      assert Lines(init, num) == head + Lines(init[1..], num);
    } else {
      assert init == [];
      assert Lines(movers, num) == head + Lines(movers[1..], num);
      assert movers[1..] == [];
    }
  }

  /** Python's `text.split("\n")`: the pieces between newlines, so a text ending in a newline ends with "". */
  function SplitLines(s: string): (r: seq<string>)
    ensures |r| >= 1
  {
    if s == [] then [""]
    else
      var rest := SplitLines(s[1..]);
      if s[0] == '\n' then [""] + rest else [[s[0]] + rest[0]] + rest[1..]
  }

  /** A line without a newline inside, followed by a newline, splits off as one piece. */
  lemma {:induction false} SplitAfterLine(a: string, b: string)
    requires '\n' !in a
    ensures SplitLines(a + "\n" + b) == [a] + SplitLines(b)
    decreases |a|
  {
    if a == [] {
      assert a + "\n" + b == "\n" + b;
      assert ("\n" + b)[1..] == b;
    } else {
      SplitAfterLine(a[1..], b);
      assert (a + "\n" + b)[1..] == a[1..] + "\n" + b;
      assert a == [a[0]] + a[1..];
    }
  }

  /** The texts of the movers' lines, in order. */
  function LineTexts(movers: seq<Stock>, num: real -> string): seq<string>
    requires Renderable(movers)
  {
    seq(|movers|, i requires 0 <= i < |movers| => LineText(movers[i], num))
  }

  lemma {:induction false} SplitLinesOfMovers(movers: seq<Stock>, num: real -> string)
    requires Renderable(movers)
    requires forall i | 0 <= i < |movers| :: '\n' !in LineText(movers[i], num)
    ensures SplitLines(Lines(movers, num)) == LineTexts(movers, num) + [""]
    decreases |movers|
  {
    if movers != [] {
      SplitLinesOfMovers(movers[1..], num);
      SplitAfterLine(LineText(movers[0], num), Lines(movers[1..], num));
      assert LineTexts(movers, num) == [LineText(movers[0], num)] + LineTexts(movers[1..], num);
    }
  }

  /**
    The message is exactly the header line and then one line per mover, in the movers'
    order, each ending in a newline (so the last piece after splitting is empty);
    with no movers it is the header line alone.
  */
  lemma MessageLayout(title: string, movers: seq<Stock>, emoji: string, num: real -> string)
    requires Renderable(movers)
    requires '\n' !in HeaderText(emoji, title)
    requires forall i | 0 <= i < |movers| :: '\n' !in LineText(movers[i], num)
    ensures SplitLines(MoversMessage(title, movers, emoji, num))
         == [HeaderText(emoji, title)] + LineTexts(movers, num) + [""]
    ensures movers == [] ==> MoversMessage(title, movers, emoji, num) == emoji + " " + title + "\n"
  {
    SplitLinesOfMovers(movers, num);
    SplitAfterLine(HeaderText(emoji, title), Lines(movers, num));
  }

  /** A missing name prints as "N/A" and a missing percentage as 0. */
  lemma LineDefaults(symbol: string, num: real -> string)
    ensures LineText(Stock(Present(symbol), Absent, Absent, Absent, Absent), num)
         == symbol + " (N/A): " + num(0.0) + "%"
  {
  }
}
