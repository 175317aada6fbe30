/** The invoice text written by `saveInvoiceToFile`: a pure layout of the cart
    state. Java's `double`-to-text conversion is the parameter `fmt`. */
module Invoices {
  import opened Products
  import opened Carts
  import opened Text

  const Header := "----------- INVOICE -----------"
  const Separator := "-------------------------------"

  /** One item line: 1-based ordinal, name, price and quantity, tab separated. */
  function ItemLine(ordinal: int, p: Product, fmt: real -> string): string
  {
    IntToString(ordinal) + ". " + p.name + "\t$" + fmt(p.price) + "\tQty: " + IntToString(p.quantity)
  }

  function ItemLines(items: seq<Product>, fmt: real -> string): seq<string>
  {
    seq(|items|, i requires 0 <= i < |items| => ItemLine(i + 1, items[i], fmt))
  }

  function SummaryLines(c: Cart, fmt: real -> string): seq<string>
  {
    [Separator, "Total: $" + fmt(Total(c)), "Discount: $" + fmt(c.discount), Separator]
  }

  function InvoiceLines(c: Cart, fmt: real -> string): seq<string>
  {
    [Header] + ItemLines(c.items, fmt) + SummaryLines(c, fmt)
  }

  /** The whole invoice, every line newline-terminated. */
  function InvoiceText(c: Cart, fmt: real -> string): string
  {
    JoinLines(InvoiceLines(c, fmt))
  }

  /** Item names and rendered numbers never contain a line break (the name
      comes from a single-line text field). */
  ghost predicate SingleLineFields(c: Cart, fmt: real -> string)
  {
    && (forall i :: 0 <= i < |c.items| ==> '\n' !in c.items[i].name)
    && (forall x :: '\n' !in fmt(x))
  }

  lemma InvoiceLinesSingle(c: Cart, fmt: real -> string)
    requires SingleLineFields(c, fmt)
    ensures forall i :: 0 <= i < |InvoiceLines(c, fmt)| ==> '\n' !in InvoiceLines(c, fmt)[i]
  {
  }

  /** Read back line by line, the invoice has `size + 6` pieces: the header,
      one numbered line per item in insertion order, a separator, the total
      (item sum minus discount), the discount, a separator, and the empty
      piece after the final newline. */
  lemma InvoiceLayout(c: Cart, fmt: real -> string)
    requires SingleLineFields(c, fmt)
    ensures var pieces := Split(InvoiceText(c, fmt));
      var n := |c.items|;
      && |pieces| == n + 6
      && pieces[0] == Header
      && (forall i :: 0 <= i < n ==>
            pieces[i + 1] == IntToString(i + 1) + ". " + c.items[i].name + "\t$" + fmt(c.items[i].price)
                             + "\tQty: " + IntToString(c.items[i].quantity))
      && pieces[n + 1] == Separator
      && pieces[n + 2] == "Total: $" + fmt(Sum(c.items) - c.discount)
      && pieces[n + 3] == "Discount: $" + fmt(c.discount)
      && pieces[n + 4] == Separator
      && pieces[n + 5] == ""
  {
    InvoiceLinesSingle(c, fmt);
    SplitJoinLines(InvoiceLines(c, fmt));
  }

  lemma ItemLinesSnoc(items: seq<Product>, i: nat, fmt: real -> string)
    requires i < |items|
    ensures ItemLines(items[..i + 1], fmt) == ItemLines(items[..i], fmt) + [ItemLine(i + 1, items[i], fmt)]
  {
  }

  lemma JoinLinesSnoc(lines: seq<string>, line: string)
    ensures JoinLines(lines + [line]) == JoinLines(lines) + line + "\n"
  {
    JoinLinesAppend(lines, [line]);
    assert JoinLines([line]) == line + "\n" + JoinLines([]);
  }

  lemma SummaryWrites(lines: seq<string>, c: Cart, fmt: real -> string)
    ensures JoinLines(lines + SummaryLines(c, fmt))
         == JoinLines(lines) + Separator + "\n" + ("Total: $" + fmt(Total(c))) + "\n"
            + ("Discount: $" + fmt(c.discount)) + "\n" + Separator + "\n"
  {
    var summary := SummaryLines(c, fmt);
    JoinLinesAppend(lines, summary);
    var t, d := "Total: $" + fmt(Total(c)), "Discount: $" + fmt(c.discount);
    assert JoinLines([Separator]) == Separator + "\n";
    assert JoinLines([d, Separator]) == d + "\n" + JoinLines([Separator]);
    assert JoinLines([t, d, Separator]) == t + "\n" + JoinLines([d, Separator]);
    assert JoinLines(summary) == Separator + "\n" + JoinLines([t, d, Separator]);
  }

  /** `saveInvoiceToFile`'s sequence of writes: header, one line per item in
      index order, then the summary lines. The text produced is the invoice. */
  method WriteInvoice(c: Cart, fmt: real -> string) returns (text: string)
    ensures text == InvoiceText(c, fmt)
  {
    ghost var lines: seq<string> := [Header];
    JoinLinesSnoc([], Header);
    text := Header + "\n";
    var i := 0;
    while i < |c.items|
      invariant 0 <= i <= |c.items|
      invariant lines == [Header] + ItemLines(c.items[..i], fmt)
      invariant text == JoinLines(lines)
    {
      var line := ItemLine(i + 1, c.items[i], fmt);
      ItemLinesSnoc(c.items, i, fmt);
      JoinLinesSnoc(lines, line);
      lines := lines + [line];
      text := text + line + "\n";
      i := i + 1;
    }
    assert c.items[..i] == c.items;
    SummaryWrites(lines, c, fmt);
    text := text + Separator + "\n" + ("Total: $" + fmt(Total(c))) + "\n"
                 + ("Discount: $" + fmt(c.discount)) + "\n" + Separator + "\n";
  }
}
