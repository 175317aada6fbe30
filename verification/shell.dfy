/** The decision logic the billing window wraps around the cart: each button
    press becomes a pure step from the current cart to the next one, plus the
    notices shown to the user and the invoice text handed to the file sink.
    Parsing of the text fields happens before a command is formed. */
module Shell {
  import opened Products
  import opened Carts
  import opened Results
  import opened Text
  import opened Invoices

  /** One button press with its already-parsed inputs. */
  datatype Command =
    | AddItemCommand(name: string, price: real, quantity: int)
    | RemoveItemCommand(ordinal: int)
    | ViewCartCommand
    | ApplyDiscountCommand(amount: real)
    | GenerateInvoiceCommand
    | DownloadInvoiceCommand

  /** How one phase of the file write ended: the IOException message on failure. */
  datatype IoOutcome = Completed | Failed(message: string)

  /** What writing `invoice.txt` came to, in the two phases of the
      try-with-resources block: `body` is opening the file and the writes,
      `close` is the implicit close that flushes the buffered text. */
  datatype SinkResult = SinkResult(body: IoOutcome, close: IoOutcome)

  /** The dialog or display each action ends with. */
  datatype Notice =
    | ItemAdded
    | ItemRemoved
    | InvalidItemNumber
    | CartShown
    | CartIsEmpty
    | DiscountApplied
    | CannotGenerateEmpty
    | InvoiceSavedToFile
    | FailedToSave(message: string)
    | CannotDownloadEmpty

  /** The cart after the step, the notices shown in order, and the text given
      to the file sink. */
  datatype StepResult = StepResult(cart: Cart, notices: seq<Notice>, written: Option<string>)

  /** "Remove Item": the user's ordinal `k` is 1-based; only `1 <= k <= size`
      reaches the cart, as index `k - 1`. */
  function RemoveOrdinal(c: Cart, k: int): (r: StepResult)
    ensures r.notices == [ItemRemoved] <==> 1 <= k <= Size(c)
    ensures r.notices == [ItemRemoved] ==> RemoveItem(c, k - 1) == Ok(r.cart)
    ensures r.notices == [ItemRemoved] ==> Size(r.cart) == Size(c) - 1 && r.cart.discount == c.discount
    ensures r.notices != [ItemRemoved] ==> r.cart == c && r.notices == [InvalidItemNumber]
    ensures r.written == None
  {
    if k >= 1 && k <= Size(c) then StepResult(RemoveItem(c, k - 1).value, [ItemRemoved], None)
    else StepResult(c, [InvalidItemNumber], None)
  }

  /** "Generate Invoice": a non-empty cart is shown and replaced by a fresh
      one; an empty cart is refused and kept. */
  function Generate(c: Cart): (r: StepResult)
    ensures Size(c) > 0 ==> r.cart == NewCart() && r.notices == [CartShown]
    ensures Size(c) == 0 ==> r.cart == c && r.notices == [CannotGenerateEmpty]
    ensures Size(r.cart) == 0 && r.written == None
  {
    if Size(c) > 0 then StepResult(NewCart(), [CartShown], None)
    else StepResult(c, [CannotGenerateEmpty], None)
  }

  /** "Download Invoice" as the code does it: a non-empty cart's invoice goes
      to the sink and the cart is replaced by a fresh one whatever the write
      came to, because `saveInvoiceToFile` catches the IOException itself.
      The success dialog sits inside the try block, before the implicit close:
      a failure while writing skips it (an exception from the close is then
      suppressed), but a failure in the close comes after it, so the user sees
      "saved" followed by the failure. */
  function Download(c: Cart, sink: string -> SinkResult, fmt: real -> string): (r: StepResult)
    ensures Size(c) > 0 ==> r.cart == NewCart() && r.written == Some(InvoiceText(c, fmt))
    ensures Size(c) > 0 ==> (InvoiceSavedToFile in r.notices <==> sink(InvoiceText(c, fmt)).body == Completed)
    ensures Size(c) > 0 && sink(InvoiceText(c, fmt)).body.Failed? ==>
              r.notices == [FailedToSave(sink(InvoiceText(c, fmt)).body.message)]
    ensures Size(c) > 0 && sink(InvoiceText(c, fmt)).body == Completed ==>
              r.notices == (if sink(InvoiceText(c, fmt)).close.Failed?
                            then [InvoiceSavedToFile, FailedToSave(sink(InvoiceText(c, fmt)).close.message)]
                            else [InvoiceSavedToFile])
    ensures Size(r.cart) == 0
    ensures Size(c) == 0 ==> r.cart == c && r.notices == [CannotDownloadEmpty] && r.written == None
  {
    if Size(c) > 0 then
      var text := InvoiceText(c, fmt);
      var outcome := sink(text);
      var notices :=
        if outcome.body.Failed? then [FailedToSave(outcome.body.message)]
        else if outcome.close.Failed? then [InvoiceSavedToFile, FailedToSave(outcome.close.message)]
        else [InvoiceSavedToFile];
      StepResult(NewCart(), notices, Some(text))
    else
      StepResult(c, [CannotDownloadEmpty], None)
  }

  /** When the writes succeed but the flushing close fails, the code reports
      the invoice as saved and then reports the failure. */
  lemma DownloadAnnouncesSaveBeforeClose(c: Cart, sink: string -> SinkResult, fmt: real -> string)
    requires Size(c) > 0
    requires sink(InvoiceText(c, fmt)).body == Completed && sink(InvoiceText(c, fmt)).close.Failed?
    ensures Download(c, sink, fmt).notices
         == [InvoiceSavedToFile, FailedToSave(sink(InvoiceText(c, fmt)).close.message)]
  {
  }

  /** Download with the success dialog moved after the close, so that "saved"
      is only shown once the text has reached the file. */
  function DownloadConfirmed(c: Cart, sink: string -> SinkResult, fmt: real -> string): (r: StepResult)
    ensures Size(c) > 0 ==> |r.notices| == 1
    ensures Size(c) > 0 ==>
              (r.notices == [InvoiceSavedToFile] <==> sink(InvoiceText(c, fmt)) == SinkResult(Completed, Completed))
    ensures Size(c) > 0 && sink(InvoiceText(c, fmt)).body.Failed? ==>
              r.notices == [FailedToSave(sink(InvoiceText(c, fmt)).body.message)]
    ensures Size(c) > 0 && sink(InvoiceText(c, fmt)).body == Completed && sink(InvoiceText(c, fmt)).close.Failed? ==>
              r.notices == [FailedToSave(sink(InvoiceText(c, fmt)).close.message)]
    ensures Size(c) == 0 ==> r.notices == [CannotDownloadEmpty]
  {
    if Size(c) > 0 then
      var text := InvoiceText(c, fmt);
      var outcome := sink(text);
      var notices :=
        if outcome.body.Failed? then [FailedToSave(outcome.body.message)]
        else if outcome.close.Failed? then [FailedToSave(outcome.close.message)]
        else [InvoiceSavedToFile];
      StepResult(NewCart(), notices, Some(text))
    else
      StepResult(c, [CannotDownloadEmpty], None)
  }

  /** Moving the dialog changes only what the user is told: the cart after the
      step and the text handed to the sink are the same as in the code. */
  lemma DownloadConfirmedSameEffect(c: Cart, sink: string -> SinkResult, fmt: real -> string)
    ensures DownloadConfirmed(c, sink, fmt).cart == Download(c, sink, fmt).cart
    ensures DownloadConfirmed(c, sink, fmt).written == Download(c, sink, fmt).written
  {
  }

  /** One button press. */
  function Step(c: Cart, cmd: Command, sink: string -> SinkResult, fmt: real -> string): StepResult
  {
    match cmd
    case AddItemCommand(name, price, quantity) =>
      StepResult(AddItem(c, Product(name, price, quantity)), [ItemAdded], None)
    case RemoveItemCommand(k) => RemoveOrdinal(c, k)
    case ViewCartCommand => StepResult(c, if Size(c) > 0 then [CartShown] else [CartIsEmpty], None)
    case ApplyDiscountCommand(amount) => StepResult(SetDiscount(c, amount), [DiscountApplied], None)
    case GenerateInvoiceCommand => Generate(c)
    case DownloadInvoiceCommand => Download(c, sink, fmt)
  }

  /** A session: the commands applied in order from a starting cart. */
  function Run(c: Cart, cmds: seq<Command>, sink: string -> SinkResult, fmt: real -> string): Cart
    decreases |cmds|
  {
    if |cmds| == 0 then c else Run(Step(c, cmds[0], sink, fmt).cart, cmds[1..], sink, fmt)
  }

  /** How each command changes the number of items: add grows it by one, a
      valid remove shrinks it by one, generate and download empty a non-empty
      cart, everything else leaves it. */
  lemma StepSize(c: Cart, cmd: Command, sink: string -> SinkResult, fmt: real -> string)
    ensures var n := Size(Step(c, cmd, sink, fmt).cart);
      match cmd
      case AddItemCommand(_, _, _) => n == Size(c) + 1
      case RemoveItemCommand(k) => n == if 1 <= k <= Size(c) then Size(c) - 1 else Size(c)
      case GenerateInvoiceCommand => n == 0
      case DownloadInvoiceCommand => n == 0
      case _ => n == Size(c)
  {
  }

  /** Whether the file write succeeds or fails, download leaves the same cart. */
  lemma DownloadResetsRegardlessOfSink(c: Cart, s1: string -> SinkResult, s2: string -> SinkResult,
                                       fmt: real -> string)
    ensures Download(c, s1, fmt).cart == Download(c, s2, fmt).cart
    ensures Size(c) > 0 ==> Download(c, s1, fmt).cart == NewCart()
  {
  }

  /** Applying two discounts in a row keeps only the second. */
  lemma DiscountCommandsOverwrite(c: Cart, a: real, b: real, sink: string -> SinkResult, fmt: real -> string)
    ensures Run(c, [ApplyDiscountCommand(a), ApplyDiscountCommand(b)], sink, fmt) == SetDiscount(c, b)
  {
    var cmds := [ApplyDiscountCommand(a), ApplyDiscountCommand(b)];
    var c1 := SetDiscount(c, a);
    assert cmds[1..] == [ApplyDiscountCommand(b)];
    assert Run(c, cmds, sink, fmt) == Run(c1, [ApplyDiscountCommand(b)], sink, fmt);
    assert [ApplyDiscountCommand(b)][1..] == [];
    assert Run(c1, [ApplyDiscountCommand(b)], sink, fmt) == Run(SetDiscount(c1, b), [], sink, fmt);
  }

  function AddCommands(ps: seq<Product>): seq<Command>
  {
    seq(|ps|, i requires 0 <= i < |ps| => AddItemCommand(ps[i].name, ps[i].price, ps[i].quantity))
  }

  lemma RunAddFirst(c: Cart, ps: seq<Product>, sink: string -> SinkResult, fmt: real -> string)
    requires |ps| > 0
    ensures Run(c, AddCommands(ps), sink, fmt) == Run(AddItem(c, ps[0]), AddCommands(ps[1..]), sink, fmt)
  {
    assert ps[0] == Product(ps[0].name, ps[0].price, ps[0].quantity);
    assert AddCommands(ps)[1..] == AddCommands(ps[1..]);
  }

  /** A run of adds appends the products in order, keeps the discount, and
      raises the total by exactly their summed line totals. */
  lemma {:induction false} AddsAppend(c: Cart, ps: seq<Product>, sink: string -> SinkResult, fmt: real -> string)
    ensures Run(c, AddCommands(ps), sink, fmt).items == c.items + ps
    ensures Run(c, AddCommands(ps), sink, fmt).discount == c.discount
    ensures Total(Run(c, AddCommands(ps), sink, fmt)) == Total(c) + Sum(ps)
    decreases |ps|
  {
    if |ps| == 0 {
      assert AddCommands(ps) == [];
      assert c.items + ps == c.items;
    } else {
      var c' := AddItem(c, ps[0]);
      var r := Run(c, AddCommands(ps), sink, fmt);
      RunAddFirst(c, ps, sink, fmt);
      AddsAppend(c', ps[1..], sink, fmt);
      assert r.items == c'.items + ps[1..];
      assert c'.items + ps[1..] == c.items + ps;
      assert Total(r) == Total(c') + Sum(ps[1..]);
      TotalAfterAdd(c, ps[0]);
      assert Sum(ps) == LineTotal(ps[0]) + Sum(ps[1..]);
    }
  }

  /** The number printed at the head of item line `i + 1` of the invoice,
      typed back into "Remove Item", removes exactly item `i`. */
  lemma PrintedOrdinalRemovesThatItem(c: Cart, i: int, fmt: real -> string)
    requires 0 <= i < Size(c)
    ensures var k := DecimalValue(IntToString(i + 1));
      && k.Some?
      && RemoveOrdinal(c, k.value).notices == [ItemRemoved]
      && RemoveOrdinal(c, k.value).cart.items == c.items[..i] + c.items[i + 1..]
  {
    IntToStringRoundTrip(i + 1);
  }
}
