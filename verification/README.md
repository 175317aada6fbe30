# Supermarket billing cart — Dafny model

This project models the billing engine of a small supermarket point-of-sale
program written in Java. A **product** (line item) is an immutable name, unit price
and quantity. A **shopping cart** holds an ordered sequence of products and one flat
discount. The cart supports these operations:

- append an item;
- remove an item at a zero-based index;
- read the size;
- read the item at an index;
- overwrite the discount;
- compute the total: the sum of price × quantity, minus the discount, with no clamp at zero;
- lay the cart out as invoice text.

The window class wraps a few rules around the cart, and they are modelled as pure steps:

- "Remove Item" takes a 1-based ordinal and removes an item only when the ordinal is in range.
- "Generate Invoice" and "Download Invoice" replace a non-empty cart with a fresh one.
- Download writes the invoice text to a sink first.

Modules, one per component:

- `Results` (`results.dfy`): `Option`, and a `Result` whose error is the index-out-of-bounds exception that `ArrayList` throws.
- `Products` (`product.dfy`): the `Product` value and its line total.
- `Carts` (`cart.dfy`): the `Cart` value, its operations, and the reference sum `Sum`.
- `Text` (`text.dfy`): Java's decimal rendering of an `int`, its inverse, and newline-terminated lines.
- `Invoices` (`invoice.dfy`): the invoice layout and the writer's sequence of writes.
- `Shell` (`shell.dfy`): the window's commands as a step function over the cart.

Prices and the discount are exact `real`s, and quantities are unbounded `int`s.
Java's `double`-to-text conversion is the function parameter `fmt`.
The file sink is the function parameter `sink`.

Two consequences of the code are easy to miss:

- **Download always resets the cart.** `saveInvoiceToFile` catches the `IOException` itself (SupermarketBillingSystemGUI.java:86-88). So `downloadInvoice` replaces the cart whatever the write came to (SupermarketBillingSystemGUI.java:243-244). `Shell.Download` and `Shell.DownloadResetsRegardlessOfSink` state this.
- **The total is never clamped.** Bread 1.00 × 3 with a 1.50 discount totals 1.50. With a 5.00 discount it totals −2.00. `Carts.ScenarioBreadOnly` proves both.

The file write is modelled in two phases, following the try-with-resources block:

- the body: opening the file and the writes;
- the implicit close, which flushes the buffered text.

The user sees the list of notices in order. See "## Findings" for what happens when only the close fails.

## Model

| member | source | states |
|---|---|---|
| Carts.NewCartIsEmpty | SupermarketBillingSystemGUI.java:40-43 | a new cart has no items and discount 0, so its total is 0 |
| Carts.AddItem | SupermarketBillingSystemGUI.java:45-47 | the size grows by exactly one, the new product sits at the old size, every earlier index keeps its item, the discount is unchanged |
| Carts.RemoveItem | SupermarketBillingSystemGUI.java:49-51 | succeeds exactly for 0 ≤ index < size, otherwise raises index-out-of-bounds; on success the size drops by one, earlier items keep their index, later items shift down by one, the removed item is the only one missing (multiset), the discount is unchanged |
| Carts.Size | SupermarketBillingSystemGUI.java:66-68 | the number of items, zero exactly for an empty cart; AddItem, RemoveItem, RemoveOrdinal, Generate and Download state their effect through it |
| Carts.GetItem | SupermarketBillingSystemGUI.java:70-72 | succeeds exactly for an index in range and yields the item stored there; out of range raises index-out-of-bounds |
| Carts.SetDiscount | SupermarketBillingSystemGUI.java:62-64 | the discount becomes the given amount and the items are untouched |
| Carts.CalculateTotal | SupermarketBillingSystemGUI.java:53-60 | the accumulating loop returns the reference sum of price × quantity minus the discount |
| Carts.TotalAfterAdd | SupermarketBillingSystemGUI.java:45-60 | adding an item raises the total by exactly its price × quantity |
| Carts.TotalAfterRemove | SupermarketBillingSystemGUI.java:49-60 | removing a valid index lowers the total by exactly that item's price × quantity |
| Carts.RemoveUndoesAdd | SupermarketBillingSystemGUI.java:45-51 | removing at the old size right after an add gives back the original cart |
| Carts.GetAfterAdd | SupermarketBillingSystemGUI.java:45-47 | after an add, the old size indexes the new item and every earlier index reads as before |
| Carts.DiscountLastWins | SupermarketBillingSystemGUI.java:62-64 | two discounts in a row leave only the second; the total uses only that one |
| Carts.TotalNotClamped | SupermarketBillingSystemGUI.java:53-60 | the total is negative exactly when the discount exceeds the item sum |
| Carts.ScenarioAddThenDiscount | SupermarketBillingSystemGUI.java:45-64 | Milk 2.50×2 and Bread 1.00×3 total 8.00; a 1.50 discount gives 6.50 |
| Carts.ScenarioRemoveFirst | SupermarketBillingSystemGUI.java:49-51 | removing index 0 from that cart leaves only Bread, with the discount kept |
| Carts.ScenarioBreadOnly | SupermarketBillingSystemGUI.java:53-60 | Bread 1.00×3 with discount 1.50 totals 1.50; with discount 5.00 it totals −2.00 |
| Text.NatToDigits | SupermarketBillingSystemGUI.java:79 | the rendering of a count is a non-empty string of decimal digits with no leading zero |
| Text.IntToString | SupermarketBillingSystemGUI.java:79 | a rendered ordinal or quantity is non-empty and contains no line break |
| Text.IntToStringRoundTrip | SupermarketBillingSystemGUI.java:79 | reading back a rendered integer gives that integer |
| Text.IntToStringInjective | SupermarketBillingSystemGUI.java:79 | two integers render the same exactly when they are equal, so item ordinals are distinct |
| Text.SplitJoinLines | SupermarketBillingSystemGUI.java:76-84 | splitting newline-terminated single-line writes at newlines gives the lines back, plus one empty final piece |
| Invoices.InvoiceLayout | SupermarketBillingSystemGUI.java:76-84 | the invoice has size + 6 newline-separated pieces: the header; for each item, in insertion order, its 1-based ordinal, name, price and quantity; a separator; the total (sum minus discount); the discount; a separator; and an empty piece |
| Invoices.WriteInvoice | SupermarketBillingSystemGUI.java:74-84 | the writer's sequence of writes (header, item lines in index order, summary) produces exactly the invoice text |
| Shell.RemoveOrdinal | SupermarketBillingSystemGUI.java:201-209 | the cart loses an item exactly when 1 ≤ k ≤ size, and it is the item at index k − 1; otherwise the cart is unchanged and "invalid item number" is shown |
| Shell.PrintedOrdinalRemovesThatItem | SupermarketBillingSystemGUI.java:201-209 | the ordinal printed on an item's line, typed back into "Remove Item", removes exactly that item |
| Shell.Generate | SupermarketBillingSystemGUI.java:232-239 | a non-empty cart becomes a fresh empty cart; an empty cart is kept and the action is refused |
| Shell.Download | SupermarketBillingSystemGUI.java:241-248 | for a non-empty cart: the invoice text of the cart before the reset goes to the sink, and the cart becomes fresh. "Saved" is shown exactly when the body of the write completed. A failed body shows only its failure. A completed body shows "saved" alone when the close completes, and "saved" followed by the close failure when it fails. The cart afterwards is empty in every case. An empty cart is kept, refused, and nothing is written |
| Shell.DownloadAnnouncesSaveBeforeClose | SupermarketBillingSystemGUI.java:74-89 | when the writes complete but the close fails, the user is told "saved" and then told the save failed |
| Shell.DownloadConfirmed | SupermarketBillingSystemGUI.java:74-89 | with the success dialog moved after the close, exactly one notice is shown, and it is "saved" exactly when both the body and the close completed |
| Shell.DownloadConfirmedSameEffect | SupermarketBillingSystemGUI.java:241-248 | moving the dialog leaves the resulting cart and the text handed to the sink unchanged |
| Shell.DownloadResetsRegardlessOfSink | SupermarketBillingSystemGUI.java:241-248 | the cart after a download does not depend on whether the write succeeded |
| Shell.StepSize | SupermarketBillingSystemGUI.java:187-248 | per command: add grows the size by one, an in-range remove shrinks it by one and an out-of-range one keeps it, generate and download leave zero items, view and discount keep it |
| Shell.DiscountCommandsOverwrite | SupermarketBillingSystemGUI.java:226-230 | two "Apply Discount" presses leave the cart with only the second discount |
| Shell.AddsAppend | SupermarketBillingSystemGUI.java:187-199 | a run of "Add Item" presses appends the products in order, keeps the discount, and raises the total by their summed line totals |

## Left out

- Swing layout, listeners, the `JTextArea` and `JOptionPane` dialogs: these are display only. Each action's dialog is the `Notice` of its step.
- The text `viewCart` writes, which "Generate Invoice" also shows: this is display only. The step records only that the cart was shown.
- `Double.parseDouble` and `Integer.parseInt` on the text fields and the remove dialog: commands carry already-parsed numbers. So the uncaught `NumberFormatException` on malformed input, or on a cancelled remove dialog, is not modelled.
- `FileWriter` and the file `invoice.txt`: the write is the parameter `sink`, which returns, for the body and for the close, completion or the exception message.
- `double` arithmetic and `Double.toString`: prices, totals and the discount are exact reals, and their text is the parameter `fmt`.
- Java's 32-bit `int` range: integers are unbounded. This changes nothing, for three reasons:
  - quantities enter through `Integer.parseInt`, so they are already in range;
  - `price × quantity` is computed in `double` (SupermarketBillingSystemGUI.java:56), not in `int`;
  - the only `int` arithmetic is `i + 1 ≤ size` (SupermarketBillingSystemGUI.java:79) and `index − 1 ≥ 0` under the range guard (SupermarketBillingSystemGUI.java:203-204).
- `main` and the `SwingUtilities` start-up: these only start the UI.
- Invoices.InvoiceLayout: the line count is stated only when item names and rendered numbers contain no line break. A name with an embedded newline would add lines. Names come from a single-line text field.
- Shell.Step: uses the code's `Shell.Download`, not `Shell.DownloadConfirmed`, because it models the window as written. The two give the same cart and the same written text (`Shell.DownloadConfirmedSameEffect`), so every cart-level property holds for both.

## Findings

| source | as written | input that shows it | evidently intended | confidence | as-written member | corrected member |
|---|---|---|---|---|---|---|
| SupermarketBillingSystemGUI.java:75-88 | "Invoice saved to file." is shown inside the try block, before the implicit `close()` that flushes the buffered `FileWriter` | a non-empty cart where every write completes but `close()` throws (for example, a full disk when the buffer is flushed) | "saved" only after the text has reached the file, and exactly one notice | medium, not executed | Shell.DownloadAnnouncesSaveBeforeClose | Shell.DownloadConfirmed |
