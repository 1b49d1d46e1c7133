# Spare-parts order app: cart, order summary and PDF export

This project models the order logic of the spare-parts web app, which is a
single Streamlit script (`streamlit_app.py`). A customer picks a machine,
enters quantities for its parts and adds them to a cart. The cart maps a
(machine, part code) key to a line holding a description and a quantity. In
the order summary the customer can edit or remove lines and see the totals.
The customer can also export the cart as a PDF order form under a file name
that ends in `.pdf`.

Modules:

- `Wrappers` (`wrappers.dfy`): `Option`.
- `Keys` (`keys.dfy`): the cart key and Python's ordering of `(machine, code)`
  tuples. Strings are ordered lexicographically by code point and tuples
  component by component. It also defines `SortedKeys`, the ascending
  enumeration that `sorted(cart.items())` produces, and proves it sorted,
  duplicate-free and unique.
- `Orders` (`orders.dfy`): the cart as a `map<Key, Line>`.
  - The bulk add is a left fold, `AddAll`, of one step `AddPart`. The
    quantity editor is `Edited`. The summary pass is specified by the
    index-based `ReviewFrom`.
  - Class `Orders.Cart` holds the session's cart in field `lines`. Its
    methods `BulkAdd`, `Edit`, `Summarize`/`Review` and `Clear` update it and
    are proved against those functions.
  - `SumQty` is the total quantity of a cart.
- `Pdf` (`pdf.dfy`): `generate_pdf_bytes`, in two layers.
  - The layout is a sequence of elements: the title, a machine's header
    block, a row, and a page break. It is computed by `Step` / `LayoutFrom` /
    `Layout` from a pen that holds the vertical cursor and the current
    machine.
  - `Draw` renders the elements as the canvas commands `generate_pdf_bytes` issues:
    font changes, strings at a position, and `showPage`.
  - The method `GeneratePdf` is the loop of `generate_pdf_bytes`. It is proved to issue
    exactly `Draw(Layout(cart, height))`.
  - The lemmas cover what the layout prints, in what order, where, and with
    which page breaks.
- `Download` (`download.dfy`): the `.pdf` file-name rule and the
  "Generate PDF" action.
- `Scenario` (`scenario.dfy`): a two-machine example cart, with its listing
  order, its printed content and its totals.

## Model

| member | source | states |
|---|---|---|
| Keys.StrLt | streamlit_app.py:101 | definition: Python's `<` on `str`, comparing code points from the left, with a proper prefix ordered first |
| Keys.KeyLt | streamlit_app.py:151 | definition: Python's `<` on `(machine, code)` tuples, ordering by machine first and then by code |
| Keys.SortedKeys | streamlit_app.py:101 | the enumeration of a key set has one entry per key and contains exactly the keys of the set |
| Keys.SortedKeysSorted | streamlit_app.py:101 | the enumeration is in strictly ascending (machine, code) order |
| Keys.SortedKeysDistinct | streamlit_app.py:101 | the enumeration lists no key twice |
| Keys.SortedUnique | streamlit_app.py:151 | two strictly ascending sequences with the same members are equal, so the sorted order is unique |
| Keys.SortedKeysCanonical | streamlit_app.py:151 | any strictly ascending listing of exactly the set's keys is the enumeration `sorted` produces |
| Orders.SortedItems | streamlit_app.py:101 | `sorted(cart.items())` has one pair per line, and each pair holds a key of the cart with that key's line |
| Orders.SortedItemsAscending | streamlit_app.py:151 | the items come in strictly ascending (machine, code) order |
| Orders.SumQty | streamlit_app.py:121-123 | definition: the sum of every line's quantity, taken in no particular order; an empty cart sums to 0 |
| Orders.SumQtyCoversLines | streamlit_app.py:123 | with every quantity positive, the total quantity is at least the number of lines |
| Orders.SumKeysAll | streamlit_app.py:121 | summing the quantities over a duplicate-free listing of all the keys gives the cart's total quantity |
| Orders.AddPart | streamlit_app.py:82-87 | a non-positive quantity leaves the cart unchanged; a positive quantity adds its key, increments an existing line and keeps its description, or inserts a new line with the part's description; other lines are untouched |
| Orders.AddAll | streamlit_app.py:81-90 | the cart after the selected parts are added in list order; a bulk add never removes a line |
| Orders.CountAdded | streamlit_app.py:90 | the `added` counter, one per part with a positive quantity, is at most the number of selected parts |
| Orders.AddAllQuantity | streamlit_app.py:81-87 | after a bulk add, each key's quantity is its old quantity plus all positive quantities selected for it; a key has a line exactly when it had one or something positive was selected for it |
| Orders.AddAllKeepsDescription | streamlit_app.py:84-85 | an existing line keeps its description through a bulk add |
| Orders.AddAllPositive | streamlit_app.py:82 | a bulk add keeps every quantity in the cart positive |
| Orders.AddAllTotal | streamlit_app.py:81-87 | a bulk add raises the total quantity by exactly the sum of the positive quantities selected |
| Orders.CountAddedPositive | streamlit_app.py:90-91 | the `added` counter is positive exactly when some positive quantity was selected |
| Orders.NothingAddedUnchanged | streamlit_app.py:91-94 | when `added` is 0, the cart is unchanged |
| Orders.AddAllUnchangedIff | streamlit_app.py:79-94 | the cart is left exactly as it was if and only if `added` is 0 ("No quantity selected") |
| Orders.Cart.BulkAdd | streamlit_app.py:79-94 | the loop leaves the cart equal to the fold of the selected parts and returns the count of parts with a positive quantity; quantities stay positive |
| Orders.Edited | streamlit_app.py:113-119 | an unchanged value does nothing; a changed 0 removes the line; a positive value replaces the quantity (it does not add to it) and keeps the description; no other line changes |
| Orders.EditedTotals | streamlit_app.py:113-123 | after an edit, the line count drops by one on 0 and is unchanged otherwise; the total quantity changes by the new value minus the old one; quantities stay positive |
| Orders.AddMergesEditOverwrites | streamlit_app.py:113-119 | for a positive amount on an existing line, the editor sets the quantity to that amount, while the bulk add (line 85) adds it |
| Orders.Cart.Edit | streamlit_app.py:113-119 | one editor changes the cart to `Edited` of it |
| Orders.Reviewed | streamlit_app.py:113-119 | reviewing keeps the same set of keys |
| Orders.ReviewFrom | streamlit_app.py:100-121 | the summary pass from position `i` of the key listing: it never adds a line, and a total it reaches is at least the one accumulated so far |
| Orders.ReviewFromStep | streamlit_app.py:113-117 | one editor holding 0 ends the pass with that line removed; any other value continues with the edited cart, which still holds every later key |
| Orders.ReviewedStable | streamlit_app.py:113-119 | applying one non-removing editor first does not change the reviewed cart |
| Orders.ReviewFromKeeps | streamlit_app.py:113-121 | the pass keeps quantities positive and leaves each line either as it was or at its reviewed value |
| Orders.ReviewFromShowsIff | streamlit_app.py:113-121 | the pass reaches the totals exactly when no later editor holds 0 |
| Orders.ReviewFromShown | streamlit_app.py:113-121 | when the totals are reached, the keys are unchanged and every listed line has its reviewed value |
| Orders.ReviewFromTotal | streamlit_app.py:121 | when the totals are reached, the accumulated quantity is the sum of the reviewed quantities |
| Orders.StoppedHere | streamlit_app.py:114-117 | an editor holding 0 at the current position stops the pass there, with just that line removed |
| Orders.StoppedLater | streamlit_app.py:113-119 | a stop after one non-removing editor is a stop of the pass from that editor on |
| Orders.ReviewFromRemoved | streamlit_app.py:113-117 | when the pass stops, it stopped at the first listed line whose editor holds 0: that line is gone, the lines listed before it hold their reviewed values, and every other line is as it was |
| Orders.ReviewFacts | streamlit_app.py:100-123 | the facts above for a whole pass that starts from a total of 0 |
| Orders.SummaryShown | streamlit_app.py:100-123 | a whole pass that reaches the totals means no editor holds 0; the cart is then the reviewed cart and the total is its total quantity |
| Orders.SummaryRestarted | streamlit_app.py:113-117 | a whole pass that stops removed the first listed line whose editor holds 0, and left the others as `StoppedAt` describes |
| Orders.SameOnListing | streamlit_app.py:101 | two carts with the same keys that agree on every listed key are equal |
| Orders.NoRemovalAsked | streamlit_app.py:113-114 | if no listed editor holds 0, no editor of the cart asks for a removal |
| Orders.Cart.Review | streamlit_app.py:100-121 | the loop over the listed keys ends in the state and result of `ReviewFrom` |
| Orders.Cart.Summarize | streamlit_app.py:98-129 | an empty cart shows only the notice; otherwise the totals are shown exactly when no editor holds 0, and they are (number of lines, total quantity) of the reviewed cart; a removal ends the pass at the first line in key order whose editor holds 0: that line is removed, earlier lines hold their edited values, and later lines are unchanged |
| Orders.Cart.constructor | streamlit_app.py:41-43 | a new session starts with an empty cart |
| Orders.Cart.Clear | streamlit_app.py:124-125 | "Empty cart" leaves no lines, so both totals are 0 |
| Pdf.Truncate | streamlit_app.py:166 | `description[:70]` is a prefix of the description of length min(length, 70) |
| Pdf.NatToDecimal | streamlit_app.py:167 | `str(quantity)` is a nonempty string of decimal digits with no leading zero |
| Pdf.DecimalRoundTrip | streamlit_app.py:167 | reading the printed quantity back gives the quantity |
| Pdf.Step | streamlit_app.py:152-171 | one line lays out exactly one row, with its code, cut description and decimal quantity. A header block for the line's machine comes first exactly when the machine changes, with the heading 30 below the cursor and the column titles 20 further down; the row is then 65 below the cursor, otherwise at it. A page break follows the row exactly when 15 below the row is under 50, and the cursor then restarts at height - 50; otherwise it moves to 15 below the row. The current machine becomes the line's |
| Pdf.LayoutFrom | streamlit_app.py:151-171 | definition: the steps of the lines from position `i` on, each from the pen the previous one left |
| Pdf.Layout | streamlit_app.py:142-171 | definition: the title at height - 50, then the cart's sorted items laid out from cursor height - 90 with no current machine |
| Pdf.PenAfter | streamlit_app.py:151-171 | definition: the cursor and current machine once the first `n` lines are laid out |
| Pdf.LayoutUpTo | streamlit_app.py:151-171 | definition: the elements of the first `n` lines |
| Pdf.LayoutSplit | streamlit_app.py:151-171 | the layout after any line splits into the first `n` lines, then the rest laid out from `PenAfter` of `n`, so `PenAfter` is the layout's state between lines |
| Pdf.CursorAfterEveryLine | streamlit_app.py:168-171 | from a cursor at or above 50 on a page at least 100 high, the cursor after every line is again at or above 50 |
| Pdf.Render | streamlit_app.py:142-170 | definition: the title in Helvetica 16 at x 50, then Helvetica 12; a header in Helvetica-Bold 14 (`Machine: ` and the machine at x 50), then Helvetica-Bold 10 column titles at x 60, 160 and 460; a row in Helvetica 10 at the same columns; a page break as `showPage` |
| Pdf.StepDrawn | streamlit_app.py:152-171 | the header, row and `showPage` commands of one line are the drawing of that line's elements |
| Pdf.LoopStep | streamlit_app.py:151-171 | drawing line `i` after the commands issued so far leaves exactly the rest of the layout to draw |
| Pdf.PlaceLine | streamlit_app.py:152-171 | the loop body issues the drawing of one step's elements and leaves the cursor and current machine that the step computes |
| Pdf.GeneratePdf | streamlit_app.py:137-176 | the command log is exactly the drawing of the document layout: the title, then the cart's lines in key order |
| Pdf.OutlineAppend | streamlit_app.py:151-167 | the printed content of two runs of elements is their concatenation |
| Pdf.StepOutline | streamlit_app.py:152-167 | one line prints its machine's heading when the machine changes, then its row with the truncated description and the decimal quantity |
| Pdf.OutlineFrom | streamlit_app.py:151-167 | from a pen whose current machine is the previous line's machine, the printed content is the reference content starting at that line: a heading for each line that starts a new machine, then its row |
| Pdf.LayoutContent | streamlit_app.py:137-167 | the document prints the reference content of the cart's sorted items, whatever the page height and wherever the pages break |
| Pdf.HeadingOncePerMachine | streamlit_app.py:151-162 | a line gets a heading exactly when no earlier line has its machine, so each machine's heading is printed once, right before its first row |
| Pdf.StepAdjacency | streamlit_app.py:152-171 | within one line's elements, a header block is directly followed by a row and a page break directly follows a row |
| Pdf.LayoutAdjacency | streamlit_app.py:151-171 | in the whole run of lines, a header block is always followed directly by a row, and a page break always comes directly after a row |
| Pdf.DocumentAdjacency | streamlit_app.py:142-171 | the same holds for the document with its title |
| Pdf.StepCursor | streamlit_app.py:164-171 | from a cursor at or above 50 on a page of height at least 100, the row and its follow-up keep the cursor at or above 50 |
| Pdf.LayoutCursor | streamlit_app.py:151-171 | from such a cursor, every row is drawn at or above 50, except the first row under a header, which can be at most 65 below it |
| Pdf.LayoutCursorAll | streamlit_app.py:137-171 | on a page at least 140 high, the whole document has that cursor property |
| Download.Lower | streamlit_app.py:182 | lower-casing maps A-Z to a-z and leaves other characters as they are |
| Download.LowerString | streamlit_app.py:182 | the ASCII lower-casing of a name keeps its length and lower-cases each character |
| Download.LowerAppend | streamlit_app.py:182 | lower-casing distributes over concatenation |
| Download.HasPdfSuffix | streamlit_app.py:182 | definition: the lower-cased name ends in `.pdf` |
| Download.PdfFilename | streamlit_app.py:182-183 | the result ends in `.pdf` in any letter case; a name that already does is unchanged; any other name gets `.pdf` appended |
| Download.PdfFilenameIdempotent | streamlit_app.py:182-183 | normalising twice is the same as normalising once |
| Download.DefaultFilenameKept | streamlit_app.py:134 | the default `spare_parts_order.pdf` is used as it is |
| Download.UpperCaseExtensionKept | streamlit_app.py:182 | `order.PDF` is kept, because the check ignores letter case |
| Download.MissingExtensionAppended | streamlit_app.py:183 | `order` becomes `order.pdf` |
| Download.BarePdfEndingAppended | streamlit_app.py:182-183 | `orderpdf` becomes `orderpdf.pdf`, because the dot is part of the extension |
| Download.EmptyNameAppended | streamlit_app.py:182-183 | the empty name becomes `.pdf` |
| Download.Export | streamlit_app.py:178-185 | nothing is offered exactly when the cart is empty; otherwise the offered file is named by the `.pdf` rule and holds the cart's document |
| Scenario.ExampleKeys | streamlit_app.py:151 | the Drone 20-20 key sorts before the MM 30-50 key |
| Scenario.ExampleListing | streamlit_app.py:101 | the example cart is listed Drone 20-20 first, regardless of map order |
| Scenario.ExampleEntries | streamlit_app.py:165-167 | the example rows print their codes, descriptions and quantities "2" and "5" |
| Scenario.ExampleDocument | streamlit_app.py:151-167 | the example document prints the Drone 20-20 heading and row, then the MM 30-50 heading and row |
| Scenario.ExampleTotals | streamlit_app.py:121-123 | the example cart shows 2 lines and a total quantity of 7 |

## Left out

- The Streamlit UI is not modelled: page configuration, styling, columns,
  headings, the success/info/warning messages and the download button
  widget. The bulk add returns its `added` counter, and the export returns
  what the button would offer.
- The machine picker and part list (lines 63-76) are not modelled. The list
  of `(machine, code, description, qty)` selections is an input to the bulk
  add. The catalog literal (lines 9-34) is not modelled either, beyond the
  two parts used in `Scenario`.
- The reset of a part's quantity input after adding (line 89) is widget
  state. It is not modelled, and the model assumes that the assignment
  succeeds. Streamlit documents that assigning to the session-state value of
  a widget created earlier in the same run (line 75 creates it) raises
  `StreamlitAPIException`. If it does here, the loop stops after the first
  positive part is merged: `added` is never incremented, and a repeated
  click merges that part again. This has not been executed.
- `st.rerun()` (lines 117 and 127) is modelled as ending the current pass:
  after a removal the summary shows no totals. The next script run is not
  modelled.
- The order summary's editors are an input map from keys to the values the
  user entered. A key that is absent shows the line's current quantity.
- `reportlab` is replaced by a log of abstract commands. The canvas, the
  PDF bytes, `save()` and the `BytesIO` buffer (lines 138-139 and 173-176)
  are not modelled. Neither is the library's own state, such as the font
  being reset on a new page.
- The page height is an integer parameter. A4's height (841.89 points, a
  float) and the unused page width are not modelled.
- Download.Lower: lower-cases ASCII letters only. Python's `str.lower` also
  folds other letters. No non-ASCII character lower-cases to `.`, `p`, `d`
  or `f`, so the `.pdf` test gives the same answer.
- Download.LowerString: keeps the length. Python's `lower` can lengthen a
  string: `"\u0130".lower()` is `i` followed by U+0307. Neither of those two
  characters is `.`, `p`, `d` or `f`, so the `.pdf` test gives the same
  answer.
- Pdf.LayoutCursorAll: the cursor bound needs a page at least 140 points
  high. The app has no such bound, and on a lower page the rows already
  start below the margin.
- Pdf.LayoutCursor: a header block has no look-ahead in `generate_pdf_bytes`. The
  first row under a late header can be drawn up to 65 points below the
  bottom margin, so the bound proved for that row is weaker than for
  every other row.
