# Restaurant page cart engine, in Dafny

This project models the browser logic in `script.js` of a small restaurant
website:

- the shopping cart, an ordered array of line items `{name, price, img, qty}`;
- the four handlers that change it in place: add-to-cart, "+", "-" and clear;
- the checkout handler, which reads the cart without changing it and saves it to storage;
- the two values recomputed after every change: the badge (sum of quantities)
  and the total (sum of `price * qty`);
- how a menu item's price is read from its `data-price` attribute or its text;
- which menu items a category filter button shows.

Modules:

- `LineItems` (`line_items.dfy`) is the cart array as a value. It holds the
  invariant (names unique, every quantity at least one), the two reductions,
  the effect of each operation on the sequence, and the lemmas about them.
- `CartEngine` (`cart.dfy`) holds the `Cart` class, whose `items` field the
  methods `Add`, `Increase`, `Decrease` and `Clear` update in place. Its
  `Checkout` method leaves `items` as it is and writes to storage. It also holds the `LocalStorage` class, a key-to-snapshot map, the
  `Find` loop behind `cart.find`, and `Render`, the data that `updateCart`
  puts on screen.
- `PriceParsing` (`price.dfy`) models the price expression, including the
  part of `parseFloat` it relies on, on exact reals.
- `MenuFilter` (`menu_filter.dfy`) models the filter test and the loop that
  applies it to every menu item.
- `Scenarios` (`scenarios.dfy`) works through a few shopping sessions.
- `Wrappers` (`wrappers.dfy`) defines `Option` and `Result`.

How the code behaves, and so how the model behaves:

- "+" and "-" act on a line by its position in the cart. The handlers close over the rendered `item` and `index`, and every change re-renders. They do not look the line up by name.
- The code has no remove-by-name operation. A line leaves the cart only through "-" at quantity one, or through clear.
- The saved snapshot keeps the code's field names `name`, `price`, `img` and `qty`.
- A malformed `data-price` gives NaN. Only the text branch falls back to 0.
- A menu item without a `.price` element makes the handler throw (see Findings).

## Model

| member | source | states |
|---|---|---|
| `LineItems.Badge` | script.js:65 | the badge as a left fold of `qty` over the lines (no contract of its own; its properties are `SumsOfConcat`, `SumsOfSingle`, `SumsOfUpdate`, `SumsOfRemove` and `BadgeZeroIffEmpty`) |
| `LineItems.Total` | script.js:110 | the total as a left fold of `price * qty` over the lines; when no price is negative, the total is at least 0 |
| `LineItems.Added` | script.js:181-182 | the cart after add-to-cart: at most one line longer; earlier lines keep their names and prices; a new line is `{name, price, img, qty: 1}` at the end (fully characterised by `AddExisting` and `AddNew`) |
| `LineItems.Increased` | script.js:96 | the cart after "+" on line `i`: same length, same names in the same order, no quantity lower |
| `LineItems.Decreased` | script.js:102-103 | the cart after "-" on line `i`: one line shorter exactly when line `i` had quantity 1, and lines before `i` untouched |
| `LineItems.IndexOf` | script.js:181 | the index of the first line called `name`; -1 exactly when no line has that name |
| `CartEngine.Find` | script.js:181 | the loop behind `cart.find`: -1 exactly when the name is absent, otherwise the first line with that name |
| `CartEngine.Cart.constructor` | script.js:56 | the cart starts empty and well formed |
| `CartEngine.Cart.Add` | script.js:181-182 | keeps names unique and quantities positive; the new items are `Added(old items)`; the badge rises by one; the total rises by the price of the line touched |
| `LineItems.AddExisting` | script.js:181-182 | for a name already present, only that line's `qty` rises by one; length, order and other lines stay the same |
| `LineItems.AddNew` | script.js:182 | for a new name, `{name, price, img, qty: 1}` is appended at the end |
| `LineItems.AddKeepsWellFormed` | script.js:181-182 | add-to-cart keeps names unique and every quantity at least one |
| `LineItems.AddSums` | script.js:181-182 | add-to-cart raises the badge by exactly 1 and the total by the touched line's price |
| `LineItems.AddedTimesAbsent` | script.js:181-182 | `n` adds of a name the cart lacks append one line of that name with `qty = n` |
| `LineItems.AddedTimesFromEmpty` | script.js:181-182 | from an empty cart, `n` adds of one item give exactly one line with `qty = n` |
| `CartEngine.Cart.Increase` | script.js:94-98 | keeps the invariant; items become `Increased(old items, i)`; badge +1; total + that line's price |
| `LineItems.IncreaseOnlyTouchesLine` | script.js:96 | "+" changes only line `i`, and only its quantity, by +1 |
| `LineItems.IncreaseKeepsWellFormed` | script.js:96 | "+" keeps names unique and quantities positive |
| `LineItems.IncreaseSums` | script.js:96 | "+" raises the badge by 1 and the total by the line's price |
| `CartEngine.Cart.Decrease` | script.js:100-105 | keeps the invariant; items become `Decreased(old items, i)`; badge -1; total - that line's price |
| `LineItems.DecreaseOnlyTouchesLine` | script.js:102-103 | above quantity 1, only line `i`'s quantity falls by 1; at quantity 1 that line is removed and the others keep their relative order |
| `LineItems.DecreaseKeepsWellFormed` | script.js:102-103 | "-" keeps names unique and never leaves a line at quantity 0 |
| `LineItems.DecreaseSums` | script.js:102-103 | "-" lowers the badge by 1 and the total by the line's price |
| `LineItems.DecreaseUndoesIncrease` | script.js:94-105 | "-" after "+" on the same line restores the cart |
| `LineItems.DecreaseUndoesAdd` | script.js:181-182 | "-" on the line an add-to-cart touched restores the cart from before the add |
| `LineItems.DecreasedTimesStep` | script.js:102 | `n` presses of "-" below the quantity leave the line in place with `qty - n` |
| `LineItems.DecreasedTimesRemoves` | script.js:102-103 | pressing "-" `qty` times removes exactly that line |
| `LineItems.SumsOfConcat` | script.js:110 | the total (and the badge reduction of line 65) is additive over concatenation |
| `LineItems.AppendSums` | script.js:182 | appending a line adds its quantity to the badge and its `price * qty` to the total |
| `LineItems.SumsOfSingle` | script.js:65 | a one-line cart has badge `qty` and total `price * qty` |
| `LineItems.SumsOfUpdate` | script.js:110 | replacing one line changes badge and total by exactly that line's difference |
| `LineItems.SumsOfRemove` | script.js:103 | splicing out a line subtracts exactly its quantity and its `price * qty` |
| `LineItems.LineTotalStep` | script.js:84 | one unit more or fewer moves a line's `price * qty` by its price |
| `LineItems.BadgeZeroIffEmpty` | script.js:65 | with positive quantities, the badge is 0 exactly when the cart is empty, and never below the number of lines |
| `CartEngine.Cart.BadgeCount` | script.js:65 | the badge is the sum of quantities and is 0 exactly when the cart is empty |
| `CartEngine.Cart.CartTotal` | script.js:110 | the total of the current cart: 0 for the empty cart, and at least 0 when no price is negative |
| `CartEngine.Cart.Clear` | script.js:140-144 | the cart becomes empty; badge and total are 0 |
| `CartEngine.LocalStorage.SetItem` | script.js:150 | overwrites one key and leaves every other key as it was |
| `CartEngine.Cart.Checkout` | script.js:145-154 | the cart is unchanged; an empty cart gives only the "Your cart is empty." notice and no storage write; otherwise the current items are stored under `demoCart` and the page redirects to `checkout.html` |
| `CartEngine.Cart.Render` | script.js:67-113 | one row per line, in cart order, each with quantity and `price * qty`; the empty indicator exactly when the cart is empty; the total and the badge |
| `PriceParsing.KeepDigitsAndDots` | script.js:178 | the result has only digits and dots and is no longer than the text |
| `PriceParsing.KeepDigitsAndDotsCounts` | script.js:178 | every digit and dot is kept as often as it occurs, and no other character is kept |
| `PriceParsing.KeepDigitsAndDotsConcat` | script.js:178 | filtering works piece by piece, so the kept characters stay in their original order |
| `PriceParsing.KeepDigitsAndDotsClean` | script.js:178 | a text of only digits and dots comes through unchanged, so filtering is idempotent |
| `PriceParsing.ScanDecimal` | script.js:177-178 | `parseFloat` finds a number exactly when the text starts with a digit, or with a dot and a digit; the parts it reads are digit strings |
| `PriceParsing.DecimalValue` | script.js:177-178 | an unsigned decimal literal's value is never negative |
| `PriceParsing.CleanTextMagnitude` | script.js:178 | a text of only digits and dots parses to NaN exactly when it does not start with a digit or with a dot and a digit; otherwise to a finite value of at least 0 |
| `PriceParsing.ParseDecimal` | script.js:178 | `parseFloat` reads `digits.digits` as `whole + fraction / 10^len` |
| `PriceParsing.ParseFloat` | script.js:177-178 | `parseFloat` skips leading white space and one sign, and gives NaN exactly when no `Infinity` or decimal literal follows; a negative result needs a leading `-` |
| `PriceParsing.OrZero` | script.js:178 | the `or 0` fallback is never NaN: NaN becomes 0, and every other number is kept |
| `PriceParsing.HasDataPrice` | script.js:176 | whether `priceEl?.dataset?.price` is truthy: the attribute is present and non-empty (a plain definition, no contract) |
| `PriceParsing.PriceOf` | script.js:176-178 | the price of a present `.price` element; only the `data-price` branch can give NaN (precedence in `DataPriceWins`, the text branch in `TextPrice`) |
| `PriceParsing.DataPriceWins` | script.js:176-177 | a non-empty `data-price` decides the price, whatever the text is |
| `PriceParsing.TextPrice` | script.js:178 | without `data-price`, the price depends only on the digits and dots of the text: it is the value of the decimal literal they start with, or 0 when they do not start one; it is always finite and at least 0 |
| `PriceParsing.DataPriceFailureIsNaN` | script.js:176-177 | a non-empty `data-price` gives NaN, not 0, exactly when no number follows its white space and sign, whatever the text is |
| `PriceParsing.ExtractPriceAsWritten` | script.js:176-178 | the price of a present element; an error exactly when the `.price` element is missing |
| `PriceParsing.ExtractPrice` | script.js:176-178 | the corrected price expression: a missing `.price` element is priced 0, and NaN can only come from a present element's `data-price` |
| `PriceParsing.ExtractPriceNeverFails` | script.js:176-178 | the corrected price expression prices a missing element at 0, and every element without `data-price` at a finite value of at least 0 |
| `PriceParsing.MissingPriceElementThrows` | script.js:176-178 | a missing `.price` element throws as written, and is priced 0 when corrected |
| `Scenarios.PriceFromText` | script.js:176-178 | the text `$4.50` reads as 4.5 |
| `MenuFilter.Visible` | script.js:46 | the filter test; an item whose category equals the filter is always shown (both directions in the three lemmas below) |
| `MenuFilter.AllShowsEverything` | script.js:46 | the `all` filter shows every item |
| `MenuFilter.CategoryShowsOnlyItsItems` | script.js:46 | any other filter shows exactly the items of that category |
| `MenuFilter.MissingFilterShowsUncategorised` | script.js:46 | a button without `data-filter` shows exactly the items without `data-category` |
| `MenuFilter.ApplyFilter` | script.js:45-51 | after the loop, every item is hidden exactly when it is not visible under the filter |

## Left out

- DOM rendering and event wiring are not modelled: `innerHTML`, listeners, `stopPropagation`, aria attributes, and opening or closing the dropdown (script.js:67-137, 186). `Render` gives the data shown, not the markup.
- Toast notifications are not modelled, because they are timers plus DOM. This includes the per-line details toast (script.js:89-92). The empty-cart toast of checkout appears only as the outcome `EmptyCartNotice`.
- Scroll animations, smooth scroll, the sticky nav and the Lenis animation loop are not modelled, because they are cosmetic and timer-driven (script.js:2-29, 194-204).
- Floating point is not modelled. Prices and totals are exact reals, so `parseFloat` rounding, overflow of huge exponents to Infinity, `toFixed(2)` in `formatMoney`, and loss of precision above 2^53 in `qty` are all absent.
- `JSON.stringify`, the real `localStorage` and the redirect are not modelled. The stored value is the item sequence itself, and the redirect is the outcome `Redirect("checkout.html")`. Line items whose `img` is `undefined` are stored like any other, although JSON would drop that field.
- The add-to-cart handler as a whole is not modelled as one step. `Cart.Add` takes the name, price and image as inputs: `.trim()` of the heading, the image lookup and the price expression are separate.
- The model cannot represent a NaN or infinite price in the cart, because cart prices are finite reals. In the code, a malformed `data-price` gives NaN and `cart.push` at script.js:182 stores it. The total at script.js:110 then becomes NaN, `formatMoney` at script.js:64 shows it as `$0.00`, and `JSON.stringify` writes the price as `null`.
- `server.js` and `db.js` (the contact-form route and the database pool) are not part of this model, because they are I/O over libraries that are not shown.

## Findings

| source | as written | input that shows it | evidently intended | confidence | as-written member | corrected member |
|---|---|---|---|---|---|---|
| script.js:176-178 | `priceEl?.dataset?.price` allows for a missing `.price` element, but the text branch then reads `priceEl.textContent` | a menu item without a `.price` element: the click handler throws a TypeError, so nothing is added and no toast appears | the fallbacks to an empty text and to 0 on the same line mean a missing price should read as 0 (`PriceParsing.ExtractPriceNeverFails`) | medium, not executed | `PriceParsing.ExtractPriceAsWritten` (shown by `PriceParsing.MissingPriceElementThrows`) | `PriceParsing.ExtractPrice` |
