# Cart checkout of the product catalog, in Dafny

This project models the cart logic of a browser product catalog built with React. It has two parts.

The first part is the shopping-cart modal (`CartModal`). The modal:
- computes the cart total as Σ price × quantity;
- turns the − and + buttons of a line into `REMOVE_ITEM` or `UPDATE_QUANTITY` commands for the cart store;
- at checkout, builds a WhatsApp order message from the cart and the customer's name, phone and address;
- opens that message's deep link, sends `CLEAR_CART` and closes.

The second part is the "add to cart" button of a product card (`ProductCard`), which sends one `ADD_ITEM` command carrying a snapshot of the product.

Modules:
- `Optional`: the `Option` type.
- `Decimal`: how amounts are printed. Money is integer cents, and `toFixed(2)` becomes `FormatCents`, which prints `D.CC`. `ParseCents` reads such a text back.
- `Lines`: `join('\n')` as `Join`, with `Split` (the reader, like `split('\n')`) as its partner.
- `CartTypes`: the product, the cart line, the checkout form, the command set (`Cmd`) and the effects a view performs (`Effect`). It also holds the invariant that a command never carries a quantity below 1.
- `ProductCard`: the add-to-cart command.
- `CartModal`: the total, the quantity policy, the order text, the message, the URL and the checkout effects. It also holds the class `Modal`, which is one render of the modal. `Modal` reads the render's cart items, keeps the checkout form's state, and appends every effect it performs to `log` in order. Its invariant `Valid()` says that every command in that log keeps quantities at least 1.

The cart store's reducer is not part of this model. The modal only emits commands into its log, and the model never says how the store applies them.

## Model

| member | source | states |
|---|---|---|
| CartModal.Reduce | src/components/CartModal.tsx:19 | the `reduce` fold itself; `ReduceIsSum` and `Total` state what it computes |
| CartModal.Total | src/components/CartModal.tsx:19 | the fold from 0 equals the sum of price × quantity over the lines; it is 0 for an empty cart |
| CartModal.ReduceIsSum | src/components/CartModal.tsx:19 | the left fold with any start value equals that value plus the sum of the line amounts |
| CartModal.TotalAppend | src/components/CartModal.tsx:19 | the total of two carts joined is the sum of their totals |
| CartModal.QuantityChange | src/components/CartModal.tsx:21-27 | a quantity below 1 gives exactly REMOVE_ITEM of that id; any other gives UPDATE_QUANTITY of that id and quantity; the command never carries a quantity below 1 |
| CartModal.DecreaseCommand | src/components/CartModal.tsx:80 | the − button's command; `DecreaseRemovesLast` states it |
| CartModal.IncreaseCommand | src/components/CartModal.tsx:87 | the + button's command; `IncreaseNeverRemoves` states it |
| CartModal.DecreaseRemovesLast | src/components/CartModal.tsx:80 | − removes the line exactly when its quantity is at most 1, otherwise it asks for quantity − 1 |
| CartModal.IncreaseNeverRemoves | src/components/CartModal.tsx:87 | + always asks for quantity + 1 and never removes |
| CartModal.ItemLine | src/components/CartModal.tsx:33 | one order line; `ItemLineAmount` reads its amount back, `ItemLineNoNewline` keeps it on one line, `WidgetExample` shows one |
| CartModal.ItemLines | src/components/CartModal.tsx:32-33 | one line per cart item, the i-th line being the i-th item's `{q}x {name} - ${amount}` |
| CartModal.OrderItems | src/components/CartModal.tsx:32-34 | the `orderItems` text; `OrderItemsLines`, `OrderItemDigits` and `OrderItemsNoHeading` state its lines |
| CartModal.OrderItemsLines | src/components/CartModal.tsx:32-34 | with no '\n' in the item names, the order-items text reads back as exactly the item lines in cart order, with n − 1 separators; an empty cart gives "" |
| CartModal.OrderItemDigits | src/components/CartModal.tsx:33-34 | for a non-empty cart whose item names hold no '\n', every line of the order-items text is non-empty and starts with a digit |
| CartModal.OrderItemsNoHeading | src/components/CartModal.tsx:33-34 | when the item names hold no '\n', no line of the order-items text is `*Order Items*`; an empty cart's text reads back as the one empty line |
| CartModal.TotalLine | src/components/CartModal.tsx:42 | the total line; `TotalLineAmount` reads it back and `MessageEndsWithTotal` places it |
| CartModal.Message | src/components/CartModal.tsx:36-42 | the message template; `MessageSplit`, `MessageSplitOneLine`, `MessageLines`, `MessageStartsWithHeadings`, `MessageEndsWithTotal` and `MessageDeterminesForm` state its properties |
| CartModal.MessageStartsWithHeadings | src/components/CartModal.tsx:36-37 | the message starts with `*New Order*`, an empty line and `*Customer Details*` |
| CartModal.MessageEndsWithTotal | src/components/CartModal.tsx:42 | the message ends with `*Total: $` + formatted total + `*` |
| CartModal.MessageSplit | src/components/CartModal.tsx:36-42 | for every cart and form, the message's lines are the three heading lines, the lines of each labelled field (`Name: `, `Phone: `, `Address: ` followed by the field, a multi-line address giving several), an empty line, `*Order Items*`, the lines of the order-items text, an empty line and the total line |
| CartModal.MessageSplitOneLine | src/components/CartModal.tsx:36-42 | when name, phone and address hold no '\n', each is one line verbatim after its label (the header lines), followed by the order-items lines and the total |
| CartModal.MessageLines | src/components/CartModal.tsx:32-42 | for a non-empty cart with no '\n' in the item names or the fields, the message is exactly the header lines, one line per item and the total line: n + 10 lines in all |
| CartModal.MessageDeterminesForm | src/components/CartModal.tsx:33-41 | when name, phone and item names hold no '\n', equal messages come from equal customer details, a multi-line address included, whatever the carts |
| CartModal.MessageDeterminesFormOneLine | src/components/CartModal.tsx:38-40 | when all three fields hold no '\n', equal messages come from equal customer details, whatever the item names |
| CartModal.NameNewlineAmbiguous | src/components/CartModal.tsx:38-39 | the forms ("a\nPhone: b", "c", "d") and ("a", "b\nPhone: c", "d") differ yet give the same message, so the one-line name is needed |
| CartModal.ItemNameNewlineAmbiguous | src/components/CartModal.tsx:33-41 | for every name and phone, an empty address with the item name "\n\n*Order Items*\n1x " gives the same message as that text as the address with an empty item name, so one-line item names are needed |
| CartModal.ItemLineAmount | src/components/CartModal.tsx:33 | the amount after the last '$' of an item line reads back as price × quantity in cents, whatever the name holds |
| CartModal.TotalLineAmount | src/components/CartModal.tsx:42 | the total line reads back as the total |
| CartModal.SumItemLineAmounts | src/components/CartModal.tsx:33 | the amounts read back from the item lines add up to the sum of the line amounts |
| CartModal.TotalMatchesItemLines | src/components/CartModal.tsx:19-42 | the amount on the total line equals the sum of the amounts on the item lines |
| CartModal.WidgetExample | src/components/CartModal.tsx:33-42 | two Widgets at $5.00 give the line `2x Widget - $10.00` and the total line `*Total: $10.00*` |
| CartModal.WhatsAppUrl | src/components/CartModal.tsx:44 | the URL is the fixed endpoint `https://wa.me/5511952807174?text=` followed by the encoded message |
| CartModal.WhatsAppUrlInjective | src/components/CartModal.tsx:44 | with an injective encoding, equal URLs come from equal messages |
| CartModal.CheckoutEffects | src/components/CartModal.tsx:29-48 | checkout prevents the default action, opens the message's URL in `_blank`, dispatches CLEAR_CART and closes, in that order |
| CartModal.CheckoutDispatchesClearOnly | src/components/CartModal.tsx:45-48 | checkout dispatches exactly one command, CLEAR_CART |
| CartModal.Rendered | src/components/CartModal.tsx:59-104 | which controls a render shows; `ControlEffects`, `CheckoutNeedsItems` and `Modal.Press` require it |
| CartModal.FormComplete | src/components/CartModal.tsx:109-137 | the `required` fields are all filled; `CheckoutNeedsItems` states that checkout needs it |
| CartModal.FormAfter | src/components/CartModal.tsx:113-137 | the form after a control; `FormChangesOnlyByTyping` states it |
| CartModal.FormChangesOnlyByTyping | src/components/CartModal.tsx:113-137 | only typing into a field changes the form; the typed field takes the typed value and the other two stay as they were |
| CartModal.ControlEffects | src/components/CartModal.tsx:59-147 | every effect a rendered control produces keeps quantities at least 1 |
| CartModal.CheckoutNeedsItems | src/components/CartModal.tsx:67-148 | only a control of a non-empty cart with every required field filled opens a URL or clears the cart |
| CartModal.Modal.constructor | src/components/CartModal.tsx:11-17 | a fresh modal has an empty form and an empty effect log |
| CartModal.Modal.HandleQuantityChange | src/components/CartModal.tsx:21-27 | appends exactly the one command of the quantity policy to the log and keeps the quantity invariant |
| CartModal.Modal.HandleCheckout | src/components/CartModal.tsx:29-49 | appends exactly the checkout effects for the render's items and the current form |
| CartModal.Modal.Press | src/components/CartModal.tsx:59-147 | acting on a rendered control appends its effects and updates the form as the control says; the commands dispatched so far become the old ones followed by the control's |
| CartTypes.DispatchedAppend | src/components/CartModal.tsx:21-48 | the commands of a log built in two parts are those of the first part followed by those of the second |
| CartTypes.DispatchedKeepQuantitiesPositive | src/components/CartModal.tsx:21-27 | a log that keeps the invariant dispatches only commands with quantities at least 1 |
| ProductCard.AddToCart | src/components/ProductCard.tsx:16-26 | ADD_ITEM whose id, name and price are the product's and whose quantity is 1 |
| ProductCard.HandleAddToCart | src/components/ProductCard.tsx:16-18 | exactly one dispatch, of the ADD_ITEM command |
| ProductCard.AddToCartKeepsQuantitiesPositive | src/components/ProductCard.tsx:23 | the add-to-cart command never carries a quantity below 1 |
| ProductCard.AddToCartSnapshot | src/components/ProductCard.tsx:19-24 | the command depends on the product only through its id, name and price |
| Decimal.NatToString | src/components/CartModal.tsx:33 | a quantity prints as non-empty decimal digits with no leading zero |
| Decimal.ParseNatToString | src/components/CartModal.tsx:33 | the printed quantity reads back as the quantity |
| Decimal.FormatCents | src/components/CartModal.tsx:33 | `toFixed(2)` of whole cents has the shape D.CC with no '\n', '$' or '*' |
| Decimal.ParseFormatCents | src/components/CartModal.tsx:42 | a formatted amount reads back as the amount |
| Decimal.FormatCentsInjective | src/components/CartModal.tsx:42 | different amounts print differently |
| Decimal.FormatTenDollars | src/components/CartModal.tsx:33 | 1000 cents prints as "10.00" |
| Lines.Join | src/components/CartModal.tsx:34 | `join('\n')`; `SplitJoin`, `JoinSplit` and `JoinNewlineCount` state it |
| Lines.SplitJoin | src/components/CartModal.tsx:34 | at least one line, none holding '\n', joined and read back give the same lines (no lines join to "", which reads back as one empty line) |
| Lines.JoinSplit | src/components/CartModal.tsx:34 | the pieces of any text, joined with '\n', give the text back, so texts with the same lines are equal |
| Lines.SplitGlue | src/components/CartModal.tsx:34 | reading back a text glued with '\n' gives the lines of each part, in order |
| Lines.JoinNewlineCount | src/components/CartModal.tsx:34 | n ≥ 1 lines, none holding '\n', joined hold exactly n − 1 '\n' characters |

## Left out

- The cart store's reducer (ADD_ITEM merging, UPDATE_QUANTITY, REMOVE_ITEM, CLEAR_CART): `src/context/CartContext` is not part of this model. The model only records which commands are dispatched.
- `src/db/productDB.ts` and `src/App.tsx`: these are asynchronous storage calls, toast notifications, clipboard writes and view state. They are I/O plumbing, not cart logic.
- `src/types/Product.ts` is a type declaration only. It is the shape of `CartTypes.Product`.
- Floating point: prices and amounts are integer cents (`nat`). JavaScript's rounding of prices that are not whole cents, and the exponent notation `toFixed` uses for values of 10^21 and above, are not modelled.
- `encodeURIComponent` is the parameter `encode`. The model does not say how it encodes. The one property that needs more than that, URL injectivity, assumes the encoding is injective. `encodeURIComponent` throws `URIError` on a lone surrogate, and `handleCheckout` then stops after `preventDefault`: no window opens, `CLEAR_CART` is not dispatched and the modal does not close. A Dafny `char` is a Unicode scalar value and cannot hold a lone surrogate, so `encode` is total and the model has no such error path.
- `window.open`, `onClose` and `e.preventDefault()` are recorded only as entries in the effect log. `encode` is a field of `Modal` because the browser supplies it.
- Rendering is left out: the JSX, the per-line "$price each" text and the on-screen total. The model keeps only which controls a render shows (`Rendered`). For the `required` fields it keeps only that a form with an empty field is not submitted (`FormComplete`).
- Re-rendering is left out: a `Modal` is one render, and its `items` are that render's cart. After a dispatch React renders the modal again with the store's new cart. Because the reducer is not modelled, the model has nothing to say about that new cart. So a sequence of `Modal.Press` calls across a dispatch is not what the source does: pressing − twice on a line of quantity 3 logs `UPDATE_QUANTITY` to 2 twice, where the source asks for 2 and then, after the re-render, for 1. Only presses within one render, up to and including the first dispatch, follow the source.
- CartModal.MessageDeterminesForm: assumes no '\n' in the name, the phone or the item names. An `<input type="text">` or `type="tel"` value never holds a line break, because the browser strips them, so for name and phone this is what the source receives. The address is a `<textarea>` and is not restricted. Item names come from the catalog, and the source does not check them. `NameNewlineAmbiguous` and `ItemNameNewlineAmbiguous` show that both assumptions are needed.
- CartModal.MessageSplitOneLine, CartModal.MessageDeterminesFormOneLine, CartModal.MessageLines: these assume no '\n' in any form field, so they do not cover a multi-line address. `MessageSplit` and `MessageDeterminesForm` are the forms that do.
- CartModal.MessageLines, CartModal.OrderItemsLines, CartModal.OrderItemsNoHeading: these assume no '\n' inside an item name. The source accepts such text, and then the message has more lines than the template shows. `MessageSplit` makes no such assumption.
- Quantities in the cart: `CartItem.quantity` is a `nat`. The store's promise that it is at least 1 is not assumed, so a line of quantity 0 would be printed as `0x …`.
