# Storefront view logic: quantity stepper, cart overlay, log-in rules

This project models the three pieces of state logic in the storefront's React views:

- **Product detail page** (`src/features/products/ProductDetail.jsx`). The page looks up the product
  named by the route, or shows the loader. Its quantity stepper starts at 1. Minus lowers the
  quantity only while it is above 1, and plus always adds one. Typing replaces the quantity:
  an empty box gives 0, and any other text gives `parseInt(text, 10)`. The box shows 1 for a
  zero quantity. "Add to Cart" dispatches the product with its `quantity` overwritten, and on
  viewports wider than 991 pixels it first requests the cart overlay.
- **Cart overlay** (`src/features/cart/CartSideBar.jsx`). A single visibility flag controls
  it. A click outside, the close button and "view cart" all set the flag to false, and
  "view cart" also navigates to `/carts`. While the overlay is open, its body is chosen by
  strict priority: loader while loading, else the item list with the total, else "no item".
- **Log-in form** (`src/features/authentication/LoginForm.jsx`). The email is required and
  must contain a match of the unanchored pattern `\S+@\S+\.\S+`. The password is required and
  must have at least 8 characters. Each rule has its fixed message. A flag switches the
  password input between `password` and `text`, and its control is displayed only once a
  password has been typed.

Modules: `Wrappers` (Option), `Catalog` (the product record), `JsParseInt` (the decimal parse
that `handleInput` calls), `ProductDetail`, `CartSideBar` and `LoginForm`. State that the
components update step by step is modelled as classes: `ProductDetail.QuantityStepper`,
`CartSideBar.CartVisibility` and `LoginForm.PasswordVisibility`. Each method's `ensures` gives
the whole new state. The cart overlay's methods are specified by the pure transition function
`CartSideBar.Step`, and the lemmas about `Step` and `Run` cover any sequence of actions. The
email rule's regular expression is an explicit index predicate, `LoginForm.MatchAt`. It is
proved equivalent to the simpler `@`/`.` test that the validator evaluates.

The outside world appears as values. The add-to-cart click returns the list of requests it
makes (`ProductDetail.Effect`). "View cart" appends to a log of navigations. The window width,
the loading flags, the catalog's products, the cart's items and the cart total are all
parameters.

## Model

| member | source | states |
|---|---|---|
| `ProductDetail.FirstIndexWithId` | src/features/products/ProductDetail.jsx:26 | the result is the first index whose `id` equals the wanted id; none exactly when no product has that id |
| `ProductDetail.DetailPage` | src/features/products/ProductDetail.jsx:26-28 | details are shown iff not loading, the product list is present, the route id is a number and some product has it; the product shown is the first with that id; otherwise the loader |
| `ProductDetail.CartPayload` | src/features/products/ProductDetail.jsx:36 | the payload's `quantity` is the stepper value and every other field equals the product's |
| `ProductDetail.DisplayedQuantity` | src/features/products/ProductDetail.jsx:88 | the box never shows 0: a non-zero quantity is shown as is, 0 is shown as 1 |
| `ProductDetail.QuantityStepper.constructor` | src/features/products/ProductDetail.jsx:20 | the stepper starts at 1 |
| `ProductDetail.QuantityStepper.Decrease` | src/features/products/ProductDetail.jsx:39-43 | subtracts exactly 1 when the quantity is above 1, otherwise leaves it; a quantity of at least 1 stays at least 1 |
| `ProductDetail.QuantityStepper.Increase` | src/features/products/ProductDetail.jsx:45-47 | the new quantity is the old one plus 1 |
| `ProductDetail.QuantityStepper.Input` | src/features/products/ProductDetail.jsx:49-58 | empty text sets the quantity to 0; other text sets it to the base-10 parse of the text |
| `ProductDetail.QuantityStepper.AddToCart` | src/features/products/ProductDetail.jsx:32-37 | the last request is the add-to-cart dispatch of the payload; an open-cart request is made iff the width exceeds 991, and only before the dispatch |
| `ProductDetail.RetypeDisplayed` | src/features/products/ProductDetail.jsx:88 | typing back the numeral that the box shows gives the same quantity for a non-zero quantity, and 1 for zero |
| `JsParseInt.ParseInt` | src/features/products/ProductDetail.jsx:55 | the result is an optional sign applied to the value of the leading digits: its magnitude is the value of `LeadingDigits` of the unsigned text, it is at most 0 after a `-` and at least 0 otherwise; `ParseIntNumeral` and `LeadingDigits` are the facts proved about it |
| `JsParseInt.LeadingDigits` | src/features/products/ProductDetail.jsx:55 | the result is the longest prefix made only of decimal digits |
| `JsParseInt.DecimalValue` | src/features/products/ProductDetail.jsx:55 | the digit string of a natural number has that number as its value |
| `JsParseInt.ParseIntNumeral` | src/features/products/ProductDetail.jsx:55 | parsing the numeral of any integer gives that integer back, even with trailing text that starts with a non-digit |
| `ProductDetail.ClearedBoxDispatchesZero` | src/features/products/ProductDetail.jsx:52-53 | as written: after the box is cleared, add-to-cart dispatches quantity 0 while the box shows 1 |
| `ProductDetail.NegativeTextParsesBelowOne` | src/features/products/ProductDetail.jsx:55 | as written: the text `-3` is read as the quantity -3 |
| `ProductDetail.ClampQuantity` | src/features/products/ProductDetail.jsx:88 | the result is at least 1, keeps quantities of 1 and more, and agrees with the box's display for every non-negative quantity |
| `ProductDetail.QuantityStepper.InputAtLeastOne` | src/features/products/ProductDetail.jsx:49-58 | corrected input: the stored quantity is the typed value kept at 1 or more, so it is always at least 1 |
| `ProductDetail.CorrectedInputThenAdd` | src/features/products/ProductDetail.jsx:32-58 | with the corrected input, whatever is typed, the dispatched quantity is at least 1 and equals what the box shows |
| `CartSideBar.Step` | src/features/cart/CartSideBar.jsx:78-81 | every action leaves the overlay closed; "view cart" adds exactly one navigation to `/carts`; the other actions navigate nowhere |
| `CartSideBar.RunNeverOpens` | src/features/cart/CartSideBar.jsx:23-81 | after any sequence of overlay actions, the overlay is open only if it was open and there were no actions |
| `CartSideBar.RunNavigations` | src/features/cart/CartSideBar.jsx:78-81 | a sequence of actions appends one `/carts` navigation per "view cart" and nothing else |
| `CartSideBar.ClickOutsideIdempotent` | src/features/cart/CartSideBar.jsx:23-27 | a second click outside changes nothing |
| `CartSideBar.CartVisibility.HandleOutside` | src/features/cart/CartSideBar.jsx:23-27 | the click-outside callback performs the click-outside step: the flag is false and no navigation happens |
| `CartSideBar.CartVisibility.Close` | src/features/cart/CartSideBar.jsx:61 | the close button performs the close step: the flag is false and no navigation happens |
| `CartSideBar.CartVisibility.HandleViewCart` | src/features/cart/CartSideBar.jsx:78-81 | "view cart" performs the view-cart step: the flag is false and one `/carts` navigation is logged |
| `CartSideBar.ItemEntries` | src/features/cart/CartSideBar.jsx:86 | one entry per cart item, in list order, keyed by the item's id |
| `CartSideBar.SideBarBody` | src/features/cart/CartSideBar.jsx:65-69 | loader iff loading (even for an empty list); "no item" iff not loading and the list is empty; the item list and total iff not loading and the list is non-empty |
| `CartSideBar.RenderOverlay` | src/features/cart/CartSideBar.jsx:31-50 | nothing is rendered iff the flag is false; otherwise the panel holds the selected body |
| `LoginForm.EmailShapeIffPattern` | src/features/authentication/LoginForm.jsx:34-37 | a string contains a match of `\S+@\S+\.\S+` iff it has an `@` preceded by a non-space, followed by one or more non-spaces up to a `.`, and that `.` is followed by a non-space |
| `LoginForm.ValidateEmail` | src/features/authentication/LoginForm.jsx:32-38 | no error iff the email is non-empty and contains a pattern match; empty gives "This field is required"; otherwise "Please provide a valid email address" |
| `LoginForm.EmailPatternUnanchored` | src/features/authentication/LoginForm.jsx:35 | text added before or after an accepted email keeps it accepted |
| `LoginForm.SpaceSplitsAddress` | src/features/authentication/LoginForm.jsx:35 | `user@host .tld`, with no other `@` or `.`, is rejected with the invalid-email message |
| `LoginForm.ExampleAddressAccepted` | src/features/authentication/LoginForm.jsx:35 | `shopper@vogal.store` passes the email rules |
| `LoginForm.ValidatePassword` | src/features/authentication/LoginForm.jsx:44-50 | no error iff the length is at least 8; empty gives "This field is required"; 1 to 7 characters give "Password needs a minimum of 8 characters" |
| `LoginForm.PasswordInputType` | src/features/authentication/LoginForm.jsx:43 | the input type is `text` iff the password is visible, `password` iff it is not |
| `LoginForm.ToggleDisplay` | src/features/authentication/LoginForm.jsx:53 | the show/hide control is displayed iff the password is non-empty |
| `LoginForm.PasswordVisibility.constructor` | src/features/authentication/LoginForm.jsx:14 | the password starts hidden |
| `LoginForm.PasswordVisibility.Toggle` | src/features/authentication/LoginForm.jsx:52 | each click flips the visibility flag |
| `LoginForm.ToggleTwice` | src/features/authentication/LoginForm.jsx:52 | two clicks restore the original visibility and input type |

## Left out

- The cart store (`addToCart` in `slices/cartSlice`), `useCartItems`, `useTotalAmount`, `useClickOutside`, `CartContext` and `Modal` are not part of this model. The dispatch, the open-cart request and the total are opaque values. Accumulation of quantities, total calculation and the detection of clicks outside are not modelled.
- `ProductDetail.QuantityStepper.AddToCart`: calls `isCartOpen(true)` from the cart context. The model records this as a `RequestCartOpen` request and does not claim that it sets the overlay's flag. In `CartSideBar.jsx` the same context name is the flag itself, and the context's code is not part of this model. The model assumes the call returns normally. If the context's `isCartOpen` is the flag, the call throws and nothing is dispatched on wide viewports.
- `ProductDetail.QuantityStepper.Input`: accepts only empty text or text with a digit after an optional sign. That text is where `parseInt` gives a number. Text that gives `NaN`, such as `".5"`, is excluded, so the `NaN` quantity and its falsy display are not modelled. Leading whitespace is not stripped, because a number input's value holds none.
- `JsParseInt.ParseInt`: uses unbounded integers. JavaScript numbers are doubles, so the source's value is exact only up to 2^53; `parseInt("9007199254740993", 10)` gives 9007199254740992.
- `JsParseInt.ParseIntNumeral`: holds in the source only for integers of magnitude up to 2^53, for the reason above.
- `ProductDetail.QuantityStepper.Increase`: the source's quantity is a double, so adding 1 at 2^53 leaves it unchanged; the model's integer always grows.
- `ProductDetail.RetypeDisplayed`: holds in the source only for quantities below 1e21; larger ones are shown as text like `1e+21`, which parses to 1.
- `ProductDetail.DetailPage`: takes the route parameter after `Number(...)` has converted it, as an optional integer, where absent means `NaN`. The string-to-number conversion itself is not modelled.
- `ProductDetail.DisplayedQuantity`: returns the number shown. The source shows the string `"1"` in place of a zero quantity, which displays the same.
- The minus and plus buttons' `disabled={isLoading}` is not modelled. While loading, the page renders the loader and not these buttons.
- `ProductDetail.QuantityStepper.Decrease`: the source's guard reads the rendered value and the setter applies `prev - 1`. The model treats both as the same value, because each click is one event.
- `LoginForm.ValidatePassword`: counts Unicode characters. JavaScript counts UTF-16 code units, so passwords with characters outside the Basic Multilingual Plane can differ.
- `LoginForm.ValidateEmail`: models the rules as a string predicate. Form submission, the `login` call, `reset` after it settles and the login loader are not modelled, because they are asynchronous library calls.
- The "Ask a question" modal, price formatting, icons, markup and styling are presentation only. So are the overlay's animation timings, which are floating-point values.
- `src/pages/UserList.jsx` fetches users over the network. `src/pages/Home.jsx` and `src/components/header/Header.jsx` only compose components. None of them is modelled.

## Findings

| source | as written | input that shows it | evidently intended | confidence | as-written member | corrected member |
|---|---|---|---|---|---|---|
| src/features/products/ProductDetail.jsx:49-58 | a cleared box stores 0 and typed text is stored as parsed, so add-to-cart (:36) can dispatch 0 or a negative quantity, and the minus button cannot raise it | clear the box, then "Add to Cart": the box shows 1 but quantity 0 is dispatched; type `-3`: quantity -3 is dispatched | cart quantities are at least 1, and the dispatched quantity is the one the box shows | not executed; medium (the display fallback at :88 shows 1 for a cleared box) | `ProductDetail.ClearedBoxDispatchesZero`, `ProductDetail.NegativeTextParsesBelowOne` | `ProductDetail.QuantityStepper.InputAtLeastOne`, `ProductDetail.CorrectedInputThenAdd` |

The stepper's `Input` keeps the code as written. The corrected input sits beside it, because nothing else in this model consumes the dispatched quantity.
