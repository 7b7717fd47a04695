# Smart shopping cart: cart aggregation and page state

The smart shopping cart is a Streamlit page. It polls a camera for a still
image and runs an object detector on it. It then turns the detected product
labels into a priced bill and offers a two-page flow: the cart page, then the
payment page. This project models the two pieces of logic in that script:

- **Cart aggregation** (module `Cart`, `cart.dfy`). One frame's detections
  are a sequence of label strings. Each label is priced from the shop's table
  `PRICES`, and a label missing from the table costs 0. The cart starts from a
  fresh empty list. A label that already has a line bumps that line's
  quantity by one and its amount by the unit price. A new label appends a
  line with quantity 1. The total is the sum of the line amounts.
  `Aggregate` and its loop body `AddDetection` are methods proved against the
  declarative predicate `IsAggregation`. That predicate says the line names
  are `FirstSeen(labels)`, the distinct labels in first-detection order. It
  also says each quantity is the number of detections of that label, and
  each amount is that quantity times the unit price.
- **Session page state** (module `Pages`, `session.dfy`). The class
  `Session` holds the page, the line items and the total. It has one method
  per transition: a fetch-and-process cycle, "Pay Now", "Confirm Payment" and
  "Back to Cart". `Rerun` is one run of the page script, dispatching on the
  current page as the script does. `Session.Valid()` is the cart invariant:
  the total is the sum of the line amounts, and no two lines share a name.
  Every transition preserves it.

The camera and the detector are replaced by a `Frame` input. A frame is
either `Detected(labels)` or `CycleFailed`. `CycleFailed` stands for any
failure caught before the cart is stored: fetching, decoding, detecting or
displaying the image (main1.py lines 67-77 and 107-110). The button pressed
during a run is a `Click` input.

"Back to Cart" returns to the home page and keeps the cart as it is
(main1.py lines 152-153). Only "Confirm Payment" empties the cart.

## Model

| member | source | states |
|---|---|---|
| `Cart.FirstSeen` | smart_shopping_cart-main/main1.py:88-93 | the line names built from a frame are exactly the detected labels, each once (no duplicate names) |
| `Cart.FindItem` | smart_shopping_cart-main/main1.py:88 | the linear search returns the first line with that name, and reports none exactly when no line has it |
| `Cart.AddDetection` | smart_shopping_cart-main/main1.py:85-93 | adding one detection to a cart built from `done` gives the cart of `done + [label]`, including the quantity and amount sums |
| `Cart.BumpKeepsAggregation` | smart_shopping_cart-main/main1.py:89-91 | bumping the existing line of a repeated label in place keeps names, counts and amounts exact for the longer detection sequence |
| `Cart.BumpStep` | smart_shopping_cart-main/main1.py:89-91 | the bump also raises the quantity sum by one and the amount sum by the label's unit price |
| `Cart.AppendStep` | smart_shopping_cart-main/main1.py:92-93 | appending `{label, 1, price}` for a new label keeps names (first-seen order), counts, amounts and both sums exact |
| `Cart.Aggregate` | smart_shopping_cart-main/main1.py:80-97 | the built cart is the aggregation of the frame; quantities sum to the number of detections; the total equals the sum of line amounts and the sum of the unit prices of all detections |
| `Cart.SumUpdate` | smart_shopping_cart-main/main1.py:97 | changing one line's value changes the summed total by exactly the difference |
| `Cart.FirstSeenOrder` | smart_shopping_cart-main/main1.py:88-93 | line items appear in the order their labels were first detected |
| `Cart.AggregationUnique` | smart_shopping_cart-main/main1.py:80-97 | the cart is determined by the frame's labels and the price table alone, with no dependence on earlier state |
| `Cart.AggregationCoversLabels` | smart_shopping_cart-main/main1.py:88-93 | a label was detected if and only if it has a line item, and no two line items share a name |
| `Cart.QuantitiesPositive` | smart_shopping_cart-main/main1.py:90-93 | every line item holds at least one detection |
| `Cart.UnknownLabelPricedZero` | smart_shopping_cart-main/main1.py:85-93 | a detected label missing from the price table still yields a line item, with amount 0 |
| `Cart.CatalogPricesPositive` | smart_shopping_cart-main/main1.py:13-49 | every entry of the shop's price table `PRICES` is positive |
| `Cart.CatalogLookup` | smart_shopping_cart-main/main1.py:85 | `PriceOf`, the lookup with default 0: with the shop's table a label is priced 0 exactly when it is missing, and otherwise at its table entry |
| `Cart.ZeroAmountIffUnknown` | smart_shopping_cart-main/main1.py:13-49 | with the shop's table, a line's amount is 0 if and only if its label is not in the table |
| `Cart.EmptyFrame` | smart_shopping_cart-main/main1.py:80-97 | a frame with no detections gives exactly the empty cart, whose total is 0 |
| `Cart.RepeatedLabelExample` | smart_shopping_cart-main/main1.py:85-93 | [A, A, B] with prices {A: 10, B: 5} gives exactly [A x2 = 20, B x1 = 5], whose amounts sum to 25 |
| `Cart.FirstSeenOrderExample` | smart_shopping_cart-main/main1.py:88-93 | [B, A, B] lists B before A |
| `Pages.Session.constructor` | smart_shopping_cart-main/main1.py:56-63 | a new session is on the home page with no items and total 0 |
| `Pages.Session.ProcessFrame` | smart_shopping_cart-main/main1.py:66-110 | a detected frame replaces the cart by the aggregation of that frame; a failed cycle (fetch, decode, detection or display) leaves items and total unchanged; the page never changes |
| `Pages.Session.PayNow` | smart_shopping_cart-main/main1.py:125-126 | home goes to payment, cart unchanged |
| `Pages.Session.ConfirmPayment` | smart_shopping_cart-main/main1.py:145-150 | payment goes to home, with no items and total 0 |
| `Pages.Session.BackToCart` | smart_shopping_cart-main/main1.py:152-153 | payment goes to home, with items and total unchanged |
| `Pages.Session.Rerun` | smart_shopping_cart-main/main1.py:113-153 | one run of the page: the home page processes a frame then honours "Pay Now"; the payment page honours "Confirm Payment" or "Back to Cart" and otherwise changes nothing; the cart invariant is kept |

## Left out

- The HTTP fetch of the camera image, its 2-second timeout and `raise_for_status` (lines 69-70). They become the `CycleFailed` frame.
- Image decoding and the YOLO detector with its confidence and overlap thresholds (lines 53, 71, 74). They are replaced by the label sequence of a `Detected` frame. The nesting of results and boxes, and the lookup from class index to label name (lines 81-84), belong to the detector. They are flattened into one sequence in detection order.
- All Streamlit rendering: the image and table placeholders, titles, warnings, errors and the success message. Also the display-only table with its "Total" row (lines 99-106), the payment form's text inputs (lines 139-141), `st.rerun` and the `time.sleep` polling loop. None of them changes the session state.
- A failure raised while rendering after line 97 leaves the new cart in place. The model treats that run as a `Detected` frame, which updates the cart the same way.
- Python dictionaries are mutable objects. The in-place update of the found line is modelled as replacing that element of a value sequence. Nothing else holds a reference to the list during aggregation.
- Streamlit reports at most one pressed button per run, so `Click` holds one button. The Python `page` only ever holds "home" or "payment", which become the two `Page` values.
