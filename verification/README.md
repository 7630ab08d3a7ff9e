# MerkaGo prototype: a verified model of its client-side logic

MerkaGo is a marketplace prototype with a customer side and a vendor side.
All its state is local component state seeded with mock data, and every
"server call" is a timer. This project models, in Dafny, the logic those
components run when the user types or clicks:

- **Checkout** (`Cart`): the cart subtotal, the delivery and service fees,
  and the voucher toggle.
- **Vouchers and rewards** (`VoucherPage`): voucher lists filtered by
  offer and expiry, the applied voucher, and loyalty points spent on rewards.
- **Payout request** (`RequestPayout`): the amount field, the 5% platform
  fee, the ordered checks, and the request itself in two steps (validate and
  start loading, then complete).
- **Payout settings** (`PayoutSettings`): a draft copy edited field by
  field, `formatCurrency`, and the save checks.
- **Payment methods** (`PaymentMethod`): the card-number, CVV and expiry
  formatters, the ordered save checks, delete by id, and the masked number.
- **Add-product form** (`AddProductModal`) and **stock table** (`Stock`):
  validation, add, delete with confirmation, and inline edit.
- **Orders** (`Orders`): status change and the per-status counters.
- **Password change** (`ChangePassword`) and **chat** (`ChatSupport`).

Shared modules:

- `Wrappers` holds Option.
- `Seqs` holds `filter` and its laws.
- `JsStrings` writes out the JavaScript string primitives the components
  use: `\s`, `trim`, `split`, `slice`, the regular-expression filters,
  `parseFloat`, and `Number.prototype.toString` on non-negative decimals.

Modelling decisions:

- Each component is a class. Its fields are the component's `useState`
  variables.
- Each handler is a method. Its `ensures` ties the new state to pure
  functions.
- Lemmas prove what those functions promise.
- Money is an exact `real`.
- Dates are millisecond instants.
- Character counts follow Dafny's strings of Unicode scalar values. The
  password check's length test counts UTF-16 code units explicitly
  (`Utf16Length`). The other lengths and slices apply to digits only, except
  the expiry input's `slice(0, 5)` (see "Left out").

The mock cart's line totals are 120, 440 and 400, so the subtotal is 960.00
and the initial total 970.50.

The stock table numbers a new product `products.length + 1`. From a table
numbered 1..n, such as the initial one, deleting any row but the last makes
the next id equal the last row's id, so two rows then share it.
`Stock.NextIdCollidesAfterDelete` and `Stock.InitialTableCollision` prove
this. The model keeps the source's numbering.

## Model

| member | source | states |
|---|---|---|
| Cart.SubtotalIsPriceSum | app/customerPage/cart/page.tsx:24 | when every stored line total is quantity times price, the left-fold subtotal equals the sum of quantity times price |
| Cart.HardcodedSubtotal | app/customerPage/cart/page.tsx:11-24 | the mock cart's stored totals are consistent and the subtotal is 960.00 |
| Cart.FindVoucher | app/customerPage/cart/page.tsx:35 | a found voucher has the selected id and no earlier voucher has it; nothing is found exactly when no voucher has the selected id |
| Cart.AppliedDiscountBySelection | app/customerPage/cart/page.tsx:17-36 | the discount is 50, 40 or 10 for "v1", "v2" or "v3" and 0 for no selection or any other id |
| Cart.TotalBySelection | app/customerPage/cart/page.tsx:39 | total plus discount is subtotal plus both fees, which for this cart is 1020.50 |
| Cart.InitialTotal | app/customerPage/cart/page.tsx:32-39 | with the default selection "v1" the total is 970.50 |
| Cart.TotalLowerBound | app/customerPage/cart/page.tsx:17-39 | no selection brings the total below subtotal plus service fee |
| Cart.ToggleSelection | app/customerPage/cart/page.tsx:45-53 | the result is empty exactly when the clicked voucher was selected, and otherwise is the clicked voucher |
| Cart.ToggleTwice | app/customerPage/cart/page.tsx:45-53 | two clicks on one voucher restore the selection exactly when it was empty or that voucher; from another voucher they leave nothing selected |
| Cart.CheckoutPage.constructor | app/customerPage/cart/page.tsx:32 | the page starts with "v1" selected |
| Cart.CheckoutPage.AppliedVoucher | app/customerPage/cart/page.tsx:35 | the applied voucher is one of the available vouchers and carries the selected id |
| Cart.CheckoutPage.HandleVoucherSelect | app/customerPage/cart/page.tsx:45-53 | the new selection is the toggle of the old one |
| VoucherPage.UniversalVouchers | app/customerPage/voucher/page.tsx:182 | lists exactly the vouchers that are universal, unused and not yet expired |
| VoucherPage.ShopVouchers | app/customerPage/voucher/page.tsx:180 | lists exactly the unused, unexpired, shop-specific vouchers of the selected tab |
| VoucherPage.OfferListsDisjoint | app/customerPage/voucher/page.tsx:180-182 | no voucher appears in both lists |
| VoucherPage.ListedVouchersCanBeApplied | app/customerPage/voucher/page.tsx:117-128 | every listed voucher shows an Apply button (neither used nor expired) |
| VoucherPage.FindVoucher | app/customerPage/voucher/page.tsx:161 | a found voucher has the id and is the first voucher in the list with it; nothing is found exactly when no voucher has the id |
| VoucherPage.MarkClaimed | app/customerPage/voucher/page.tsx:173 | rewards keep their order and every field but `claimed`, which becomes true for the given id and stays as it was otherwise |
| VoucherPage.Claim | app/customerPage/voucher/page.tsx:170-178 | a claim succeeds exactly when the points cover the cost; success deducts the cost and marks the reward, failure changes nothing |
| VoucherPage.ClaimKeepsPointsNonNegative | app/customerPage/voucher/page.tsx:171-172 | a non-negative balance stays non-negative after any claim |
| VoucherPage.RenderedClaimEnabled | app/customerPage/voucher/page.tsx:216-227 | the drawn Claim button, whose guard reads the constant mock rewards, is enabled exactly when the points cover the cost |
| VoucherPage.RenderedButtonStaysEnabled | app/customerPage/voucher/page.tsx:170-178 | after any successful claim the drawn button of that reward is still enabled while the remaining points cover its cost |
| VoucherPage.RepeatClaimThroughRenderedButton | app/customerPage/voucher/page.tsx:170-178 | from 1250 points, claiming Free Coffee leaves 750 with the reward marked claimed in state, its button still enabled, and a second claim leaving 250 |
| VoucherPage.ClaimDisablesButton | app/customerPage/voucher/page.tsx:170-178 | with the guard read from the `rewards` state, after a claim the button allowed, that reward's button is disabled |
| VoucherPage.VouchersPageState.constructor | app/customerPage/voucher/page.tsx:152-156 | the page starts with the mock lists, 1250 points, the "Super Market" tab and no applied voucher |
| VoucherPage.VouchersPageState.HandleApplyVoucher | app/customerPage/voucher/page.tsx:160-167 | a voucher with the id becomes the applied one; an unknown id keeps the previous one |
| VoucherPage.VouchersPageState.RemoveAppliedVoucher | app/customerPage/voucher/page.tsx:321 | clears the applied voucher and nothing else |
| VoucherPage.VouchersPageState.HandleClaimReward | app/customerPage/voucher/page.tsx:170-178 | points, rewards and outcome are those of `Claim`, and the balance stays non-negative |
| VoucherPage.VouchersPageState.SelectShopTab | app/customerPage/voucher/page.tsx:141 | sets the tab and nothing else |
| JsStrings.KeepDigitsAndDots | components/shared/VendorSide/settings/requestPayout/requestPayout.tsx:46 | the result holds only digits and dots |
| JsStrings.Split | components/shared/VendorSide/settings/requestPayout/requestPayout.tsx:48 | a split has at least one part |
| JsStrings.SplitLength | components/shared/VendorSide/settings/requestPayout/requestPayout.tsx:48-49 | the number of parts is one more than the number of separators |
| JsStrings.BlankIffAllWhitespace | components/shared/VendorSide/stock/addProductModal/addProductModal.tsx:46 | a text is empty after `trim()` exactly when every character is whitespace |
| JsStrings.ParseFloat | components/shared/VendorSide/settings/requestPayout/requestPayout.tsx:40 | the result is a number exactly when the scan after leading whitespace and sign read at least one digit |
| JsStrings.ParseFloatOfPointPrefix | components/shared/VendorSide/settings/requestPayout/requestPayout.tsx:40 | leading whitespace, an optional sign, digits, a point and digits parse to the signed decimal value, whatever non-digit text other than an exponent follows |
| JsStrings.ParseFloatOfIntegerPrefix | components/shared/VendorSide/settings/requestPayout/requestPayout.tsx:40 | leading whitespace, an optional sign and digits parse to the signed integer value, whatever follows that is neither a digit, a point nor an exponent |
| JsStrings.ParseFloatNaN | components/shared/VendorSide/settings/payoutSettings/payoutSettings.tsx:57 | text with no digit right after the whitespace, the sign and an optional point is NaN |
| JsStrings.ScanDecimalAfterSign | components/shared/VendorSide/settings/requestPayout/requestPayout.tsx:40 | the scan skips leading whitespace and reads the sign before the magnitude |
| JsStrings.ParseFloatOfUnsigned | components/shared/VendorSide/settings/requestPayout/requestPayout.tsx:40 | text of digits and dots never parses to a negative number |
| JsStrings.ParseFloatOfDigits | components/shared/VendorSide/settings/payoutSettings/payoutSettings.tsx:57 | a digit string parses to its decimal value |
| JsStrings.DecimalToString | components/shared/VendorSide/settings/requestPayout/requestPayout.tsx:55 | the spelling is non-empty, holds only digits and dots, and has at most one dot |
| JsStrings.ParseFloatOfDecimalToString | components/shared/VendorSide/settings/requestPayout/requestPayout.tsx:55 | reparsing the spelling gives back exactly the number spelled |
| JsStrings.TakeLast4 | components/shared/VendorSide/settings/paymentMethod/paymentMethod.tsx:189 | the result is at most four characters and is the end of the text |
| RequestPayout.ParsedAmount | components/shared/VendorSide/settings/requestPayout/requestPayout.tsx:40 | text that is not a number counts as 0; otherwise the parsed number |
| RequestPayout.NetAmount | components/shared/VendorSide/settings/requestPayout/requestPayout.tsx:41-42 | net is 95% of the amount, fee plus net is the amount, and for a non-negative amount 0 <= fee <= net <= amount |
| RequestPayout.AmountAfterEdit | components/shared/VendorSide/settings/requestPayout/requestPayout.tsx:44-52 | the cleaned text is stored when it has at most one '.', and otherwise the old text is kept; a well-formed field stays well formed |
| RequestPayout.AmountEditKeepsWellFormed | components/shared/VendorSide/settings/requestPayout/requestPayout.tsx:44-52 | typing an already well-formed amount stores it unchanged |
| RequestPayout.WellFormedAmountIsNonNegative | components/shared/VendorSide/settings/requestPayout/requestPayout.tsx:40 | whatever the field holds, the parsed amount is at least 0 |
| RequestPayout.MaxAmountParsesBack | components/shared/VendorSide/settings/requestPayout/requestPayout.tsx:54-56 | the balance's `toString` is a well-formed amount that parses back to the balance |
| RequestPayout.ValidatePayout | components/shared/VendorSide/settings/requestPayout/requestPayout.tsx:58-76 | each error is reported exactly when the earlier checks pass and its own fails, and none exactly when 500 <= amount <= balance and an account is chosen |
| RequestPayout.NoticesAgreeWithButton | components/shared/VendorSide/settings/requestPayout/requestPayout.tsx:208-248 | the two notices never show together; the ready notice shows exactly when the idle button is enabled, and then validation passes for any chosen account |
| RequestPayout.MethodDisplay | components/shared/VendorSide/settings/requestPayout/requestPayout.tsx:88 | the BDO label is given exactly for account "BDO" |
| RequestPayout.RequestPayoutModal.constructor | components/shared/VendorSide/settings/requestPayout/requestPayout.tsx:36-38 | the dialog starts with an empty amount, account "BDO" and not loading |
| RequestPayout.RequestPayoutModal.HandleAmountChange | components/shared/VendorSide/settings/requestPayout/requestPayout.tsx:44-52 | callable only while not loading; the amount becomes `AmountAfterEdit` of the old amount and stays well formed |
| RequestPayout.RequestPayoutModal.HandleMaxAmount | components/shared/VendorSide/settings/requestPayout/requestPayout.tsx:54-56 | callable only while not loading; the amount becomes the balance's spelling, and the parsed amount equals the balance |
| RequestPayout.RequestPayoutModal.SelectAccount | components/shared/VendorSide/settings/requestPayout/requestPayout.tsx:171-179 | callable only while not loading; sets one of the two offered accounts |
| RequestPayout.RequestPayoutModal.HandleRequestPayout | components/shared/VendorSide/settings/requestPayout/requestPayout.tsx:78-81 | the error is `ValidatePayout` of the current amount and account; a failure changes nothing, a pass starts loading with that request captured |
| RequestPayout.RequestPayoutModal.CompletePayout | components/shared/VendorSide/settings/requestPayout/requestPayout.tsx:85-98 | reports the captured amount, its label and its net; the amount is between 500 and the balance, and the form resets and closes |
| RequestPayout.RequestPayoutModal.HandleClose | components/shared/VendorSide/settings/requestPayout/requestPayout.tsx:101-107 | ignored while loading; otherwise resets the form and closes |
| PayoutSettings.ApplyEdit | components/shared/VendorSide/settings/payoutSettings/payoutSettings.tsx:77-82 | the named field takes the value, every other field keeps its old one, and the fee, which no control edits, never changes |
| PayoutSettings.ApplyEditOfSameValue | components/shared/VendorSide/settings/payoutSettings/payoutSettings.tsx:77-82 | writing a field's own value back changes nothing |
| PayoutSettings.FormatCurrency | components/shared/VendorSide/settings/payoutSettings/payoutSettings.tsx:84-87 | the result is a non-empty number spelling with at most one dot, and "0" when the cleaned text is NaN |
| PayoutSettings.FormatCurrencyKeepsValue | components/shared/VendorSide/settings/payoutSettings/payoutSettings.tsx:84-87 | the stored text parses to the number read from the input, or to 0 when none was read |
| PayoutSettings.CheckMinimumPayout | components/shared/VendorSide/settings/payoutSettings/payoutSettings.tsx:57-65 | below-minimum exactly when NaN or under 100, above-maximum exactly when over 50,000, and accepted exactly in between |
| PayoutSettings.TypedMinimumPayoutCheck | components/shared/VendorSide/settings/payoutSettings/payoutSettings.tsx:207 | a typed minimum payout passes the save check exactly when the number read from the typed text, or 0, is in range |
| PayoutSettings.InitialSettingsSave | components/shared/VendorSide/settings/payoutSettings/payoutSettings.tsx:32-39 | the initial settings pass the save check |
| PayoutSettings.FeeExample | components/shared/VendorSide/settings/payoutSettings/payoutSettings.tsx:263 | the example exists exactly when the fee text parses; the fee is 10 times the percent, and fee plus received is 1,000 |
| PayoutSettings.InitialFeeExample | components/shared/VendorSide/settings/payoutSettings/payoutSettings.tsx:263 | at 5% the example shows fee 50 and 950 received |
| PayoutSettings.PayoutSettingsModal.constructor | components/shared/VendorSide/settings/payoutSettings/payoutSettings.tsx:32-43 | saved settings and draft start as the initial settings, not editing |
| PayoutSettings.PayoutSettingsModal.Shown | components/shared/VendorSide/settings/payoutSettings/payoutSettings.tsx:130-132 | what the controls show is always the draft, which outside editing is the saved settings |
| PayoutSettings.PayoutSettingsModal.HandleEdit | components/shared/VendorSide/settings/payoutSettings/payoutSettings.tsx:45-48 | editing starts from a copy of the saved settings |
| PayoutSettings.PayoutSettingsModal.HandleCancel | components/shared/VendorSide/settings/payoutSettings/payoutSettings.tsx:50-53 | the draft is thrown away and editing ends |
| PayoutSettings.PayoutSettingsModal.HandleInputChange | components/shared/VendorSide/settings/payoutSettings/payoutSettings.tsx:77-82 | the draft takes `ApplyEdit`; saved settings are untouched |
| PayoutSettings.PayoutSettingsModal.HandleMinimumPayoutInput | components/shared/VendorSide/settings/payoutSettings/payoutSettings.tsx:207 | the draft's minimum payout becomes `FormatCurrency` of the typed text |
| PayoutSettings.PayoutSettingsModal.HandleSave | components/shared/VendorSide/settings/payoutSettings/payoutSettings.tsx:55-75 | a rejected draft changes nothing; an accepted one becomes the saved settings and editing ends |
| PaymentMethod.Group4Layout | components/shared/VendorSide/settings/paymentMethod/paymentMethod.tsx:101-102 | the grouped text has a space at every fifth position and the original characters, in order, everywhere else |
| PaymentMethod.Group4RoundTrip | components/shared/VendorSide/settings/paymentMethod/paymentMethod.tsx:99-103 | removing the spaces from grouped text without whitespace gives it back |
| PaymentMethod.FormatCardNumber | components/shared/VendorSide/settings/paymentMethod/paymentMethod.tsx:99-103 | formatting keeps the non-whitespace characters exactly |
| PaymentMethod.FormatCardNumberIdempotent | components/shared/VendorSide/settings/paymentMethod/paymentMethod.tsx:99-103 | formatting a formatted number changes nothing |
| PaymentMethod.AccountNumberInput | components/shared/VendorSide/settings/paymentMethod/paymentMethod.tsx:117 | the stored number's digits are the first sixteen digits typed |
| PaymentMethod.AccountNumberInputWellFormed | components/shared/VendorSide/settings/paymentMethod/paymentMethod.tsx:117 | the field holds at most nineteen characters, only digits and spaces, grouped by four |
| PaymentMethod.SixteenDigitLayout | components/shared/VendorSide/settings/paymentMethod/paymentMethod.tsx:136 | a well-formed number with sixteen digits is four groups of four separated by single spaces |
| PaymentMethod.MaskAccountNumber | components/shared/VendorSide/settings/paymentMethod/paymentMethod.tsx:187-190 | three masked groups and a space, then the last up-to-four non-whitespace characters |
| PaymentMethod.MaskIgnoresGrouping | components/shared/VendorSide/settings/paymentMethod/paymentMethod.tsx:187-190 | a number masks like its formatted form |
| PaymentMethod.MaskShowsLastFourDigits | components/shared/VendorSide/settings/paymentMethod/paymentMethod.tsx:187-190 | a saved sixteen-digit number shows exactly its last four digits |
| PaymentMethod.CvvInput | components/shared/VendorSide/settings/paymentMethod/paymentMethod.tsx:119 | the first three digits typed, or all of them when fewer |
| PaymentMethod.CvvInputIdempotent | components/shared/VendorSide/settings/paymentMethod/paymentMethod.tsx:119 | a stored CVV typed again is stored unchanged |
| PaymentMethod.FormatExpirationDate | components/shared/VendorSide/settings/paymentMethod/paymentMethod.tsx:105-111 | with two or more digits, "MM/" and up to two more digits; otherwise the digits as typed |
| PaymentMethod.ExpirationInput | components/shared/VendorSide/settings/paymentMethod/paymentMethod.tsx:121 | whatever is typed, the field holds a well-formed expiry |
| PaymentMethod.ExpirationInputKeepsComplete | components/shared/VendorSide/settings/paymentMethod/paymentMethod.tsx:121 | a complete "MM/YY" stays as it is when another character is typed |
| PaymentMethod.ExpirationSlashComesBack | components/shared/VendorSide/settings/paymentMethod/paymentMethod.tsx:105-111 | deleting the slash of "12/" gives "12/" again |
| PaymentMethod.ApplyInput | components/shared/VendorSide/settings/paymentMethod/paymentMethod.tsx:113-128 | the named field takes its formatter's output and the others are kept |
| PaymentMethod.ApplyInputKeepsWellFormed | components/shared/VendorSide/settings/paymentMethod/paymentMethod.tsx:113-128 | every input keeps the form well formed |
| PaymentMethod.EmptyFormWellFormed | components/shared/VendorSide/settings/paymentMethod/paymentMethod.tsx:71-76 | the empty form is well formed |
| PaymentMethod.SaveCheck | components/shared/VendorSide/settings/paymentMethod/paymentMethod.tsx:132-147 | each error is reported exactly when the earlier checks pass and its own fails, and none exactly when all four hold |
| PaymentMethod.AcceptedFormShape | components/shared/VendorSide/settings/paymentMethod/paymentMethod.tsx:132-147 | an accepted form holds a full card: four groups of four digits, a three-digit CVV and "MM/YY" |
| PaymentMethod.DeleteMethod | components/shared/VendorSide/settings/paymentMethod/paymentMethod.tsx:171-174 | removes exactly the methods with the id and keeps every other one |
| PaymentMethod.PaymentMethodModal.constructor | components/shared/VendorSide/settings/paymentMethod/paymentMethod.tsx:53-76 | the dialog starts with the two mock methods and an empty form |
| PaymentMethod.PaymentMethodModal.HandleAddNew | components/shared/VendorSide/settings/paymentMethod/paymentMethod.tsx:79-87 | opens an empty form |
| PaymentMethod.PaymentMethodModal.HandleCancelAdd | components/shared/VendorSide/settings/paymentMethod/paymentMethod.tsx:89-97 | closes and empties the form |
| PaymentMethod.PaymentMethodModal.HandleInputChange | components/shared/VendorSide/settings/paymentMethod/paymentMethod.tsx:113-128 | the form takes `ApplyInput` and stays well formed |
| PaymentMethod.PaymentMethodModal.HandleSaveMethod | components/shared/VendorSide/settings/paymentMethod/paymentMethod.tsx:130-169 | the error is `SaveCheck`; a failure changes nothing; a pass appends one method with the form's values and the given id, then empties and closes the form |
| PaymentMethod.PaymentMethodModal.HandleDeleteMethod | components/shared/VendorSide/settings/paymentMethod/paymentMethod.tsx:171-174 | the list becomes `DeleteMethod` of the old list |
| PaymentMethod.PaymentMethodModal.HandleClose | components/shared/VendorSide/settings/paymentMethod/paymentMethod.tsx:176-185 | empties and closes the form and closes the dialog |
| AddProductModal.Validate | components/shared/VendorSide/stock/addProductModal/addProductModal.tsx:46-57 | the name error exactly when the name is blank after trim, then stock, then price; none exactly when all three have text |
| AddProductModal.AcceptedFieldsHaveText | components/shared/VendorSide/stock/addProductModal/addProductModal.tsx:46-57 | an accepted product has a non-whitespace character in name, stock and price |
| AddProductModal.EmptyFormRejected | components/shared/VendorSide/stock/addProductModal/addProductModal.tsx:20-26 | the empty form is rejected for its name |
| AddProductModal.SetField | components/shared/VendorSide/stock/addProductModal/addProductModal.tsx:131 | the edited field takes the value and the others, including the image, are kept |
| AddProductModal.AddProductForm.constructor | components/shared/VendorSide/stock/addProductModal/addProductModal.tsx:20-28 | the form starts empty with category "Meat" |
| AddProductModal.AddProductForm.HandleFieldChange | components/shared/VendorSide/stock/addProductModal/addProductModal.tsx:131 | the draft takes `SetField`; preview and error are kept |
| AddProductModal.AddProductForm.HandleImageLoaded | components/shared/VendorSide/stock/addProductModal/addProductModal.tsx:36-39 | preview and the draft's image become the loaded data URL |
| AddProductModal.AddProductForm.HandleAddProduct | components/shared/VendorSide/stock/addProductModal/addProductModal.tsx:44-66 | a rejected draft only sets the error message; an accepted one is handed over as typed and the form resets |
| AddProductModal.AddProductForm.HandleCancel | components/shared/VendorSide/stock/addProductModal/addProductModal.tsx:68-73 | the form resets |
| Stock.RemoveProduct | components/shared/VendorSide/stock/stock.tsx:143 | removes exactly the products with the id and keeps every other one |
| Seqs.RemoveKeyAppend | components/shared/VendorSide/stock/stock.tsx:143 | removal by id (products here, payment methods at paymentMethod.tsx:172) works piece by piece on a split list, so the remaining order is kept |
| Seqs.RemoveMissingKey | components/shared/VendorSide/settings/paymentMethod/paymentMethod.tsx:172 | removing an id no element has leaves the list unchanged |
| Stock.ReplaceProduct | components/shared/VendorSide/stock/stock.tsx:180 | every row with the draft's id becomes the draft; other rows and all ids are kept |
| Stock.NewProductRow | components/shared/VendorSide/stock/stock.tsx:161-168 | the new row's id is the list length plus one and its price is the typed price after a peso sign |
| Stock.NumberedIds | components/shared/VendorSide/stock/stock.tsx:162 | a table numbered 1..n has unique ids, none above its length |
| Stock.InitialIds | components/shared/VendorSide/stock/stock.tsx:27-126 | the initial table is numbered 1..12 |
| Stock.AddKeepsIdsUnique | components/shared/VendorSide/stock/stock.tsx:161-169 | without deletions, adding keeps ids unique |
| Stock.NextIdCollidesAfterDelete | components/shared/VendorSide/stock/stock.tsx:141-169 | after deleting any row but the last of a table numbered 1..n, the next id equals the last row's id |
| Stock.InitialTableCollision | components/shared/VendorSide/stock/stock.tsx:141-169 | deleting "Ground Beef" and adding a product gives it id 12, the id "Jeans" still has |
| Stock.SetEditField | components/shared/VendorSide/stock/stock.tsx:223 | the edited field takes the value; id, image and the other fields are kept |
| Stock.StockTable.constructor | components/shared/VendorSide/stock/stock.tsx:128-132 | the table starts with the twelve products and nothing pending |
| Stock.StockTable.HandleDeleteClick | components/shared/VendorSide/stock/stock.tsx:136-139 | remembers the product and opens the confirmation |
| Stock.StockTable.ConfirmDelete | components/shared/VendorSide/stock/stock.tsx:141-147 | with a pending product, removes its id and closes; without one changes nothing |
| Stock.StockTable.CancelDelete | components/shared/VendorSide/stock/stock.tsx:149-152 | closes the confirmation and forgets the product |
| Stock.StockTable.OpenAddModal | components/shared/VendorSide/stock/stock.tsx:196 | opens the add form |
| Stock.StockTable.CloseAddModal | components/shared/VendorSide/stock/stock.tsx:359 | closes the add form |
| Stock.StockTable.HandleAddProduct | components/shared/VendorSide/stock/stock.tsx:154-171 | appends `NewProductRow` after the unchanged rows and closes the form |
| Stock.StockTable.HandleEditClick | components/shared/VendorSide/stock/stock.tsx:173-176 | the row's id and a copy of it become the draft |
| Stock.StockTable.HandleEditFieldChange | components/shared/VendorSide/stock/stock.tsx:223 | the draft takes `SetEditField` and keeps its id |
| Stock.StockTable.HandleSaveEdit | components/shared/VendorSide/stock/stock.tsx:178-184 | with a draft, rows with its id become the draft and editing ends; without one nothing changes |
| Stock.StockTable.HandleCancelEdit | components/shared/VendorSide/stock/stock.tsx:186-189 | editing ends and the draft is dropped |
| Orders.SetStatus | components/shared/VendorSide/home/orders/order.tsx:82-84 | orders with the id get the new status; every other order is kept |
| Orders.SetStatusKeepsOtherFields | components/shared/VendorSide/home/orders/order.tsx:82-84 | a status change touches nothing but statuses |
| Orders.SetStatusUnknownId | components/shared/VendorSide/home/orders/order.tsx:82-84 | a change for an unknown id leaves the orders as they are |
| Orders.CountStatus | components/shared/VendorSide/home/orders/order.tsx:87-89 | a counter never exceeds the number of orders |
| Orders.CountSplit | components/shared/VendorSide/home/orders/order.tsx:88 | counting over a split list adds up |
| Orders.CountOne | components/shared/VendorSide/home/orders/order.tsx:88 | one order counts once, under its own status |
| Orders.CountsSumToTotal | components/shared/VendorSide/home/orders/order.tsx:166-196 | the four counters add up to the number of orders |
| Orders.MoveOrderCounts | components/shared/VendorSide/home/orders/order.tsx:81-89 | with unique ids, moving an order to another status lowers its old counter by one, raises the new one by one and leaves the others |
| Orders.InitialCounts | components/shared/VendorSide/home/orders/order.tsx:28-69 | the counters start at 2, 1, 1 and 0 |
| Orders.OrdersComponent.constructor | components/shared/VendorSide/home/orders/order.tsx:79 | starts with the four mock orders |
| Orders.OrdersComponent.HandleStatusChange | components/shared/VendorSide/home/orders/order.tsx:81-85 | the orders become `SetStatus` of the old orders |
| Orders.OrdersComponent.GetOrderCount | components/shared/VendorSide/home/orders/order.tsx:87-89 | a counter is at most the number of orders |
| ChangePassword.Utf16Length | components/shared/VendorSide/settings/changePassword/changePassword.tsx:45 | the UTF-16 length lies between the character count and twice it |
| ChangePassword.Utf16LengthOfBmp | components/shared/VendorSide/settings/changePassword/changePassword.tsx:45 | without characters beyond the Basic Multilingual Plane the UTF-16 length is the character count |
| ChangePassword.CheckChange | components/shared/VendorSide/settings/changePassword/changePassword.tsx:39-61 | wrong current password first, then shorter than six, then mismatch, then unchanged; each exactly when the earlier checks pass and its own fails |
| ChangePassword.AcceptedPassword | components/shared/VendorSide/settings/changePassword/changePassword.tsx:39-63 | an accepted change had the right current password, was confirmed, has at least six code units and is never "merkago123" |
| ChangePassword.CurrentPasswordNeverAccepted | components/shared/VendorSide/settings/changePassword/changePassword.tsx:57 | "merkago123" as the new password is always refused |
| ChangePassword.ChangePasswordModal.constructor | components/shared/VendorSide/settings/changePassword/changePassword.tsx:26-29 | the three fields start empty and nothing is loading |
| ChangePassword.ChangePasswordModal.HandleFieldChange | components/shared/VendorSide/settings/changePassword/changePassword.tsx:101 | sets the one field typed into |
| ChangePassword.ChangePasswordModal.HandleSubmit | components/shared/VendorSide/settings/changePassword/changePassword.tsx:31-70 | submitted only with all three fields non-empty, as their `required` attribute demands; the error is `CheckChange`; a failure leaves the fields as typed and the dialog open, a success clears them and closes it; loading is off afterwards |
| ChangePassword.ChangePasswordModal.HandleClose | components/shared/VendorSide/settings/changePassword/changePassword.tsx:72-77 | clears the three fields and closes |
| ChatSupport.Send | components/shared/CustomerSide/chatSupport.tsx:17-21 | blank input changes nothing; otherwise exactly one user message with the untrimmed input is appended after the unchanged history and the input is cleared |
| ChatSupport.SendTwice | components/shared/CustomerSide/chatSupport.tsx:18-21 | a second send right after a send does nothing |
| ChatSupport.VisibleInputIsSent | components/shared/CustomerSide/chatSupport.tsx:18-20 | input with any non-whitespace character is appended verbatim |
| ChatSupport.ChatSheet.constructor | components/shared/CustomerSide/chatSupport.tsx:11-15 | the chat starts with the one support greeting, empty input and closed |
| ChatSupport.ChatSheet.SetOpen | components/shared/CustomerSide/chatSupport.tsx:36 | sets whether the sheet is open and nothing else |
| ChatSupport.ChatSheet.HandleInputChange | components/shared/CustomerSide/chatSupport.tsx:79 | sets the input and nothing else |
| ChatSupport.SendCounts | components/shared/CustomerSide/chatSupport.tsx:17-21 | a send adds one user message exactly when the input is not blank, and no reply |
| ChatSupport.ReplyCounts | components/shared/CustomerSide/chatSupport.tsx:24-29 | a delivered reply adds one reply and no user message |
| ChatSupport.ChatSheet.SendMessage | components/shared/CustomerSide/chatSupport.tsx:17-29 | messages and input become `Send` of the old ones; a reply is scheduled exactly when the input was not blank; user messages stay equal to replies delivered plus pending |
| ChatSupport.ChatSheet.DeliverReply | components/shared/CustomerSide/chatSupport.tsx:24-29 | runs only for a scheduled reply; exactly one fixed support reply is appended, one fewer is pending, and nothing else changes |

## Left out

- Rendering, styling, icons, toasts, `alert` and every other piece of UI feedback. The error datatypes stand for the toast messages.
- Timers and simulated delays:
  - Each asynchronous handler is one atomic step, so loading flags are false between steps. The exception is the payout request, whose pending state is modelled in two steps.
  - The chat reply timer is the separate step `DeliverReply`.
  - Interleavings of overlapping timers are not modelled.
- Dates are not parsed. Voucher expiry strings become UTC-midnight millisecond instants, and the current time is a parameter.
- `Date.now().toString()`, the new payment method's id, is the `freshId` parameter.
- Floating point is not modelled: amounts are exact reals. `toFixed` and `toLocaleString` only affect display text and are left out.
- `parseFloat` exponents (`1e3`), `Infinity`, and `Number.prototype.toString` exponent notation (at or above 1e21, below 1e-6) are left out.
- RequestPayoutModal.HandleMaxAmount: the balance is given by its decimal digits, so a negative or non-decimal balance is not modelled.
- The `FileReader` that produces an image's data URL is outside the model; `HandleImageLoaded` takes the URL it delivers.
- AddProductModal.AddProductForm.HandleImageLoaded: it applies the image to the current draft. The source's `onloadend` spreads the draft captured when the file was chosen, so edits typed while the file loads are lost. The model does not capture that.
- Each dialog's `open` flag is a field. `onOpenChange(false)` and `onClose()` become plain field updates or calls to the parent's method.
- Input controls the page disables are modelled as method preconditions:
  - While a password submit is loading.
  - A password submit with an empty field, which the inputs' `required` attribute blocks before `handleSubmit` runs.
  - While a payout request is pending: the amount input, the MAX button, the account select and the request button.
  - Settings inputs outside editing.
  - The inline stock editor when no row is being edited.
- `[field]: value` writes with an untyped field name are modelled only for the field names the inputs pass.
- PaymentMethod.ExpirationInput: `value.slice(0, 5)` cuts UTF-16 code units before the digits are kept; the model cuts characters. The two differ only when a character outside the Basic Multilingual Plane comes before the fifth position.
- In the `/.{1,4}/g` grouping, `.` is modelled per character. UTF-16 surrogate pairs never reach it, because only digits do.
- The browser's `maxLength` limits on the payment inputs are not modelled. The handlers' own `slice` limits are.
- Other vendor and customer screens are not part of this model: premium subscription, ad placement and insights, store info, profile editing, feedback, sales, navigation bars and product listings.

## Findings

| source | as written | input that shows it | evidently intended | confidence | as-written member | corrected member |
|---|---|---|---|---|---|---|
| app/customerPage/voucher/page.tsx:216-233 | the reward buttons are drawn from the constant `MOCK_REWARDS`, whose `claimed` is always false, so the guard and the "Claimed" label ignore the `rewards` state that `handleClaimReward` updates | 1250 points; claim Free Coffee (500): 750 remain and the button stays enabled; a second claim leaves 250 | draw the buttons from `rewards`, so that a claimed reward's button is disabled and labelled "Claimed" | high; not executed | VoucherPage.RepeatClaimThroughRenderedButton | VoucherPage.ClaimDisablesButton |
