# Kirana point-of-sale core, in Dafny

This project models the logic of a small shop's billing app (a "kirana" store).
The app keeps its data in the browser:
- a catalogue of items with English and Kannada names;
- the recorded sales;
- udhaar (customer credit) entries;
- expenses;
- the store settings, including a 4–6 digit PIN.

The model covers these parts of the app:
- **Entity store** (`hooks/useStore.ts`). The class `Store.EntityStore` holds the five collections and a ghost map standing for the browser's storage slots. Every change goes through a per-collection setter. The setter replaces the collection and writes it to that collection's own slot. A write may fail silently.
- **Billing screen** (`components/BillingTab.tsx`). It covers:
  - line amounts rounded half up to whole cents;
  - the bill total;
  - item search, where a leading number picks a catalogue position and otherwise names are matched;
  - the cart edits;
  - printing a bill.
- **Receipt** (`utils/print.ts`). This is what `generateReceipt` would print, returned as a structured `Receipt.Document`.
- **Reports and udhaar screens.** They cover:
  - same-day and same-month buckets;
  - revenue, expenses and net profit;
  - the ten most recent sales;
  - the paid/unpaid split and the outstanding credit;
  - the add-expense and add-entry forms.
- **Items and settings screens.** They cover the item form check and its save, saving the store details, and the three-step PIN change.
- **App shell** (`App.tsx`). This is the PIN keypad that guards the app, plus the lock button.

Modelling decisions:
- **Money.** Amounts are exact `real`s. `Math.round` is floor(x + 0.5). `Numbers.Round2` rounds to whole cents the way `Math.round(x * 100) / 100` does.
- **JavaScript builtins** are written out over `seq<char>`:
  - `parseInt` and `parseFloat` on plain decimal text;
  - `trim` and `toLowerCase` with ASCII folding;
  - `includes` and `startsWith`;
  - `localeCompare` on ISO dates, as lexicographic order;
  - `replace(/\D/g, "")`.
- **Values passed in.** The clock, the random ids and the outcome of each storage write are parameters. A new id must not already be in use.
- **Pending timers.** The keypad's 500 ms clear-timer is an explicit step, `App.AppScreen.ResetTimer`.

Observations the proofs bring out:
- The quantity dialog's discount is not clamped, unlike the cart's discount field. So a discount above 100% gives a line of negative amount (`Billing.DialogDiscountCanGoNegative`).
- The keypad can only ever be unlocked when the stored PIN is one to six digits (`App.UnlockNeedsShortDigitPin`). Every PIN that the settings screen accepts is of that shape (`App.ChangedPinUnlocks`).

## Model

| member | source | states |
|---|---|---|
| Store.SaveToStorage | src/frontend/src/hooks/useStore.ts:94-100 | a successful write puts the value in its own slot; a failed write changes nothing; every other slot is untouched |
| Store.SaveThenLoad | src/frontend/src/hooks/useStore.ts:84-100 | what a successful save wrote is read back unchanged |
| Store.LoadFallback | src/frontend/src/hooks/useStore.ts:84-92 | a missing slot, or one that does not decode, loads as the fallback |
| Store.LoadFromStorage | src/frontend/src/hooks/useStore.ts:84-92 | a present slot that decodes loads as its decoded value |
| Store.EntityStore.constructor | src/frontend/src/hooks/useStore.ts:109-132 | each collection is loaded from its slot with its fallback; with no stored catalogue the default items are used and saved |
| Store.EntityStore.SetItems | src/frontend/src/hooks/useStore.ts:135-141 | the catalogue is replaced and written to the items slot only; the other collections are unchanged |
| Store.EntityStore.SetSales | src/frontend/src/hooks/useStore.ts:143-149 | the sales are replaced and written to the sales slot only |
| Store.EntityStore.SetUdhaar | src/frontend/src/hooks/useStore.ts:151-160 | the credit entries are replaced and written to the udhaar slot only |
| Store.EntityStore.SetExpenses | src/frontend/src/hooks/useStore.ts:162-171 | the expenses are replaced and written to the expenses slot only |
| Store.EntityStore.SetSettings | src/frontend/src/hooks/useStore.ts:173-182 | the settings are replaced and written to the settings slot only |
| Store.AppendFreshKeepsIdsDistinct | src/frontend/src/hooks/useStore.ts:186-193 | appending a record with an unused id keeps all ids distinct |
| Store.EntityStore.AddItem | src/frontend/src/hooks/useStore.ts:186-193 | exactly one item with the given fields and the new id is appended; earlier items and all other collections are unchanged |
| Store.UpdateItemsById | src/frontend/src/hooks/useStore.ts:195-202 | same length, order and ids; matching items take every supplied field; others are unchanged; no change when the id is absent |
| Store.UpdateKeepsIdsDistinct | src/frontend/src/hooks/useStore.ts:195-202 | updating an item keeps the catalogue's ids distinct |
| Store.EntityStore.UpdateItem | src/frontend/src/hooks/useStore.ts:195-202 | the catalogue becomes the merged one and is saved; nothing else changes |
| Store.WithoutId | src/frontend/src/hooks/useStore.ts:204-209 | every record with the id is removed and every other record kept, in order; no change when the id is absent; distinct ids stay distinct |
| Store.EntityStore.DeleteItem | src/frontend/src/hooks/useStore.ts:204-209 | the catalogue loses the item with the id and is saved; nothing else changes |
| Store.EntityStore.AddSale | src/frontend/src/hooks/useStore.ts:213-226 | one sale is appended: its lines are the given cart, its total the given total (not recomputed) and its store name the current English store name |
| Store.EntityStore.AddUdhaarEntry | src/frontend/src/hooks/useStore.ts:230-242 | one unpaid entry with the given name, amount and note is appended |
| Store.MarkPaidById | src/frontend/src/hooks/useStore.ts:244-251 | an entry becomes paid exactly when it was paid or its id matches; its other fields are unchanged; no change when the id is absent |
| Store.MarkPaidIdempotent | src/frontend/src/hooks/useStore.ts:244-251 | marking the same id paid twice equals marking it once |
| Store.EntityStore.MarkUdhaarPaid | src/frontend/src/hooks/useStore.ts:244-251 | the entries are replaced by their marked version and saved |
| Store.EntityStore.DeleteUdhaarEntry | src/frontend/src/hooks/useStore.ts:253-258 | the entry with the id is removed and the rest saved in order |
| Store.EntityStore.AddExpense | src/frontend/src/hooks/useStore.ts:262-273 | one expense with the given description and amount is appended |
| Store.EntityStore.DeleteExpense | src/frontend/src/hooks/useStore.ts:275-280 | the expense with the id is removed and the rest saved in order |
| Store.MergeSettings | src/frontend/src/hooks/useStore.ts:284-289 | each supplied field replaces the old one; every unspecified field keeps its value |
| Store.EntityStore.UpdateSettings | src/frontend/src/hooks/useStore.ts:284-289 | the settings become the merged ones and are saved; the collections are unchanged |
| Numbers.MathRound | src/frontend/src/components/BillingTab.tsx:34 | the result is within half of x, with halves going up |
| Numbers.Round2 | src/frontend/src/components/BillingTab.tsx:34 | the result is whole cents within half a cent of x |
| Numbers.Round2Unique | src/frontend/src/components/BillingTab.tsx:34 | the rounded amount is the only whole-cent amount in that half-cent window |
| Numbers.PositiveNumber | src/frontend/src/components/ReportsTab.tsx:118-119 | a value is accepted exactly when it parses to a number above zero |
| Text.Trim | src/frontend/src/components/BillingTab.tsx:50 | the result is a slice of the input whose cut-off start and end are all white space, and it has no white space at either end itself, so it is the input less its white-space ends; it is empty exactly when the input is all white space |
| Text.TrimIdempotent | src/frontend/src/components/ItemsTab.tsx:95-96 | trimming twice equals trimming once |
| Text.Contains | src/frontend/src/components/BillingTab.tsx:58-59 | `includes` holds exactly when the query occurs at some position |
| Text.StripNonDigits | src/frontend/src/components/SettingsTab.tsx:186 | the result is all digits, in their input order, and holds each digit exactly as often as the input does |
| Text.StripNonDigitsIdempotent | src/frontend/src/components/SettingsTab.tsx:186 | stripping twice equals stripping once |
| Text.LexLeTotal | src/frontend/src/components/UdhaarTab.tsx:78 | any two dates are ordered one way or the other |
| Text.LexLeTransitive | src/frontend/src/components/UdhaarTab.tsx:78 | the date order is transitive |
| Seqs.Filter | src/frontend/src/components/ReportsTab.tsx:76 | the kept elements are exactly those that pass, none more often than in the input |
| Seqs.FilterIsSubsequence | src/frontend/src/components/ReportsTab.tsx:76 | what `filter` keeps stays in its original order |
| Seqs.Take | src/frontend/src/components/ReportsTab.tsx:113 | `slice(0, n)` keeps the first min(n, length) elements |
| Sorting.SortByDateDesc | src/frontend/src/components/ReportsTab.tsx:113 | the sorted list is a permutation of the input |
| Sorting.SortIsSorted | src/frontend/src/components/ReportsTab.tsx:113 | the sorted list is ordered newest first |
| Sorting.SumOfSort | src/frontend/src/components/UdhaarTab.tsx:88-91 | sorting does not change a sum over the list |
| Billing.CalcSubtotal | src/frontend/src/components/BillingTab.tsx:32-35 | the line amount is whole cents within half a cent of price × quantity × (1 − discount/100) |
| Billing.CartTotal | src/frontend/src/components/BillingTab.tsx:64-67 | defined as the sum of the line amounts; CartTotalIsCents, CartTotalAppend and RowSumIsCartTotal state its properties |
| Billing.SubtotalExamples | src/frontend/src/components/BillingTab.tsx:32-35 | 2 × 100 at 10% off is 180, and 1 × 10 at 33% off is 6.70 |
| Billing.ReceiptSubtotalAgrees | src/frontend/src/utils/print.ts:13-17 | the receipt's line amount equals the billing screen's |
| Billing.CartTotalIsCents | src/frontend/src/components/BillingTab.tsx:64-67 | the plain sum of line amounts is whole cents, so the total needs no further rounding |
| Billing.CartTotalAppend | src/frontend/src/components/BillingTab.tsx:64-67 | adding a line adds exactly its amount to the total |
| Billing.FilteredItems | src/frontend/src/components/BillingTab.tsx:49-62 | a blank query returns the catalogue unchanged; a query starting with an in-range number n returns exactly the n-th item |
| Billing.SearchByName | src/frontend/src/components/BillingTab.tsx:56-61 | otherwise the result is the items whose lower-cased English name or Kannada name contains the query; the `startsWith` test adds nothing |
| Billing.SearchKeepsOrder | src/frontend/src/components/BillingTab.tsx:49-62 | every result is a catalogue item, in catalogue order |
| SearchExamples.SearchByPositionExample | src/frontend/src/components/BillingTab.tsx:52-54 | over Rice, Sugar and Salt, the query "2" gives Sugar |
| SearchExamples.SearchByNameExample | src/frontend/src/components/BillingTab.tsx:56-61 | over Rice, Sugar and Salt, the query " Lt" gives Salt |
| Billing.FindLine | src/frontend/src/components/BillingTab.tsx:80 | the index of the first line for the item, or -1 when there is none |
| Billing.QtyOrOne | src/frontend/src/components/BillingTab.tsx:77 | an unparseable or zero quantity gives exactly 1; any other parsed value is kept |
| Billing.ClampPercent | src/frontend/src/components/BillingTab.tsx:112 | below 0 gives 0, above 100 gives 100, and a value inside 0–100 is left alone |
| Billing.AddLine | src/frontend/src/components/BillingTab.tsx:79-89 | an item already in the cart has its quantity increased and its discount replaced; otherwise a new line is appended; one line per item is kept |
| Billing.AddFromDialog | src/frontend/src/components/BillingTab.tsx:76-89 | a new item is appended as one line with the parsed quantity (1 when unparseable or zero) and discount (0 when unparseable); a present item's line keeps its place and item, its quantity grows by that quantity and its discount becomes that discount, and every other line is unchanged; one line per item is kept |
| Billing.DialogDiscountCanGoNegative | src/frontend/src/components/BillingTab.tsx:78 | the dialog's discount is not clamped: 150% off gives a negative line amount and a negative total |
| Billing.RemoveLine | src/frontend/src/components/BillingTab.tsx:95-97 | only the item's line is removed; one line per item is kept |
| Billing.ChangeQty | src/frontend/src/components/BillingTab.tsx:99-109 | the result is an order-preserving subsequence of the stepped lines: the item's quantity becomes max(0.5, q + delta), lines with quantity ≤ 0 are dropped, every other line is kept, and one line per item is kept |
| Billing.SetLineDiscount | src/frontend/src/components/BillingTab.tsx:111-116 | only the matching line's discount changes |
| Billing.RowSumIsCartTotal | src/frontend/src/components/BillingTab.tsx:64-67 | receipt rows for a cart add up to the cart's total |
| Billing.PrintedTotalIsRowSum | src/frontend/src/utils/print.ts:111 | for a bill recorded by printing, the stored total shown on the receipt equals the sum of its rows |
| Billing.BillingScreen.constructor | src/frontend/src/components/BillingTab.tsx:42-46 | empty search and cart, no selection, quantity "1", discount "0" |
| Billing.BillingScreen.OpenQtyDialog | src/frontend/src/components/BillingTab.tsx:69-73 | the dialog opens for the item with quantity "1" and discount "0" |
| Billing.BillingScreen.AddToCart | src/frontend/src/components/BillingTab.tsx:75-93 | without a selection nothing changes; otherwise the parsed quantity and discount are merged into the cart, and the selection and search are cleared |
| Billing.BillingScreen.MergeSelected | src/frontend/src/components/BillingTab.tsx:79-91 | the selected item's line is merged into the cart by AddLine, the selection and search are cleared, and one line per item is kept |
| Billing.BillingScreen.RemoveFromCart | src/frontend/src/components/BillingTab.tsx:95-97 | the cart loses the item's line |
| Billing.BillingScreen.UpdateCartQty | src/frontend/src/components/BillingTab.tsx:99-109 | the cart becomes the stepped and filtered one |
| Billing.BillingScreen.UpdateCartDiscount | src/frontend/src/components/BillingTab.tsx:111-116 | the line takes the parsed discount clamped to 0–100 |
| Billing.BillingScreen.ClearCart | src/frontend/src/components/BillingTab.tsx:118-121 | the cart and search are emptied |
| Billing.BillingScreen.PrintBill | src/frontend/src/components/BillingTab.tsx:123-132 | an empty cart fails and records nothing; otherwise exactly one sale of the cart at its total is recorded, its receipt produced, and the cart and search cleared |
| Receipt.ItemSubtotal | src/frontend/src/utils/print.ts:13-17 | the line amount is whole cents |
| Receipt.ItemName | src/frontend/src/utils/print.ts:19-27 | the English name is shown exactly for "en", for an empty Kannada name, or when both names are equal; otherwise the Kannada name ("kn") or "English / Kannada" ("both") |
| Receipt.HeaderStoreName | src/frontend/src/utils/print.ts:33-38 | the header is chosen by print language, falling back to the English name when the Kannada one is empty |
| Receipt.Footer | src/frontend/src/utils/print.ts:40-46 | the English thank-you appears unless the language is "kn", the Kannada one unless it is "en", with English first for "both" |
| Receipt.GenerateReceipt | src/frontend/src/utils/print.ts:29-117 | the title is "Bill - " and the English store name; the header is HeaderStoreName and the footer Footer for the print language; the date is the sale's; the printed total is `sale.total`; the page language is "kn" exactly for "kn" and "both"; a phone line exactly when the phone is non-empty; one row per line, named by ItemName, with its quantity, rate and amount, and a discount note exactly when the discount is positive |
| Reports.SameDayIsSameMonth | src/frontend/src/components/ReportsTab.tsx:31-37 | a shared 10-character day prefix implies a shared 7-character month prefix |
| Reports.IsSameDay | src/frontend/src/components/ReportsTab.tsx:31-33 | defined as equality of the first 10 characters; SameDayIsSameMonth relates it to IsSameMonth |
| Reports.IsSameMonth | src/frontend/src/components/ReportsTab.tsx:35-37 | defined as equality of the first 7 characters; MonthBoundary shows the month edge |
| Reports.TodaySales | src/frontend/src/components/ReportsTab.tsx:75-78 | a sale is kept exactly when it is one of the sales and falls on today's date |
| Reports.MonthSales | src/frontend/src/components/ReportsTab.tsx:80-83 | a sale is kept exactly when it is one of the sales and falls in today's month |
| Reports.TodayExpenses | src/frontend/src/components/ReportsTab.tsx:85-88 | an expense is kept exactly when it is one of the expenses and falls on today's date |
| Reports.MonthExpenses | src/frontend/src/components/ReportsTab.tsx:90-93 | an expense is kept exactly when it is one of the expenses and falls in today's month |
| Reports.Revenue | src/frontend/src/components/ReportsTab.tsx:95-103 | the sum of the sale totals, never negative when no total is |
| Reports.ExpenseTotal | src/frontend/src/components/ReportsTab.tsx:105-108 | the sum of the expense amounts, never negative when no amount is |
| Reports.NetProfit | src/frontend/src/components/ReportsTab.tsx:110 | defined as the month's revenue less the month's expenses; NetProfitCanBeNegative shows it can fall below zero |
| Reports.MonthBoundary | src/frontend/src/components/ReportsTab.tsx:35-37 | the last moment of January is in January, not February |
| Reports.TodaySalesWithinMonth | src/frontend/src/components/ReportsTab.tsx:75-83 | today's sales are the same-day filter of this month's sales, hence a subsequence of them |
| Reports.TodayExpensesWithinMonth | src/frontend/src/components/ReportsTab.tsx:85-93 | the same for expenses |
| Reports.TodayRevenueAtMostMonth | src/frontend/src/components/ReportsTab.tsx:95-103 | with non-negative totals, today's revenue is at most the month's |
| Reports.NetProfitCanBeNegative | src/frontend/src/components/ReportsTab.tsx:105-110 | a month with no sales and a 500 expense has net profit −500 |
| Reports.RecentSales | src/frontend/src/components/ReportsTab.tsx:112-115 | min(count, 10) sales, newest first, each taken from the sales, and no sale left out is newer than one kept |
| Reports.ReportsScreen.constructor | src/frontend/src/components/ReportsTab.tsx:70-72 | the expense form starts closed and empty |
| Reports.ReportsScreen.HandleAddExpense | src/frontend/src/components/ReportsTab.tsx:117-128 | a blank description or an amount that is not above zero is refused; otherwise the trimmed description is added and the form reset |
| Udhaar.ListsSorted | src/frontend/src/components/UdhaarTab.tsx:74-86 | both lists are newest first |
| Udhaar.Unpaid | src/frontend/src/components/UdhaarTab.tsx:74-80 | an entry is listed exactly when it is one of the entries and is unpaid |
| Udhaar.Paid | src/frontend/src/components/UdhaarTab.tsx:82-86 | an entry is listed exactly when it is one of the entries and is paid |
| Udhaar.TotalOutstanding | src/frontend/src/components/UdhaarTab.tsx:88-91 | the sum over the unpaid list, never negative when no amount is |
| Udhaar.Partition | src/frontend/src/components/UdhaarTab.tsx:74-86 | together the two lists hold every entry exactly as often as the entries do, the counts add up, and each entry is in the unpaid list exactly when unpaid and in the paid list exactly when paid |
| Udhaar.OutstandingIsUnpaidSum | src/frontend/src/components/UdhaarTab.tsx:88-91 | the outstanding total is the sum of the unpaid amounts, in any order |
| Udhaar.SettledUnpaidSum | src/frontend/src/components/UdhaarTab.tsx:88-91 | settling an id removes exactly the unpaid amounts carrying that id |
| Udhaar.MarkPaidLowersOutstanding | src/frontend/src/components/UdhaarTab.tsx:88-91 | with distinct ids, settling an unpaid entry lowers the outstanding total by exactly its amount |
| Udhaar.OutstandingOfThree | src/frontend/src/components/UdhaarTab.tsx:88-91 | with the middle of three entries paid, the outstanding total is the other two amounts |
| Udhaar.OutstandingExample | src/frontend/src/components/UdhaarTab.tsx:88-91 | unpaid 100 and 30 with paid 50 leave 130 outstanding |
| Udhaar.UdhaarScreen.constructor | src/frontend/src/components/UdhaarTab.tsx:67-71 | the form starts closed and empty |
| Udhaar.UdhaarScreen.HandleAdd | src/frontend/src/components/UdhaarTab.tsx:93-108 | a blank name or an amount not above zero is refused with nothing added; otherwise the trimmed name and note are added unpaid and the form reset |
| Udhaar.UdhaarScreen.HandleMarkPaid | src/frontend/src/components/UdhaarTab.tsx:111-114 | the store marks the id paid |
| Udhaar.UdhaarScreen.HandleDelete | src/frontend/src/components/UdhaarTab.tsx:116-120 | the entry is removed and the confirmation closed |
| ItemsTab.ErrorsOf | src/frontend/src/components/ItemsTab.tsx:82-90 | a name error exactly when the trimmed name is empty, a price error exactly when the price is not a number above zero, and no error exactly when both pass |
| ItemsTab.FormData | src/frontend/src/components/ItemsTab.tsx:94-99 | the saved record has the trimmed names, the parsed price and the unit |
| ItemsTab.SavedNamesAreTrimmed | src/frontend/src/components/ItemsTab.tsx:94-99 | saved names carry no white space at either end |
| ItemsTab.EditWithoutChangesKeepsItem | src/frontend/src/components/ItemsTab.tsx:70-108 | a trimmed item opened for editing and saved unchanged stays exactly as it was |
| ItemsTab.ItemsScreen.constructor | src/frontend/src/components/ItemsTab.tsx:57-61 | closed dialog, nothing being edited, the empty form |
| ItemsTab.ItemsScreen.OpenAdd | src/frontend/src/components/ItemsTab.tsx:63-68 | the empty form with unit "kg", nothing being edited, no errors |
| ItemsTab.ItemsScreen.OpenEdit | src/frontend/src/components/ItemsTab.tsx:70-80 | the form holds the item's fields and the item is being edited |
| ItemsTab.ItemsScreen.SelectUnit | src/frontend/src/components/ItemsTab.tsx:257-258 | only the form's unit changes, to one of the listed units |
| ItemsTab.ItemsScreen.Validate | src/frontend/src/components/ItemsTab.tsx:82-90 | the recorded errors are those of the form, and the result is true exactly when there are none |
| ItemsTab.ItemsScreen.HandleSave | src/frontend/src/components/ItemsTab.tsx:92-108 | an invalid form touches no data; a valid one updates the edited item with every field, or adds a new item, and closes the dialog |
| ItemsTab.ItemsScreen.HandleDelete | src/frontend/src/components/ItemsTab.tsx:110-114 | the item is removed and the confirmation closed |
| SettingsTab.PinChangeError | src/frontend/src/components/SettingsTab.tsx:59-72 | the change passes exactly when the current PIN matches, the new one is 4–6 digits and the confirmation matches; otherwise the first failed check's message, in that order |
| SettingsTab.ChangedPinIsValid | src/frontend/src/components/SettingsTab.tsx:73 | a successful change leaves a 4–6 digit PIN and changes no other setting |
| SettingsTab.SaveSettingsKeepsPin | src/frontend/src/components/SettingsTab.tsx:50-55 | saving the details keeps the PIN and stores the trimmed name and the chosen language |
| SettingsTab.PinInput | src/frontend/src/components/SettingsTab.tsx:181-186 | a PIN input holds at most six digits |
| SettingsTab.SettingsScreen.constructor | src/frontend/src/components/SettingsTab.tsx:26-43 | the form starts from the current settings, the PIN inputs empty |
| SettingsTab.SettingsScreen.SetCurrentPin | src/frontend/src/components/SettingsTab.tsx:181-188 | the current-PIN input keeps only the typed digits |
| SettingsTab.SettingsScreen.SetNewPin | src/frontend/src/components/SettingsTab.tsx:213-220 | the new-PIN input keeps only the typed digits |
| SettingsTab.SettingsScreen.SetConfirmPin | src/frontend/src/components/SettingsTab.tsx:243-250 | the confirm input keeps only the typed digits |
| SettingsTab.SettingsScreen.HandleSaveSettings | src/frontend/src/components/SettingsTab.tsx:45-57 | a blank English store name is refused; otherwise the trimmed names and phone and the language are saved, and the PIN kept |
| SettingsTab.SettingsScreen.HandleChangePin | src/frontend/src/components/SettingsTab.tsx:59-76 | the first failed check is shown with no update; on success only the PIN changes and the three inputs are cleared |
| App.PressKey | src/frontend/src/App.tsx:50-69 | unlocks exactly when fewer than six digits were entered and the new entry equals the PIN; a full entry ignores the key; otherwise one digit is appended; the error is set exactly for a wrong entry of the PIN's length, which also sets the shake and starts a clear-timer; every other accepted key leaves the shake as it was |
| App.ResetFires | src/frontend/src/App.tsx:63-66 | the timer empties the entry and stops the shake |
| App.DeleteKey | src/frontend/src/App.tsx:71-74 | the last digit, if any, is dropped and the error cleared |
| App.TypingRestUnlocks | src/frontend/src/App.tsx:50-69 | typing the rest of the PIN on a keypad holding its first digits unlocks |
| App.TypingPinUnlocks | src/frontend/src/App.tsx:50-69 | a PIN of one to six characters opens a fresh keypad |
| App.UnlockNeedsShortDigitPin | src/frontend/src/App.tsx:50-69 | if digit keys ever unlock, the PIN is one to six digits |
| App.ChangedPinUnlocks | src/frontend/src/components/SettingsTab.tsx:59-76 | any PIN the settings screen accepts opens the keypad |
| App.DefaultPinUnlocks | src/frontend/src/hooks/useStore.ts:67 | the default PIN opens the keypad |
| App.AppScreen.Shown | src/frontend/src/App.tsx:167-179 | the keypad is shown exactly while locked |
| App.AppScreen.constructor | src/frontend/src/App.tsx:164-165 | the app starts locked on the billing tab |
| App.AppScreen.HandleKey | src/frontend/src/App.tsx:50-69 | the keypad takes the key; the app unlocks only when the entry equals the stored PIN; at most six digits are ever held |
| App.AppScreen.HandleDelete | src/frontend/src/App.tsx:71-74 | the keypad drops its last digit |
| App.AppScreen.ResetTimer | src/frontend/src/App.tsx:63-66 | a pending clear-timer fires |
| App.AppScreen.Lock | src/frontend/src/App.tsx:199 | the app locks and shows a fresh keypad |
| App.AppScreen.SelectTab | src/frontend/src/App.tsx:264 | only the open tab changes |

## Left out

- Storage: `localStorage`, `JSON.stringify` and `JSON.parse` are modelled as a map of typed slots. A slot holds either a value of the right kind or unreadable content. JSON whose shape is wrong but parses anyway, and a stored literal `null` for a collection other than items, are not modelled.
- Ids and time: `generateId`, `new Date().toISOString()` and the local-time formatting of dates are parameters or left out. A new id is required to be unused, whereas the app's ids are only probably unique.
- Numbers: IEEE-754 floating point is not modelled; amounts are exact reals. `toFixed(2)` and number-to-text formatting are left out. `parseFloat` does not read exponents, `Infinity` or hexadecimal.
- Text: `trim` knows only the common white-space characters, and `toLowerCase` folds only ASCII letters.
- Day and month buckets compare prefixes of UTC timestamps, as the source does. The model does not relate them to the local calendar day.
- Sorting.SortByDateDesc: a stable insertion by date, newest first, but its stability, which `Array.prototype.sort` also has, is not stated. So Reports.RecentSales, Udhaar.Unpaid and Udhaar.Paid leave open the order of records with equal timestamps, and which of them are kept at the ten-sale cut.
- Rendering: the HTML text, the `window.open`/`print` calls, toasts, dialogs, the show-PIN toggles and the dialog's live subtotal preview are presentation only.
- ItemsTab.ItemsScreen.OpenEdit: takes the price text as a parameter instead of computing `String(item.price)`.
- App.AppScreen.HandleKey: each `setState` is applied at once. Several presses between renders, which would all see the same stale entry, are not modelled.
- App.AppScreen.ResetTimer: a pending clear-timer is modelled as a step that may run at any later point. Timers left over from before a lock are dropped, because the keypad they target is unmounted.
