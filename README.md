# zynklocal order intake, modelled in Dafny

zynklocal lets local shops take orders in two ways. Customers can send chat
messages to a WhatsApp number (`menu <shopPhone>`, `order <shopPhone> <letter|code|name> <qty> ...`,
`status <orderId>`), or they can use a web storefront. Shop owners follow the
orders on a dashboard.

This project models the core of that order intake:

- the Express backend (`services/backend/server.js`):
  - the chat webhook's command interpreter;
  - the phone normalisation shared by the login, order and address routes;
  - order numbering through the per-shop `lastOrderNumber` and the named counters of `models/Counter.js`;
  - the web order route, the status route, the saved-address routes and the one-time-password store;
- the alternative router `routes/orders.js`;
- the decisions the front ends make before they call the backend:
  - the owner dashboard's item form, status buttons, availability toggle and order labels;
  - the cart's address selection;
  - the profile menu's address editor;
  - the OTP login page;
  - the socket hook's listener registry;
  - the request helper `apiFetch`.

One module per source file:

| file | module | models |
|---|---|---|
| `wrappers.dfy` | `Wrappers` | `Option` and `Result` |
| `text.dfy` | `Text` | the JavaScript string operations the code relies on: `replace(/\D/g, "")`, `trim`, `split(/\s+/)`, `padStart`, `parseInt`, `String(n)` |
| `counter.dfy` | `Counter` | `Counter.next`: a class over the map of counters, plus the values a run of calls issues |
| `phone_input.dfy` | `Phones` | `normalizePhoneInput` and the address routes' phone rule |
| `chat_commands.dfy` | `ChatCommands` | the webhook: tokens, dispatch, item/quantity pairs, item resolution, pricing, the menu listing |
| `order_desk.dfy` | `OrderDesk` | the stores the webhook and web routes change: class `Desk` with shops, shop counters and orders |
| `orders_route.dfy` | `OrdersRoute` | `routes/orders.js`: pricing loop, order creation, paging |
| `addresses.dfy` | `Addresses` | the add, edit and delete address routes on class `AddressBook` |
| `otp_store.dfy` | `OtpStore` | `send-otp` and `verify-otp` over the code store, class `OtpService` |
| `owner_dashboard.dfy` | `OwnerDashboard` | the item form (class `ItemForm`), validation, payload, availability toggle, status buttons, order label |
| `cart.dfy` | `Cart` | the default address, the selection state (class `CartSelection`), `canPlace`, `phoneForUI` |
| `profile_menu.dfy` | `ProfileMenu` | the address editor's phone handling, save request and delete guard |
| `otp_login.dfy` | `OtpLogin` | the login page's phone formatting and validation, and the two request bodies |
| `socket_listeners.dfy` | `SocketListeners` | the listener registry (class `ListenerRegistry`), dispatch, rooms, backend URL |
| `api_client.dfy` | `ApiClient` | `getApiBase`, URL joining, headers, fetch options and the response object |

Points where the code's behaviour may surprise:

- The status route writes any non-empty status. No transition order is enforced on the server, and there is no cancelled state. The order life cycle exists only in the dashboard's buttons, which `OwnerDashboard.EnabledFollowsChain` states.
- The chat path numbers orders with the shop counter only. The web path moves the shop counter and then replaces its value with the global `orderNumber` counter, falling back to a second shop increment when the counter fails. The model does exactly this (`OrderDesk.Desk.NumberWebOrder`).
- A chat order is all or nothing: one unresolved token rejects the whole message.

## Model

| member | source | states |
|---|---|---|
| Counter.Bump | services/backend/models/Counter.js:15-20 | one `next(name)` raises that counter by one, creating it at 0 first, and leaves every other counter alone |
| Counter.IssuedAt | services/backend/models/Counter.js:13-21 | in any run of `next` calls, the k-th call on a name returns the counter's starting value plus the number of calls on that name so far |
| Counter.IssuedStrictlyIncreasing | services/backend/models/Counter.js:13-21 | successive `next` calls on one name return strictly increasing values, so order numbers never repeat |
| Counter.OccurrencesGrow | services/backend/models/Counter.js:13-21 | a later call on the same name has seen strictly more calls on it |
| Counter.AfterLeavesOthers | services/backend/models/Counter.js:15-20 | a counter that none of the calls names keeps its value |
| Counter.CounterStore.Next | services/backend/models/Counter.js:13-21 | an empty name is rejected and the store is unchanged; otherwise the counter is bumped and the new value returned; a failing store leaves the counters unchanged |
| Phones.NormalizePhoneInput | services/backend/server.js:426-434 | no phone gives null; without a leading `+` only ten digits, eleven starting with `0` and twelve starting with `91` are accepted; with a leading `+` any seven or more digits are; ten digits and the `0` form become `+91` and the last ten digits, every other accepted form `+` and all its digits |
| Phones.NormalizeIdempotent | services/backend/server.js:426-434 | a normalized phone normalizes to itself, so the key computed at send time is stable |
| Phones.NormalizeKeepsSubscriber | services/backend/server.js:426-434 | the result keeps the number's last ten digits (all of them for shorter numbers) |
| Phones.IndianFormsShareKey | services/backend/server.js:429-431 | ten digits, `0` and ten digits, `91` and ten digits, and `+91` and ten digits all map to the same key `+91` and the ten digits |
| Phones.AddressPhone | services/backend/server.js:940-944 | the stored address phone is empty or `+` and at least seven digits |
| Phones.AddressPhoneIdempotent | services/backend/server.js:979-982 | re-saving a stored address phone leaves it as it is |
| Phones.AddressPhoneAgreesWithLogin | services/backend/server.js:943 | for ten-digit numbers and `91`-prefixed twelve-digit numbers, the address rule and the login rule give the same phone |
| Text.Digits | services/backend/server.js:428 | `replace(/\D/g, '')` keeps only digits and never lengthens the string |
| Text.DigitsAndPlus | services/backend/server.js:536 | `replace(/[^\d+]/g, '')` keeps only digits and plus signs |
| Text.DigitsAndPlusIdempotent | services/backend/server.js:536 | stripping twice is stripping once |
| Text.DigitsOfDigitsAndPlus | services/backend/server.js:536-542 | the digits of the stripped key are the digits of the phone |
| Text.PaddedNumberRoundTrip | services/backend/server.js:1196 | a zero-padded number is all digits, at least the pad width, and reads back as the number |
| Text.NatToStringRoundTrip | services/backend/server.js:1196 | `String(n)` reads back as `n` |
| Text.WordsAreWords | services/backend/server.js:1059 | every token of `split(/\s+/).filter(Boolean)` is non-empty and free of white space |
| Text.WordsOfJoin | services/backend/server.js:1059 | splitting words joined by single spaces gives the words back |
| Text.Trim | services/backend/server.js:1055 | `trim()` leaves no white space at either end; `TrimIsOuterSlice` says which string it is |
| Text.LeadingSpaces | services/backend/server.js:1055 | counts the white space a string starts with: every character before the count is white space and the one at it is not |
| Text.TrimIsOuterSlice | services/backend/server.js:1055 | `trim()` is the slice of the string after its leading white space, with only white space after it and no white space at either of its ends |
| ChatCommands.Dispatch | services/backend/server.js:1060-1092 | an `order` command always carries at least one item token after the shop phone |
| ChatCommands.Parse | services/backend/server.js:1055-1060 | a `menu`, `order` or `status` command needs at least two words and takes its shop phone or order id from the second word; `order` takes the remaining words as item tokens |
| ChatCommands.ParseRender | services/backend/server.js:1055-1241 | every well-formed command typed with single spaces is read back as that command |
| ChatCommands.DispatchIgnoresCase | services/backend/server.js:1060 | the command word is matched without regard to case |
| ChatCommands.DispatchHelp | services/backend/server.js:1240-1241 | an unknown command word, or a command missing its argument, gets the help text |
| ChatCommands.QtyOf | services/backend/server.js:1117 | every quantity is at least 1, whatever the token |
| ChatCommands.QtyOfNatToString | services/backend/server.js:1117 | a positive quantity written in decimal is read back unchanged |
| ChatCommands.PairAt | services/backend/server.js:1115-1118 | each pair carries a quantity of at least 1 |
| ChatCommands.PairsOf | services/backend/server.js:1113-1119 | there are `ceil(n/2)` pairs for `n` item tokens |
| ChatCommands.PairTokens | services/backend/server.js:1113-1119 | the stepping-by-two loop builds exactly the pairs of the specification |
| ChatCommands.PairsOfFlatten | services/backend/server.js:1113-1119 | typing single-token items with positive quantities and reading the pairs back gives the same pairs |
| ChatCommands.TrailingItemGetsOne | services/backend/server.js:1112-1117 | an odd trailing item token is ordered once |
| ChatCommands.LetterIndex | services/backend/server.js:1129-1130 | a letter addresses one of the first 26 positions; `LetterIndexIsAlphabetPlace` says which tokens and which position |
| ChatCommands.LetterIndexIsAlphabetPlace | services/backend/server.js:1129-1130 | a position is given exactly for a one-character token that is an ASCII letter, and it is the letter's place in the alphabet in either case |
| ChatCommands.LastWithCodeIsLast | services/backend/server.js:1107-1110 | the code map holds the last item with a code, and nothing for a code no item has |
| ChatCommands.FirstWithNameIsFirst | services/backend/server.js:1141-1144 | the name lookup finds the first item whose trimmed name matches, ignoring case |
| ChatCommands.ResolveMeetsRule | services/backend/server.js:1124-1146 | a token resolves to item i exactly when i is the in-range letter, else the last item with that code, else the first item with that name; and to nothing exactly when no item answers it in any way |
| ChatCommands.Resolve | services/backend/server.js:1124-1146 | the item found is on the menu; which item it is, is what `ResolveMeetsRule` states |
| ChatCommands.BuildCodeIndex | services/backend/server.js:1107-1110 | the loop builds a code map that agrees with the last-item-with-code rule |
| ChatCommands.ResolveWith | services/backend/server.js:1124-1145 | the lookup through the code map resolves every token as the priority rule does |
| ChatCommands.FoundWhenNothingMissing | services/backend/server.js:1146-1147 | every pair is either missing or resolved; with nothing missing, pair k resolves to item k's position with its quantity |
| ChatCommands.MissingExactly | services/backend/server.js:1146 | a token is reported missing exactly when it resolves to nothing |
| ChatCommands.ResolvePairs | services/backend/server.js:1122-1148 | the loop produces exactly the resolved pairs and the missing tokens, in input order |
| ChatCommands.EvaluateSpec | services/backend/server.js:1150-1163 | all or nothing: either the unresolved tokens are listed, or every pair is priced from its item, and the total is the sum of the line totals with a zero delivery fee |
| ChatCommands.PriceTokens | services/backend/server.js:1122-1163 | indexing the codes, pairing the tokens and resolving them gives exactly the outcome `Evaluate` defines |
| ChatCommands.Evaluate | services/backend/server.js:1150-1163 | the order is refused exactly when some token is missing, listing the missing tokens; otherwise there is one line per pair and the total is the line sum plus the zero fee |
| ChatCommands.SumCoversLines | services/backend/server.js:1157-1161 | with non-negative prices, every line total is at most the order total |
| ChatCommands.SumNonNegative | services/backend/server.js:1161 | with non-negative prices, the total is not negative |
| ChatCommands.MenuLabelAsWritten | services/backend/server.js:1081 | the printed label is the character with code 65 + i, whatever i is |
| ChatCommands.LabelPastZOrdersAnotherItem | services/backend/server.js:1081 | on a menu of 33 or more items, the label printed beside item 33 (`a`) orders item 1 |
| ChatCommands.MenuLabel | services/backend/server.js:1080-1083 | a label is printed exactly for the first 26 items, and it is a capital letter |
| ChatCommands.MenuLabelResolves | services/backend/server.js:1080-1083 | every label the corrected listing prints orders the item printed beside it |
| ChatCommands.MenuLines | services/backend/server.js:1080-1083 | one line per available item with its name and price; the first 26 lines carry a letter and each letter orders its own line (the corrected labels, see Left out) |
| OrderDesk.Available | services/backend/server.js:1074 | the menu query lists at most the shop's items |
| OrderDesk.AvailableKeepsAvailable | services/backend/server.js:1074 | an item is listed exactly when the shop has it and it is available |
| OrderDesk.FindShop | services/backend/server.js:751-752 | the shop lookup by id finds a shop with that id, or proves there is none |
| OrderDesk.FindShopByPhone | services/backend/server.js:1099-1101 | the shop lookup by phone finds a shop with that phone, or proves there is none |
| OrderDesk.FindOrder | services/backend/server.js:874-875 | the order lookup finds the first order with that id, or proves there is none |
| OrderDesk.DisplayIdOfNumber | services/backend/server.js:1196 | a positive order number is shown as `#` and at least six digits that read back as the number |
| OrderDesk.DisplayIdsDiffer | services/backend/server.js:1196 | orders with distinct positive numbers get distinct display ids |
| OrderDesk.StoredLines | services/backend/server.js:240-246 | one stored line per request item |
| OrderDesk.WebTotalAsWrittenDropsUnquantified | services/backend/server.js:747 | as written, an item sent without a quantity is stored as one unit but adds nothing to the total |
| OrderDesk.WebTotalMatchesStoredLines | services/backend/server.js:243 | the corrected total is the sum of the stored lines' totals |
| OrderDesk.WebTotal | services/backend/server.js:243 | with non-negative prices and quantities the corrected total is not negative |
| OrderDesk.WebTotalAsWritten | services/backend/server.js:747 | the total as written equals the corrected one when every quantity is given, and with non-negative prices is never larger |
| OrderDesk.WebOrderRejection | services/backend/server.js:742-756 | each error in the route's order: no name or phone, a phone that does not normalize, a shop id that is not an object id (the 500 of the catch at server.js:830), an unknown shop, an undelivered pincode; a request passes only past all of them |
| OrderDesk.ChatOrderPhone | services/backend/server.js:1174-1175 | a sender whose number normalizes is stored with the normalized phone |
| OrderDesk.MenuLetterOrdersListedItem | services/backend/server.js:1080-1083 | ordering one unit by a letter the menu prints buys the item printed beside it, at its listed price |
| OrderDesk.MenuReply | services/backend/server.js:1068-1088 | an unknown shop phone gives not found; a shop without available items gives no items; the listing names the shop, its phone and one line per available item (corrected labels) |
| OrderDesk.StatusReply | services/backend/server.js:1230-1238 | an id that is not an object id is invalid; a valid id gets either not found (exactly when no order has it) or the status and display id of the first order with that id |
| OrderDesk.Desk.constructor | services/backend/server.js:1166-1172 | the desk starts with the given shops and counters, no shop numbers and no orders |
| OrderDesk.Desk.BumpShop | services/backend/server.js:1168-1169 | the shop's counter goes up by one and its new value is returned |
| OrderDesk.Desk.NumberWebOrder | services/backend/server.js:771-804 | the shop counter moves first when a shop is named; the global counter's value then wins; if the global counter fails, the shop counter moves a second time and that value is used |
| OrderDesk.Desk.PlaceWebOrder | services/backend/server.js:739-832 | a rejected request changes nothing; an accepted one appends exactly one order with the normalized phone, the stored lines, the corrected total (see Left out) and status `received`; the global counter moves only when it answers, the shop counter once for a named shop and twice when the global counter fails |
| OrderDesk.Desk.UpdateStatus | services/backend/server.js:870-886 | an empty status, an id that is not an ObjectId and an unknown order are rejected without change; otherwise only that order's status changes |
| OrderDesk.ChatOrderOutcome | services/backend/server.js:1092-1227 | the `order` branch keeps every existing order and adds at most one, and adds one exactly when it replies that the order was placed; only a counter that can move changes the shop counters |
| OrderDesk.Desk.PlaceChatOrder | services/backend/server.js:1092-1227 | reply, orders and shop counters are those of `ChatOrderOutcome`: an unknown shop or an unresolved token changes nothing; otherwise the shop counter moves when it can, and one order is appended with the priced lines, that number and the sender's phone |
| OrderDesk.Desk.HandleMessage | services/backend/server.js:1052-1251 | only an `order` command changes the stores, with the outcome `ChatOrderOutcome` gives; `menu`, `status` and help get their replies (the menu with corrected labels) |
| OrdersRoute.OrDefault | services/backend/routes/orders.js:24-25 | a missing or zero number takes the default |
| OrdersRoute.PricedItemOf | services/backend/routes/orders.js:23-35 | each stored line's total is its price times its quantity, its quantity is never 0 and its name never empty |
| OrdersRoute.PriceItems | services/backend/routes/orders.js:22-35 | the loop prices every item as the callback does, and the running total is the sum of the line totals |
| OrdersRoute.SumTotalsAppend | services/backend/routes/orders.js:27 | the total of a split list is the sum of the parts' totals |
| OrdersRoute.SumTotalsCoversLine | services/backend/routes/orders.js:27 | with non-negative line totals, each line is at most the total |
| OrdersRoute.SumTotalsNonNegative | services/backend/routes/orders.js:27 | with non-negative line totals, the total is not negative |
| OrdersRoute.PlaceOrder | services/backend/routes/orders.js:14-60 | no user gives 401; missing or empty items give 400; a failing counter gives 500 without change; a failing save gives 500 after the counter has moved; otherwise the order takes the counter's next number and its totals |
| OrdersRoute.Paging | services/backend/routes/orders.js:65-67 | the page is the given one, at least 1; the limit defaults to 20 only when missing, keeps 0, and is capped at 50; the skip is every earlier page |
| OrdersRoute.PagesTile | services/backend/routes/orders.js:65-67 | page p+1 starts where page p ends |
| OrdersRoute.PagesDisjoint | services/backend/routes/orders.js:65-67 | with a positive limit, different pages read disjoint windows |
| OrdersRoute.Served | services/backend/routes/orders.js:69-76 | a negative skip fails; otherwise the orders served are a run of the list starting at the skip, all the rest for limit 0, at most the limit's size otherwise |
| OrdersRoute.PageAtMostFifty | services/backend/routes/orders.js:65-76 | without a limit or with a positive one a page holds at most 50 orders |
| OrdersRoute.LimitZeroServesAll | services/backend/routes/orders.js:65-76 | `?limit=0` returns every order of the customer, past the cap of 50 |
| OrdersRoute.StartsAfter | services/backend/routes/orders.js:65-67 | with a positive limit, the skip of a later page lies past the whole window of an earlier page |
| Addresses.FindAddress | services/backend/server.js:972-973 | the address lookup finds an address with that id, or proves there is none |
| Addresses.AddKeepsOneDefault | services/backend/server.js:949-956 | the first address becomes the only default; later ones do not take the flag; exactly one default remains |
| Addresses.WithOnlyDefault | services/backend/server.js:984-987 | all flags are cleared and the chosen address's flag is set |
| Addresses.EditKeepsOneDefault | services/backend/server.js:975-987 | an edit keeps exactly one default; with `isDefault: true` the edited address becomes the only one |
| Addresses.FirstOther | services/backend/server.js:1006 | the first address with another id, or proof that there is none |
| Addresses.RemovedAt | services/backend/server.js:1017 | removal shifts later addresses down by one |
| Addresses.DeleteOnlyDefaultRefused | services/backend/server.js:1005-1009 | the only address, when it is the default, cannot be deleted |
| Addresses.DeleteKeepsOneDefault | services/backend/server.js:1005-1017 | deleting keeps exactly one default; deleting the default promotes the first other address |
| Addresses.UniqueAfterDelete | services/backend/server.js:1017 | deletion keeps address ids distinct |
| Addresses.AddressBook.Add | services/backend/server.js:935-964 | missing fields are refused without change; a pincode that trims to nothing fails to save without change; otherwise the new address is appended with the normalized phone and trimmed pincode, and the one-default invariant holds |
| Addresses.EditedKeepsIdsAndStorable | services/backend/server.js:967-995 | an edit that saves keeps every address id, so ids stay unique, and leaves every address with the address and pincode the schema requires |
| Addresses.AddressBook.Edit | services/backend/server.js:967-995 | an unknown id is refused without change; an edit that empties the required address or pincode (server.js:181, 183) fails to save without change; otherwise only the given fields change and the one-default invariant holds |
| Addresses.AddressBook.Delete | services/backend/server.js:998-1024 | an unknown id and the last default are refused without change; otherwise the address goes and the one-default invariant holds |
| Addresses.StorableAfterDelete | services/backend/server.js:181-183 | deleting keeps every stored address's required fields non-empty |
| OtpStore.Send | services/backend/server.js:511-529 | no phone is refused, a phone `normalizePhoneInput` refuses is refused, both without change; every other phone gets the code stored under its normalized form with a five-minute expiry, replacing only that entry |
| OtpStore.VerifyAt | services/backend/server.js:533-562 | no entry: not found, nothing changes; expired: refused and the entry deleted; wrong code: refused and the entry kept; unknown phone without sign-up: refused; otherwise the entry is used up, the customer found or created, and the session issued when the secret is set |
| OtpStore.SendThenVerifyAsWrittenMisses | services/backend/server.js:515-538 | as written, a code sent to any bare ten-digit phone is stored under `+91` and the digits but looked up under the bare digits, and is never found |
| OtpStore.VerifyAsWritten | services/backend/server.js:531-567 | as written, the code is looked up under the phone stripped to digits and `+`: without an entry there it is not found, and a success uses that entry up |
| OtpStore.Verify | services/backend/server.js:531-567 | with the key computed as `send-otp` computes it, a signed-in phone is the normalized phone and is a known customer |
| OtpStore.SendThenVerify | services/backend/server.js:511-567 | a code sent to a phone verifies for that phone until it expires |
| OtpStore.VerifyIsSingleUse | services/backend/server.js:557 | a verified code cannot be used again |
| OtpStore.ResendReplaces | services/backend/server.js:519 | a second code for the same phone replaces the first |
| OtpStore.OtpService.SendOtp | services/backend/server.js:511-529 | the store changes exactly as `Send` says |
| OtpStore.OtpService.VerifyOtp | services/backend/server.js:531-567 | the store and the customers change exactly as `Verify` says, under the corrected key (see Left out) |
| OwnerDashboard.DisplayOrderLabelReadsBack | services/owner-frontend/src/pages/OwnerDashboard.jsx:350-353 | a non-negative order number reads back from its label; without a number the label is a prefix of the id of at most eight characters |
| OwnerDashboard.DisplayOrderLabel | services/owner-frontend/src/pages/OwnerDashboard.jsx:350-353 | a number is shown as `#` and at least six characters ending in the number; without one, the first eight characters of the id |
| OwnerDashboard.DisplayOrderLabelMatchesReplies | services/owner-frontend/src/pages/OwnerDashboard.jsx:350-353 | for a positive number the dashboard shows the same id as the chat replies; at 0 the dashboard shows `#000000` while the replies show the database id |
| OwnerDashboard.EnabledFollowsChain | services/owner-frontend/src/pages/OwnerDashboard.jsx:539-553 | a button is enabled exactly when the order is at some step of received, accepted, packed, out-for-delivery, and the button moves it to the next step |
| OwnerDashboard.Enabled | services/owner-frontend/src/pages/OwnerDashboard.jsx:539-553 | no button is enabled once delivered, and none sets the status the order already has |
| OwnerDashboard.AtMostOneEnabled | services/owner-frontend/src/pages/OwnerDashboard.jsx:550-553 | at most one status button is enabled at a time |
| OwnerDashboard.Merge | services/owner-frontend/src/pages/OwnerDashboard.jsx:155-161 | every field the patch gives replaces the row's, and the others are kept |
| OwnerDashboard.MergeIdempotent | services/owner-frontend/src/pages/OwnerDashboard.jsx:155-161 | applying the same patch twice is applying it once |
| OwnerDashboard.WithoutRow | services/owner-frontend/src/pages/OwnerDashboard.jsx:162-168 | the row at the index goes and the later rows move down; an index past the end changes nothing |
| OwnerDashboard.RemoveUndoesAdd | services/owner-frontend/src/pages/OwnerDashboard.jsx:152-168 | removing the row just added gives back the rows before the add |
| OwnerDashboard.ItemForm.constructor | services/owner-frontend/src/pages/OwnerDashboard.jsx:34 | the form starts with an empty name, an empty price (read as 0) and no variants |
| OwnerDashboard.ItemForm.AddVariantRow | services/owner-frontend/src/pages/OwnerDashboard.jsx:152-154 | exactly one blank, available row is appended; nothing else changes |
| OwnerDashboard.ItemForm.UpdateVariantAt | services/owner-frontend/src/pages/OwnerDashboard.jsx:155-161 | only the row at the index changes, into the merge of it and the patch |
| OwnerDashboard.ItemForm.RemoveVariantAt | services/owner-frontend/src/pages/OwnerDashboard.jsx:162-168 | the rows become the rows with that one spliced out |
| OwnerDashboard.ValidateItem | services/owner-frontend/src/pages/OwnerDashboard.jsx:173-187 | the form passes exactly when a shop is chosen, the name is not blank, and every variant has a label and a positive price (or, without variants, the base price is positive); a failure names the first offending check: no shop exactly without a shop, a blank name exactly with a shop and a blank name, any later error only past both, and a row error names the first bad row |
| OwnerDashboard.BuildPayload | services/owner-frontend/src/pages/OwnerDashboard.jsx:189-199 | the name is trimmed; the base price is 0 with variants and the form's positive price without; every variant keeps its label, price and availability (default true), and its id, or its 1-based position when it has none |
| OwnerDashboard.DefaultIdsDistinct | services/owner-frontend/src/pages/OwnerDashboard.jsx:194 | two rows left without an id get distinct ids |
| OwnerDashboard.FindEntry | services/owner-frontend/src/pages/OwnerDashboard.jsx:324 | the first entry whose `_id` or `id` equals the key, or proof that there is none |
| OwnerDashboard.PatchFor | services/owner-frontend/src/pages/OwnerDashboard.jsx:325-328 | an entry with no id gets no request; otherwise the request names its `_id` when it has one, else its `id`, and asks for the opposite flag |
| OwnerDashboard.Toggle | services/owner-frontend/src/pages/OwnerDashboard.jsx:323-328 | the given entry, or the first entry matching the key, gets exactly `PatchFor`'s request; no matching entry sends nothing |
| OwnerDashboard.ToggleTwiceRestores | services/owner-frontend/src/pages/OwnerDashboard.jsx:323-330 | toggling, reloading and toggling again asks for the original availability of the same entry |
| OwnerDashboard.SetAvailable | services/owner-frontend/src/pages/OwnerDashboard.jsx:323-330 | the patched entry takes the new availability and keeps its ids; every other entry is unchanged |
| OwnerDashboard.FindEntryIgnoresAvailability | services/owner-frontend/src/pages/OwnerDashboard.jsx:324 | changing an entry's availability does not change which entry a key finds |
| Cart.FirstFlagged | services/customer-frontend/src/components/Cart.jsx:33 | the first address flagged by `isDefault` or `default`, or proof that none is flagged |
| Cart.FindDefaultIndex | services/customer-frontend/src/components/Cart.jsx:32-35 | -1 exactly for no addresses; otherwise the first flagged address, or 0 when none is flagged |
| Cart.Synced | services/customer-frontend/src/components/Cart.jsx:41-48 | the synced selection is -1 exactly for no addresses, otherwise in range; a selection already in range is kept, and any other falls back to the default's index |
| Cart.SyncSettles | services/customer-frontend/src/components/Cart.jsx:41-48 | a second run of the effect changes nothing |
| Cart.CanPlaceAfterSync | services/customer-frontend/src/components/Cart.jsx:50 | once synced, the order can be placed exactly when the cart has items and the customer has an address |
| Cart.SelectedAddress | services/customer-frontend/src/components/Cart.jsx:61 | an address is shown exactly when the selection is in range, and it is the selected one |
| Cart.CartSelection.constructor | services/customer-frontend/src/components/Cart.jsx:37 | the selection starts at the default address's index |
| Cart.CartSelection.Sync | services/customer-frontend/src/components/Cart.jsx:41-48 | one run of the effect sets the selection to its synced value |
| Cart.CartSelection.Select | services/customer-frontend/src/components/Cart.jsx:171 | the radio button selects its address |
| Cart.PhoneForUI | services/customer-frontend/src/components/Cart.jsx:52-59 | empty without digits; `+91` and the digits for ten digits; otherwise the value as given when it starts with `+`, else `+` and its digits |
| Cart.PhoneForUIIdempotent | services/customer-frontend/src/components/Cart.jsx:52-59 | showing a shown phone again changes nothing |
| Cart.PhoneForUIShowsStoredPhone | services/customer-frontend/src/components/Cart.jsx:52-59 | a phone stored by the address routes is shown exactly as stored |
| ProfileMenu.NormalizePhone | services/customer-frontend/src/components/ProfileMenu.jsx:371-377 | ten digits are shown with `+91`; anything else is shown as given |
| ProfileMenu.NormalizePhoneIdempotent | services/customer-frontend/src/components/ProfileMenu.jsx:371-377 | showing a shown phone again changes nothing |
| ProfileMenu.StripPhone | services/customer-frontend/src/components/ProfileMenu.jsx:231 | the last ten digits typed, all of them when fewer |
| ProfileMenu.BuildPhone | services/customer-frontend/src/components/ProfileMenu.jsx:249-250 | empty without digits; otherwise `+91` followed by the last ten digits typed |
| ProfileMenu.PhoneField | services/customer-frontend/src/components/ProfileMenu.jsx:331 | the phone field holds the first ten digits typed, or all of them when there are fewer |
| ProfileMenu.PincodeField | services/customer-frontend/src/components/ProfileMenu.jsx:348 | the pincode field holds the first six digits typed, or all of them when there are fewer |
| ProfileMenu.FieldsAreStable | services/customer-frontend/src/components/ProfileMenu.jsx:326-350 | filtering an already filtered field changes nothing |
| ProfileMenu.PhoneRoundTrip | services/customer-frontend/src/components/ProfileMenu.jsx:231-250 | ten digits are saved as `+91` and the digits, stored unchanged by the address routes, and shown again as the same ten digits in the edit form |
| ProfileMenu.EightDigitsGetTwoPrefixes | services/customer-frontend/src/components/ProfileMenu.jsx:249-250 | an eight-digit phone is saved as `+91` and eight digits, which the address routes read as ten national digits and store as `+9191` and the eight digits |
| ProfileMenu.EditForm | services/customer-frontend/src/components/ProfileMenu.jsx:233-236 | the edit form holds the stored address with its phone stripped |
| ProfileMenu.HandleSave | services/customer-frontend/src/components/ProfileMenu.jsx:242-262 | no request while the name, address or pincode is empty; otherwise `PATCH` of `/api/customers/addresses/<id>` exactly for an edit and `POST` of `/api/customers/addresses` exactly for a new address, with the phone rebuilt |
| ProfileMenu.EditThenSaveKeepsPhone | services/customer-frontend/src/components/ProfileMenu.jsx:231-262 | editing a stored address and saving it unchanged sends back exactly the stored address |
| ProfileMenu.DeleteAddr | services/customer-frontend/src/components/ProfileMenu.jsx:103-113 | a default address is refused; a delete request is sent exactly for a confirmed non-default address, to its path |
| OtpLogin.FormatPhoneDisplay | services/customer-frontend/src/pages/CustomerOtpLogin.jsx:17-24 | only digits and `+`; the stripped value when it starts with `+`; `+91` and the digits for ten digits; the stripped value otherwise |
| OtpLogin.FormatPhoneDisplayIdempotent | services/customer-frontend/src/pages/CustomerOtpLogin.jsx:17-24 | formatting a formatted phone changes nothing |
| OtpLogin.TenDigitsValidate | services/customer-frontend/src/pages/CustomerOtpLogin.jsx:17-30 | any input with ten digits passes the check once formatted |
| OtpLogin.ValidPhoneIsAccepted | services/customer-frontend/src/pages/CustomerOtpLogin.jsx:26-30 | a phone the page accepts is one `send-otp` accepts |
| OtpLogin.ValidatePhone | services/customer-frontend/src/pages/CustomerOtpLogin.jsx:26-30 | a phone passes exactly with ten digits, or as `+` and twelve digits starting `91` |
| OtpLogin.PlusNinetyOneForm | services/customer-frontend/src/pages/CustomerOtpLogin.jsx:28 | `+91` and ten digits is exactly a single `+` before twelve digits starting `91` |
| OtpLogin.SendOtpBody | services/customer-frontend/src/pages/CustomerOtpLogin.jsx:32-46 | a request is sent exactly when the formatted phone passes the check, and it carries that phone |
| OtpLogin.VerifyOtpBody | services/customer-frontend/src/pages/CustomerOtpLogin.jsx:64-77 | a request is sent exactly when the trimmed code has at least four characters, with the formatted phone and the trimmed code |
| OtpLogin.LoginSignsIn | services/customer-frontend/src/pages/CustomerOtpLogin.jsx:32-92 | with the corrected store key, a known customer who types ten digits and then the code they received is signed in |
| OtpLogin.PlusTenDigitsLoginMisses | services/customer-frontend/src/pages/CustomerOtpLogin.jsx:17-30 | as written, `+` and ten digits passes the page's check and gets a code stored under `+91` and the digits, but the verify request finds no code |
| SocketListeners.Registered | services/owner-frontend/src/components/useSocket.js:79-81 | the callback joins the event's set, which is created when missing; other events are untouched |
| SocketListeners.Without | services/owner-frontend/src/components/useSocket.js:87 | deleting removes exactly that callback |
| SocketListeners.Unregistered | services/owner-frontend/src/components/useSocket.js:84-89 | the callback is removed and the event keeps its other callbacks in order; an event left without callbacks loses its entry; other events are untouched |
| SocketListeners.WithoutKeepsNoRepeats | services/owner-frontend/src/components/useSocket.js:87 | deleting keeps a set free of repetitions |
| SocketListeners.RegisteredWellFormed | services/owner-frontend/src/components/useSocket.js:79-81 | registering keeps every set non-empty and free of repetitions |
| SocketListeners.UnregisteredWellFormed | services/owner-frontend/src/components/useSocket.js:84-89 | unsubscribing keeps every set non-empty and free of repetitions |
| SocketListeners.RegisterTwice | services/owner-frontend/src/components/useSocket.js:81 | registering the same callback twice keeps one entry |
| SocketListeners.UnsubscribeUndoesOn | services/owner-frontend/src/components/useSocket.js:79-89 | unsubscribing a newly registered callback restores the registry exactly |
| SocketListeners.UnsubscribeTwice | services/owner-frontend/src/components/useSocket.js:84-89 | calling the same unsubscribe function twice changes nothing more |
| SocketListeners.CallsOf | services/owner-frontend/src/components/useSocket.js:49-50 | one call per callback, in order, each with the payload |
| SocketListeners.Throwing | services/owner-frontend/src/components/useSocket.js:50 | the failures are exactly the callbacks that throw |
| SocketListeners.ListenerRegistry.constructor | services/owner-frontend/src/components/useSocket.js:16 | the registry starts empty |
| SocketListeners.ListenerRegistry.On | services/owner-frontend/src/components/useSocket.js:79-81 | the registry becomes `Registered` of the old one and stays well formed |
| SocketListeners.ListenerRegistry.Unsubscribe | services/owner-frontend/src/components/useSocket.js:84-89 | the registry becomes `Unregistered` of the old one and stays well formed |
| SocketListeners.ListenerRegistry.Dispatch | services/owner-frontend/src/components/useSocket.js:46-53 | every callback of the event is called once with the payload in registration order; a throwing callback does not stop the others |
| SocketListeners.RoomRequest | services/owner-frontend/src/components/useSocket.js:66-76 | a room message is sent exactly when there is a socket, to join or to leave that order |
| SocketListeners.BackendUrl | services/owner-frontend/src/components/useSocket.js:6-13 | the backend is the `url` option, else `VITE_API_BASE`, else `window.__API_BASE`, else the fixed default (an empty value counts as missing) |
| ApiClient.StripSlash | services/owner-frontend/src/hooks/useApi.js:7 | one trailing slash is removed, nothing else |
| ApiClient.FirstSet | services/owner-frontend/src/hooks/useApi.js:11-15 | the first build variable that is set, or empty exactly when none is |
| ApiClient.GetApiBase | services/owner-frontend/src/hooks/useApi.js:4-26 | the window override wins with one trailing slash removed, then the first set build variable likewise, then the local server on localhost, then the production backend |
| ApiClient.JoinUrl | services/owner-frontend/src/hooks/useApi.js:41 | an absolute path is used as it is; any other URL starts with the base |
| ApiClient.JoinUrlLeadingSlash | services/owner-frontend/src/hooks/useApi.js:41 | a path with or without its leading slash reaches the same URL |
| ApiClient.JoinUrlOneSlash | services/owner-frontend/src/hooks/useApi.js:41 | base and relative path meet with exactly one slash |
| ApiClient.BuildHeaders | services/owner-frontend/src/hooks/useApi.js:28-32 | `Content-Type` is always set; a header that has one is kept as it is; otherwise JSON is added and nothing else changes |
| ApiClient.Token | services/owner-frontend/src/hooks/useApi.js:44 | the merchant token wins over the customer token |
| ApiClient.FetchOptionsOf | services/owner-frontend/src/hooks/useApi.js:43-56 | the verb is upper-cased (default GET); the headers are the caller's, with Content-Type kept or set to JSON and, when there is a token, the bearer authorisation, and no other key; a raw body is passed through and any other body is serialised |
| ApiClient.NetworkFailure | services/owner-frontend/src/hooks/useApi.js:58-71 | a thrown fetch gives a failed response with status 0 and the error's message |
| ApiClient.Received | services/owner-frontend/src/hooks/useApi.js:73-85 | the error is null exactly for an ok response; a failure always has a message: the body's `error`, else the raw text, else `HTTP` and the status |
| ApiClient.FailuresAreExplained | services/owner-frontend/src/hooks/useApi.js:58-85 | every failed answer carries a message, and a network failure is told apart from any HTTP answer by its status |

## Left out

- Twilio messaging (`sendWhatsAppMessageSafe`), socket emits to rooms (`emitOrderUpdate`), JWT signing and checking, and `fetch` itself are outside the model. Their inputs appear as parameters, for example `customer` in `PlaceWebOrder` and `secretSet` in `Verify`.
- The clock (`Date.now()`), the generated OTP (`genOtp`) and new database ids are parameters (`now`, `otp`, `newId`).
- A store call that throws is a boolean parameter: `reachable`, `counterUp`, `shopCounterUp` or `saveUp`.
- Concurrency between requests is not modelled. Each route runs alone against the state it is given, so the atomicity of `$inc` is taken as given.
- Prices and quantities are integers (minor units). `Number(...)` of text that is not a number (`NaN`) is modelled as `None`, and floating point is not modelled.
- `OrdersRoute.Paging` treats every page and limit as an integer. A `NaN` page or limit from a non-numeric query string is not modelled.
- MenuLines: the modelled listing prints a letter only for the first 26 items and `- ` after them, the corrected labels of the second finding below; the code as written labels item 27 onwards with `[`, `\`, `]`, `^`, `_`, a backtick, `a`, ... (`ChatCommands.MenuLabelAsWritten`), so `MenuReply` and `HandleMessage` reply with the corrected listing.
- OrderDesk.Desk.PlaceWebOrder: stores the corrected total `WebTotal`, where an item without a quantity counts once, as the schema stores it (the corrected half of the third finding below). The route as written (server.js:747, 790) stores `WebTotalAsWritten`, which counts such an item as 0, so `[{ name: "Tea", price: 20 }]` is stored with total 0 (`WebTotalAsWrittenDropsUnquantified`).
- OtpStore.OtpService.VerifyOtp: verifies through `Verify`, which looks the code up under `normalizePhoneInput(phone)` (the corrected half of the first finding below). The route as written (server.js:536-537) looks it up under the phone stripped to digits and `+` (`VerifyAsWritten`), so after a code is sent to a bare `9876543210` it answers "no otp found" (`SendThenVerifyAsWrittenMisses`).
- Saving a document fails on other schema rules too (types, the order's required fields); only the address's required `address` and `pincode` and the order's failed save (`saveUp` in `OrdersRoute.PlaceOrder`) are modelled.
- Case mapping and white space cover ASCII letters and the common space characters only. JavaScript's full Unicode tables are not modelled.
- `JSON.stringify` and `JSON.parse` are left abstract: a JSON body is held as the value it serialises, and the parsed `error` field is a parameter.
- `OrderDesk.IsObjectId` approximates Mongoose's cast of an id to an ObjectId as exactly 24 hexadecimal digits.
- The `Usage:` reply of the webhook (server.js:1096-1097) cannot be reached, because `parts.length >= 3` already guarantees an item token (`ChatCommands.Dispatch` states this). The model has no such branch.
- The socket hook's connection state (`connected`, the `connect` and `disconnect` handlers) and socket creation are left out. They are display state driven by the network.
- OwnerDashboard.ItemForm.UpdateVariantAt: requires an index inside the rows. In JavaScript an index past the end would leave holes in the array, which the form never does.
- OwnerDashboard.BuildPayload: the id given to a row without one is its position, which may collide with an id typed into another row. The model does not rule that out, and `DefaultIdsDistinct` speaks only of rows without ids.
- OwnerDashboard.DisplayOrderLabel: an order number of 0 is shown as `#000000`, while the chat replies show the database id. `DisplayOrderLabelMatchesReplies` states both sides rather than hiding the difference.
- OtpLogin.AsRequest: the login page sends no name and no sign-up flag, so only existing customers can sign in through it. Sign-up goes through `/auth/customer-signup`, which is not part of this model.
- Product, shop and menu administration routes, the customer dashboard and the merchant login and sign-up pages are not part of this model.
- The owner dashboard's edit-item path (`hasVariantsFor(editingForm)` and its save) is not part of this model. It repeats the rules of the add form, which are modelled.

## Findings

| source | as written | input that shows it | evidently intended | confidence | as-written member | corrected member |
|---|---|---|---|---|---|---|
| services/backend/server.js:536-537 | `verify-otp` looks the code up under the phone with everything but digits and `+` removed. `send-otp` stored it under `normalizePhoneInput(phone)` (server.js:515-519). | A bare `9876543210` sent to both routes is stored as `+919876543210` and looked up as `9876543210`. `+9876543210` typed on the login page is stored as `+919876543210` and looked up as `+9876543210`. | Both routes compute the key with `normalizePhoneInput`, so a code sent to a phone is found for that phone. | not executed | OtpStore.SendThenVerifyAsWrittenMisses | OtpStore.SendThenVerify |
| services/backend/server.js:1081 | The menu labels item i with the character of code 65 + i, but only the letters A-Z resolve to positions (server.js:1129-1131). | On a menu of 33 items, item 33 is labelled `a`, and ordering `a` buys item 1. Items 27-32 are labelled `[`, `\`, `]`, `^`, `_`, and a backtick, which order nothing by position. | Letter labels only for the first 26 items, so every printed label orders the item beside it. | not executed | ChatCommands.LabelPastZOrdersAnotherItem | ChatCommands.MenuLabelResolves |
| services/backend/server.js:747 | The web order total multiplies each price by the quantity with a missing quantity read as 0, while the schema stores a missing quantity as 1 (server.js:243). | `[{ name: "Tea", price: 20 }]` is stored as one Tea at 20 with a total of 0. | A missing quantity counts as 1, so the total is the sum of the stored lines. | not executed | OrderDesk.WebTotalAsWrittenDropsUnquantified | OrderDesk.WebTotalMatchesStoredLines |
