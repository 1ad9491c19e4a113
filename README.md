# Storefront client logic, modelled in Dafny

This project models the stateful and list-handling logic of a small
e-commerce storefront written in React and TypeScript. It covers:

- the cart state container: local upsert, filter, map and clear, plus the
  item count and subtotal reductions;
- the header search: the 3-character minimum, the normalisation of the
  `/products` reply, the case-insensitive filter over name and description,
  the 5-item cap, the suggestion panel and search submission;
- the product grid: the depth-first category lookup, the products and
  pagination taken from a reply, the page-change bounds, the page-button
  window and its ellipses, and the page title;
- the push subscription: the conversion of the server's base64url key to
  base64 and then to bytes, the subscribe sequence with its early exits, the
  status check, and the hook's state;
- the push dialog and push toggle: visibility, dismissal, the disabled
  state, and caption and status precedence;
- the service worker: the notification built for a push, and the window a
  click focuses or opens;
- the profile page: orders and addresses from loosely shaped replies,
  optimistic address deletion with rollback, and the editor's flags;
- the phone-number banner.

Every network reply and browser answer is a parameter. Stateful React
components become classes whose fields are the component's state. Their
methods receive the reply and return the request they would have sent,
where there is one. Pure computations become functions, and their
properties are lemmas.

Modules:

| module | models |
|---|---|
| `Types` | the records of `src/types/index.ts`, `Option`, and a request outcome `Response` |
| `Text` | ASCII `toLowerCase`, `includes`, and JavaScript `trim` |
| `Sequences` | the subsequence relation |
| `Products` | the `/products` reply shapes and the relevance filter shared by header and grid |
| `CartContext` | `src/context/CartContext.tsx` |
| `Header` | the search box of `src/components/Header.tsx` |
| `Home` | `src/pages/Home.tsx` |
| `Base64` | the base64 alphabets of RFC 4648 (sections 4 and 5), an encoder used as the reference, and `window.atob` as the WHATWG "forgiving-base64 decode" |
| `PushNotifications` | `src/hooks/usePushNotifications.ts` |
| `PushDialog` | `src/components/PushNotificationDialog.tsx` |
| `PushToggle` | `src/components/PushNotificationToggle.tsx` |
| `ServiceWorker` | `public/service-worker.js` |
| `Profile` | `src/pages/Profile.tsx` |
| `PhoneAlert` | `src/components/PhoneAlert.tsx` |

The cart container updates the held list locally after each request:

- `addToCart` upserts the returned line by id;
- `removeFromCart` filters the list;
- `updateQuantity` maps over it;
- `clearCart` empties it.

`clearCart` has no user check (src/context/CartContext.tsx:91-99).

`addToCart` has one edge case, modelled as written. When the returned
line's `cart_id` is truthy but the reply has no `cart`, reading
`response.cart.public_id` throws. The exception is caught, so neither the
line nor the cart id is applied (`CartContext.CartStore.AddToCart`).

## Model

| member | source | states |
|---|---|---|
| Products.NormaliseProducts | src/components/Header.tsx:73-78 | the list is `data.products` when present, else `data` when it is an array, else empty |
| Products.FilterMatching | src/components/Header.tsx:81-84 | never longer than its input; keeps exactly the products whose lowercased name contains the lowercased query, or whose non-empty description does |
| Products.FilterIsSubsequence | src/pages/Home.tsx:103-106 | the filter keeps the order of the products it lets through |
| Products.FilterCounts | src/components/Header.tsx:81-84 | a matching product is kept as many times as it occurs; a non-matching one is never kept |
| Products.FilterIdempotent | src/pages/Home.tsx:99-110 | filtering an already filtered list changes nothing |
| Text.IncludesIff | src/components/Header.tsx:82-83 | the left-to-right scan of `includes` succeeds exactly when the query occurs at some index |
| Text.TrimStart | src/components/Header.tsx:154 | drops a prefix made only of white space and leaves a result that starts with a non-space character |
| Text.TrimEnd | src/components/Header.tsx:154 | drops a suffix made only of white space and leaves a result that ends with a non-space character |
| Text.TrimEmptyIff | src/components/Header.tsx:154 | a string trims to empty exactly when every character is white space |
| CartContext.IndexOfId | src/context/CartContext.tsx:57 | `findIndex` gives the first index holding the id, or -1 when no line has it |
| CartContext.RemoveId | src/context/CartContext.tsx:77 | keeps exactly the lines whose id differs |
| CartContext.SetQuantity | src/context/CartContext.tsx:86-88 | same length; lines with the id get the new quantity and every other field and line stays as it was |
| CartContext.Upsert | src/context/CartContext.tsx:54-64 | the list grows by at most one line, holds the returned line, gains nothing else, and keeps every line with another id |
| CartContext.TotalItems | src/context/CartContext.tsx:101 | with no negative quantity the item count is not negative |
| CartContext.Subtotal | src/context/CartContext.tsx:102 | with no negative price or quantity the subtotal is not negative |
| CartContext.UpsertReplaces | src/context/CartContext.tsx:57-61 | when a line has the returned id, the first such line is replaced in place, the length is unchanged and all other lines are untouched |
| CartContext.UpsertAppends | src/context/CartContext.tsx:63 | when no line has the returned id, the line is appended at the end |
| CartContext.UpsertKeepsIdsUnique | src/context/CartContext.tsx:54-64 | if ids were unique before the upsert they are unique after it |
| CartContext.RemoveIdKeepsOrder | src/context/CartContext.tsx:77 | removal keeps the remaining lines in order |
| CartContext.RemoveIdCounts | src/context/CartContext.tsx:77 | removal drops every line with the id and keeps every other line as often as it occurred |
| CartContext.TotalItemsAppend | src/context/CartContext.tsx:101 | the quantity sum of a concatenation is the sum of the parts |
| CartContext.SubtotalAppend | src/context/CartContext.tsx:102 | the price-times-quantity sum of a concatenation is the sum of the parts |
| CartContext.TotalItemsReplace | src/context/CartContext.tsx:101 | replacing one line changes the item count by the difference of the quantities |
| CartContext.TotalItemsAfterUpsert | src/context/CartContext.tsx:54-64 | after an upsert the item count gains the returned quantity and loses that of the replaced line, if any |
| CartContext.TotalItemsAfterSetQuantity | src/context/CartContext.tsx:85-88 | with unique ids, updating one line's quantity changes the item count by exactly that change |
| CartContext.SetQuantityKeepsIds | src/context/CartContext.tsx:86-88 | the update keeps every id, so unique ids stay unique |
| CartContext.CartStore.constructor | src/context/CartContext.tsx:21-22 | the cart starts empty with no cart id |
| CartContext.CartStore.FindLine | src/context/CartContext.tsx:57 | the loop finds the first line with the id, the same index as `IndexOfId` |
| CartContext.CartStore.GetUserCart | src/context/CartContext.tsx:24-35 | with no user, clears cart and id without a request; with a reply carrying `cart`, replaces both; otherwise changes nothing |
| CartContext.CartStore.AddToCart | src/context/CartContext.tsx:41-69 | with no user, sends nothing and changes nothing; an error flag, a missing `cart_item`, a rejection or a throwing `cart` read change nothing; otherwise the line is upserted and the cart id taken from `cart` when the line names a cart |
| CartContext.CartStore.RemoveFromCart | src/context/CartContext.tsx:71-78 | with no user or a rejected request the cart is unchanged; otherwise exactly the lines with the id are dropped |
| CartContext.CartStore.UpdateQuantity | src/context/CartContext.tsx:80-89 | with no user or a rejected request the cart is unchanged; otherwise the matching lines get the new quantity |
| CartContext.CartStore.ClearCart | src/context/CartContext.tsx:91-99 | no user check; success empties the cart and clears the id; failure changes neither |
| CartContext.CartStore.ItemCount | src/context/CartContext.tsx:101 | the item count of an empty cart is 0 |
| CartContext.CartStore.CartSubtotal | src/context/CartContext.tsx:102 | the subtotal of an empty cart is 0 |
| Header.Suggestions | src/components/Header.tsx:81-86 | at most 5 suggestions, each taken from the results and matching the query |
| Header.SuggestionsArePrefix | src/components/Header.tsx:86 | the suggestions are a prefix of the filtered results and a subsequence of the results; all matches when at most 5 match, exactly 5 otherwise |
| Header.PrefixOfSubsequence | src/components/Header.tsx:86 | a prefix of a subsequence is a subsequence |
| Header.SuggestionPanel | src/components/Header.tsx:206-241 | "no products" shows exactly when open, not searching, with no suggestions and a query longer than 2; the list shows exactly when open, not searching and with suggestions, and then lists those suggestions; the loading line shows exactly while searching in an open panel |
| Header.SearchBox.constructor | src/components/Header.tsx:38-41 | empty query and suggestions, panel closed, not searching |
| Header.SearchBox.FetchSuggestions | src/components/Header.tsx:56-93 | a query under 3 characters clears the suggestions, sends nothing and leaves the searching flag as it was; otherwise the first five matching results, or none on failure, and not searching afterwards |
| Header.SearchBox.HandleSearch | src/components/Header.tsx:151-157 | always hides the suggestions; navigates exactly when the query has a non-white-space character |
| Home.FirstWithId | src/pages/Home.tsx:43-52 | the result is the first element with the id (no earlier element has it); None only when no element has it |
| Home.FlattenConcat | src/pages/Home.tsx:43-52 | the pre-order of two forests side by side is the concatenation of their pre-orders |
| Home.FlattenAppend | src/pages/Home.tsx:43-52 | appending a node adds the node and then its subtree to the pre-order |
| Home.FirstWithIdAppend | src/pages/Home.tsx:43-52 | the first match in a concatenation is the first match of the front part, else of the back part |
| Home.SplitAt | src/pages/Home.tsx:43-52 | the pre-order of a forest is the pre-order of its first `i` trees followed by that of the rest |
| Home.FindCategory | src/pages/Home.tsx:43-52 | the recursive loop returns the first node with the id in pre-order (parent before children, earlier siblings first), or None |
| Home.ShownProducts | src/pages/Home.tsx:82-114 | without a search term, the normalised list; with one, exactly the matching products of the normalised list, as the filter keeps them |
| Home.ShownProductsInOrder | src/pages/Home.tsx:99-110 | the shown products are a subsequence of the fetched ones |
| Home.SubsequenceReflexive | src/pages/Home.tsx:99 | an unfiltered list is a subsequence of itself |
| Home.NextPagination | src/pages/Home.tsx:85-96 | a listing with pagination sets it, a bare array clears it, anything else keeps it |
| Home.PageTitle | src/pages/Home.tsx:126-131 | the heading is never blank |
| Home.SearchTitleIgnoresCategory | src/pages/Home.tsx:126-131 | a search term decides the title whatever the category, and the title quotes the term |
| Home.CategoryTitle | src/pages/Home.tsx:126-131 | without a search term, a category id gives its name or "Produtos da Categoria", and no id gives "Todos os Produtos" |
| Home.WindowFrom | src/pages/Home.tsx:244-250 | holds exactly the visible pages from `from` to the last page, strictly ascending |
| Home.PageWindow | src/pages/Home.tsx:244-250 | the buttons are exactly the pages 1..total that are first, last or within one of the current page, strictly ascending |
| Home.EllipsisMarksHiddenPages | src/pages/Home.tsx:251-255 | an ellipsis precedes a button exactly when some page between it and the previous button is hidden |
| Home.ShownBarHasBothEnds | src/pages/Home.tsx:234-250 | whenever the bar shows (loading done, more than one page), its buttons start at page 1 and end at the last page, two distinct buttons |
| Home.Catalogue.constructor | src/pages/Home.tsx:19-27 | loading, no products, no pagination, page 1, no category name |
| Home.Catalogue.FetchProducts | src/pages/Home.tsx:63-123 | a reply sets the shown products and the next pagination; a failure empties the products and keeps the pagination; loading ends in every case |
| Home.Catalogue.HandlePageChange | src/pages/Home.tsx:152-158 | the page moves exactly when pagination exists and 1 <= newPage <= total_pages |
| Home.Catalogue.FetchCategoryInfo | src/pages/Home.tsx:36-61 | with a category id and a tree holding it, the name of the first match in pre-order; otherwise the name is unchanged |
| Base64.StdValue | src/hooks/usePushNotifications.ts:11 | a base64 digit's value maps back to the same digit |
| Base64.EncodeDigits | src/hooks/usePushNotifications.ts:5-9 | the digits of an encoding are all base64 digits, four per three bytes plus two or three for a tail |
| Base64.ToStandardConcat | src/hooks/usePushNotifications.ts:7-9 | the alphabet change works character by character |
| Base64.StandardOfUrlSafe | src/hooks/usePushNotifications.ts:7-9 | mapping base64 digits to the URL-safe alphabet and back is the identity |
| Base64.Atob | src/hooks/usePushNotifications.ts:11 | every character `atob` returns has a code below 256 |
| Base64.AtobRejectsLoneDigit | src/hooks/usePushNotifications.ts:11 | `atob` throws on input whose length, once ASCII white space is removed, is 1 more than a multiple of 4 |
| Base64.DecodeEncodeDigits | src/hooks/usePushNotifications.ts:11 | decoding the digits of an encoding gives the bytes back |
| Base64.DropPaddingOfEncode | src/hooks/usePushNotifications.ts:11 | a padded encoding has no white space and loses exactly its `=` before decoding |
| Base64.AtobEncode | src/hooks/usePushNotifications.ts:11 | `atob` of a padded base64 encoding is the binary string of the bytes |
| PushNotifications.PaddingFor | src/hooks/usePushNotifications.ts:6 | fewer than four `=`, bringing the length to a multiple of 4 |
| PushNotifications.UrlBase64ToBase64Shape | src/hooks/usePushNotifications.ts:6-9 | the padded key's length is a multiple of 4, and every character after the key is `=`; `-` becomes `+`, `_` becomes `/`, and nothing else changes |
| PushNotifications.CharCodes | src/hooks/usePushNotifications.ts:12-16 | one byte per character, equal to the character code when that is below 256 |
| PushNotifications.UrlBase64ToUint8Array | src/hooks/usePushNotifications.ts:5-18 | None exactly where `atob` throws; otherwise a new array of the decoded length whose byte i is the char code at i |
| PushNotifications.ConvertDigits | src/hooks/usePushNotifications.ts:6-9 | the conversion of URL-safe digits gives back the base64 digits with their padding |
| PushNotifications.KeyConversion | src/hooks/usePushNotifications.ts:5-11 | the converted unpadded base64url key is exactly the padded base64 encoding of the same bytes |
| PushNotifications.KeyRoundTrip | src/hooks/usePushNotifications.ts:5-18 | a key published as unpadded base64url turns back into its own bytes |
| PushNotifications.ToRegister | src/hooks/usePushNotifications.ts:63-75 | an existing subscription is reused; a new one exists only when none did, the key decoded and creation succeeded |
| PushNotifications.ObtainSubscription | src/hooks/usePushNotifications.ts:63-75 | the key is fetched only when no subscription exists; a new subscription is created only then, with the decoded key; nothing is registered or prompted |
| PushNotifications.SubscribeToPush | src/hooks/usePushNotifications.ts:39-86 | unsupported: false and no calls; not granted: false after only the prompt; registration happens exactly when permission is granted and a subscription is obtained; true exactly when the backend accepts without `error`; registration is the last call |
| PushNotifications.SubscribesWithPublishedKey | src/hooks/usePushNotifications.ts:65-74 | with no subscription and a published key, the new subscription uses that key's bytes |
| PushNotifications.CheckPushSubscription | src/hooks/usePushNotifications.ts:89-109 | true exactly when both APIs exist, permission is granted and a subscription exists; never prompts |
| PushNotifications.PushHook.constructor | src/hooks/usePushNotifications.ts:113-115 | not subscribed, not loading, permission 'default' |
| PushNotifications.PushHook.CheckStatus | src/hooks/usePushNotifications.ts:118-128 | with the Notification API the permission and subscription status are read; without it nothing changes |
| PushNotifications.PushHook.Subscribe | src/hooks/usePushNotifications.ts:130-142 | the subscription status is the flow's result; the permission reads granted after a success; never loading afterwards |
| PushDialog.Dialog.constructor | src/components/PushNotificationDialog.tsx:6-7 | the dialog starts hidden |
| PushDialog.Dialog.RunEffect | src/components/PushNotificationDialog.tsx:9-27 | unsupported: nothing changes; granted or subscribed: hidden; otherwise, once the delay elapses, shown exactly when not dismissed; a dismissed dialog never shows |
| PushDialog.Dialog.HandleSubscribe | src/components/PushNotificationDialog.tsx:29-40 | permission denied: an alert and no call to the hook; otherwise the hook subscribes, its permission reads granted after a success and is kept after a failure, and the dialog closes exactly on success |
| PushDialog.Dialog.HandleDismiss | src/components/PushNotificationDialog.tsx:42-45 | hides the dialog and writes 'true' under the dismissal key |
| PushToggle.ButtonLabel | src/components/PushNotificationToggle.tsx:58-78 | caption precedence: loading, then subscribed, then denied, then the invitation |
| PushToggle.StatusLine | src/components/PushNotificationToggle.tsx:34-39 | status precedence: subscribed, then denied, then the invitation |
| PushToggle.Disabled | src/components/PushNotificationToggle.tsx:46 | the button is disabled exactly when its caption is not the invitation |
| PushToggle.HiddenToggleLosesNothing | src/components/PushNotificationToggle.tsx:16-18 | where the switch does not render (an API is missing), subscribing could not succeed |
| PushToggle.TextsDistinguishStates | src/components/PushNotificationToggle.tsx:34-78 | different states get different captions and different status lines |
| PushToggle.EnabledMeansActivate | src/components/PushNotificationToggle.tsx:46 | the button is enabled exactly when it shows the invitation, and a click on it then subscribes |
| PushToggle.LabelAgreesWithStatus | src/components/PushNotificationToggle.tsx:34-78 | outside loading, caption and status line name the same state |
| PushToggle.HandleToggle | src/components/PushNotificationToggle.tsx:20-24 | subscribes exactly when not subscribed and not denied, leaving the hook's subscription and permission as `subscribe` sets them; otherwise the hook is untouched |
| ServiceWorker.UrlOrDefault | public/service-worker.js:23 | a truthy URL is kept; a missing or empty one gives '/' |
| ServiceWorker.OnPush | public/service-worker.js:1-17 | a notification exactly for JSON data, with the payload's title and body, the fixed icon, badge and vibration, and the payload URL or '/' |
| ServiceWorker.FirstReusable | public/service-worker.js:29-34 | the index of the first client on the origin that can be focused, or None when no client qualifies |
| ServiceWorker.OnNotificationClick | public/service-worker.js:20-41 | closes first; then focuses and navigates the first reusable client only; with none, opens a window exactly when `openWindow` exists |
| ServiceWorker.ClickFollowsPushedUrl | public/service-worker.js:8-23 | a click on a pushed notification goes to the payload URL, or '/' |
| Profile.NormaliseOrders | src/pages/Profile.tsx:45-53 | the first array among the reply, its `orders` and its `data`, else empty |
| Profile.NormaliseAddresses | src/pages/Profile.tsx:68-72 | the `addresses` array, else empty |
| Profile.RemoveAddress | src/pages/Profile.tsx:108 | keeps exactly the addresses whose id differs |
| Profile.RemoveAddressKeepsOrder | src/pages/Profile.tsx:108 | the remaining addresses keep their order |
| Profile.RemoveAddressCounts | src/pages/Profile.tsx:108 | every entry with the id goes, every other stays as often as it occurred |
| Profile.RemoveAbsentAddress | src/pages/Profile.tsx:108 | removing an id that is absent changes nothing |
| Profile.FormFor | src/pages/Profile.tsx:166-172 | the form holds the user's name, the phone or '' and no avatar |
| Profile.ProfilePage.constructor | src/pages/Profile.tsx:30-40 | no orders or addresses, flags down, the form filled from the user |
| Profile.ProfilePage.FetchOrders | src/pages/Profile.tsx:42-61 | a reply sets the normalised orders; an error keeps them and shows an alert exactly for status 500 with a user |
| Profile.ProfilePage.FetchAddresses | src/pages/Profile.tsx:63-85 | a reply sets the normalised addresses; an error keeps them with no user and empties them with one; not loading afterwards |
| Profile.ProfilePage.HandleUpdateProfile | src/pages/Profile.tsx:87-104 | sends the form; closes the editor only when update and refresh succeed; not updating afterwards |
| Profile.ProfilePage.HandleDeleteAddress | src/pages/Profile.tsx:106-118 | the entries with the id disappear at once; on failure the list is the exact snapshot from before |
| Profile.ProfilePage.OpenEditor | src/pages/Profile.tsx:166-173 | resets the form from the user and opens the editor |
| PhoneAlert.Banner | src/components/PhoneAlert.tsx:9-25 | hidden exactly when not authenticated, without a user, with a phone, or on '/onboarding'; otherwise links to '/onboarding' |
| PhoneAlert.BannerGoesAway | src/components/PhoneAlert.tsx:9 | the banner never shows on the page it links to, and saving a non-empty phone hides it |

## Left out

- Timing and concurrency: the 500 ms debounce, the 3 s dialog delay (a `timerFired` flag stands in), overlapping fetches, races between cart requests, effect scheduling and unmount cleanup.
- React's functional state updates are taken to run on the state as it was when the request was sent, since no other update interleaves in a sequential model.
- Floating point: prices are integers in minor currency units, so `subtotal` is exact integer arithmetic. `formatPrice` and `Intl.NumberFormat` are not part of this model.
- `toLowerCase` is ASCII lowercasing. Unicode case mapping is not part of this model.
- Strings are sequences of code points. JavaScript's UTF-16 lengths differ for characters outside the Basic Multilingual Plane; the 3-character minimum and `length > 2` count code points here.
- The default `quantity = 1` of `addToCart` is not modelled: `AddToCart` always receives the quantity explicitly.
- The `activate` handler of the service worker only calls `clients.claim()`; `ServiceWorker.OnActivate` returns that single effect and carries no contract, since there is nothing to state about it.
- `encodeURIComponent` in the search URL is not modelled; `HandleSearch` returns the raw query.
- The request parameters built for `/products` (`search`, `q`, `name`, `page`, `per_page`) and the choice of endpoint are not modelled.
- The notification tag (`'notification-' + new Date().getTime()`) reads the clock and is left out of `ServiceWorker.Options`.
- Console output, `window.alert` text, `showSuccess` and `showError` messages, and `window.scrollTo` are left out. Whether an error alert is shown is returned as a flag.
- The service modules (`src/services/cart.ts`, `order.ts`, `address.ts`, `auth.ts`) and the axios client are not part of this model. Their results are method parameters.
- `getAddresses` and `deleteAddress` are called in `src/pages/Profile.tsx` with signatures that `src/services/address.ts` does not export. The model treats them as requests that resolve with a body or reject.
- Geolocation, the affiliate tracker, the onboarding page, SEO metadata, static pages and markup are outside the modelled core.
- Home.FindCategory compares ids with `===` on strings. The source compares with loose `==`, which also equates a numeric id with its decimal string.
- Home.FindCategory treats a category without `children` as having an empty list, which is what the source's `if (cat.children)` guard does. A non-array `children` value is not modelled.
- `navigator.serviceWorker.ready` is taken to resolve. In a browser without an active worker it never settles, and the flow would wait forever.
- PushNotifications.PushHook.Subscribe: after a successful subscribe, `Notification.permission` is taken to read 'granted'. The flow only succeeds after the prompt answered 'granted'.
- PushNotifications.UrlBase64ToUint8Array: the `Uint8Array` stores each character code modulo 256. `atob` only yields codes below 256, so nothing is truncated.
- Base64.Atob covers the forgiving-base64 decode over its whole input domain. For inputs with white space or non-zero left-over bits no decoded value is stated: only the lone-digit rejection (`Base64.AtobRejectsLoneDigit`) and the byte range of the result are. The decoded value is proved only for padded encodings (`Base64.AtobEncode`).
- CartContext.CartStore.ItemCount and CartContext.CartStore.CartSubtotal state only the empty-cart value themselves. How the sums change under each update is stated by the lemmas on `TotalItems` and `Subtotal`.
- The contents of `subscription.toJSON()` and the backend's error message are not modelled. A reply with `error` set counts as a rejection.
