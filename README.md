# BeautyVerse client-side stores, modelled in Dafny

BeautyVerse is a storefront for beauty products and service professionals. Its browser client keeps a little state of its own: a shopping cart, a list of appointment bookings with a registry of reserved slots, and a login session. All of it is mirrored into browser storage. This project models that state and the rules that change it:

- `cart.dfy` (module `Cart`): the cart provider. It holds line items keyed by product id, with add (insert or increment), remove, clamped quantity update, clear and the two derived totals. The list is rehydrated from storage and persisted after every change.
- `booking.dfy` (module `Bookings`): the booking provider. It holds the user's bookings and a registry of reserved (artist, date, time) slots shared by every user of the browser. Booking a taken slot is refused; cancelling frees the slot.
- `auth.dfy` (module `Auth`): the session provider. It restores the identity from a stored token on mount, and has login, register, logout and the `auth-401` listener. It also models what the HTTP client does to storage on a 401 reply (see Findings).
- `route_guard.dfy` (module `RouteGuard`): the protected-route decision. It shows a spinner, redirects to `/login` or `/`, or renders the page.
- `artist_form.dfy` (module `ArtistForm`): the list editors of the artist registration form. They toggle specialties and add or remove availability slots.
- `lists.dfy` (module `Lists`): `filter`, `map`, `find`, `some` and `reduce` as functions on sequences, with the lemmas the stores share. `wrappers.dfy` (module `Wrappers`) holds `Option` and `Result`.

Modelling choices:

- Each provider is a class. Its React state cells are fields, and its storage is a `map` field. The stores use disjoint storage keys, so each class owns its own map. JSON text is replaced by typed values.
- The operations are methods. Each method's `ensures` ties the new state to pure functions of the old state (`Cart.Add`, `Bookings.FreeSlot`, `ArtistForm.Toggle`, ...). The lemmas about those functions state what the source promises.
- Inputs the client does not compute are parameters:
  - the HTTP outcome of login and register, a `Result` holding either the resolved body or the message of the thrown error;
  - the booking id that `Date.now()` would give;
  - the logged-in user for the booking store.
- JavaScript details are written out:
  - the cart's effective price: a missing or zero discounted price falls back to the base price;
  - an absent or empty booking status counts as upcoming;
  - storing an absent refresh token writes the text `"undefined"`;
  - the booking key of a user with no stored name is `bookings_null`;
  - an empty stored token counts as no token.
- Where the code and the system's documented design disagree, the model follows the code:
  - the session's admin flag comes from the username being the literal `"admin"`, not from a server field;
  - the booking store is local-only, with the shared slot registry, and makes no remote call;
  - the HTTP client's error message uses only `detail`, then `error`, then a generic text; it builds no field-error message;
  - the HTTP client never emits the authentication-failure signal (see Findings);
  - the subtotal falls back to the base price only for a zero or absent discounted price; a negative one is used as is.

## Model

| member | source | states |
|---|---|---|
| `Lists.Filter` | src/context/CartContext.jsx:38 | `filter` keeps exactly the elements satisfying the predicate and never grows the list |
| `Lists.Map` | src/context/CartContext.jsx:27-31 | `map` keeps the length and applies the function at every index |
| `Lists.Find` | src/context/BookingContext.jsx:73 | `find` is absent iff no element matches, else it is the first matching element |
| `Lists.Any` | src/context/BookingContext.jsx:39-41 | `some` holds iff some element satisfies the predicate |
| `Lists.FilterConcat` | src/context/BookingContext.jsx:75 | filtering distributes over concatenation, so the kept elements stay in their original order |
| `Cart.Add` | src/context/CartContext.jsx:23-34 | an id already in the cart: same length and order, same snapshots, +1 on the matching line only; a new id: the old list followed by exactly one line with quantity 1 |
| `Cart.Remove` | src/context/CartContext.jsx:37-39 | no line with the id is left, every other line is kept, nothing new appears, and an absent id changes nothing |
| `Cart.Update` | src/context/CartContext.jsx:41-51 | same length and snapshots; a matching line gets max(1, quantity + delta), so it is never below 1 and never removed; other lines and absent ids are untouched |
| `Cart.AddWellFormed` | src/context/CartContext.jsx:23-34 | adding keeps "one line per id, quantity at least 1" |
| `Cart.RemoveWellFormed` | src/context/CartContext.jsx:37-39 | removing keeps "one line per id, quantity at least 1" |
| `Cart.UpdateWellFormed` | src/context/CartContext.jsx:41-51 | updating a quantity keeps "one line per id, quantity at least 1" |
| `Cart.AddTwice` | src/context/CartContext.jsx:25-33 | adding a new product twice gives one new line with quantity 2 at the end |
| `Cart.AddPresentTotals` | src/context/CartContext.jsx:57-58 | adding a product already on line k of a well-formed cart raises the item count by 1 and the subtotal by that line's effective price |
| `Cart.AddTotals` | src/context/CartContext.jsx:57-58 | in a well-formed cart, adding raises the item count by exactly 1 and the subtotal by the effective price of that product's line (its existing snapshot, or the new product) |
| `Cart.RemoveLine` | src/context/CartContext.jsx:37-39 | in a cart with one line per id, removing the id of line k cuts exactly that line out and keeps the rest in order |
| `Cart.RemoveTotals` | src/context/CartContext.jsx:57-58 | in a cart with one line per id, removing a line lowers the item count by its quantity and the subtotal by its line total |
| `Cart.IncrementTotals` | src/context/CartContext.jsx:57-58 | incrementing the matching lines adds one unit and one unit price per matching line to the totals |
| `Cart.QuantitySumBound` | src/context/CartContext.jsx:57 | with every quantity at least 1, the item count is at least the number of lines |
| `Cart.EffectivePrice` | src/context/CartContext.jsx:58 | the unit price is `final_price` when it is present and non-zero, else the base price |
| `Cart.TotalsOfLine` | src/context/CartContext.jsx:57-58 | one line adds its quantity to the item count and its effective price times its quantity to the subtotal |
| `Cart.TotalsConcat` | src/context/CartContext.jsx:57-58 | both totals are additive over concatenation, as sums over the lines |
| `Cart.SubtotalExample` | src/context/CartContext.jsx:58 | two units at 1000 and one unit whose 2000 is discounted to 1500 give a subtotal of 3500 |
| `Cart.PriceSumNonNegative` | src/context/CartContext.jsx:58 | with no negative quantity or effective price, the subtotal is not negative |
| `Cart.CartStore.constructor` | src/context/CartContext.jsx:14-21 | the list is the saved cart, or empty when none is saved, and it is persisted under `beautyVerseCart` |
| `Cart.CartStore.AddToCart` | src/context/CartContext.jsx:23-35 | the list becomes `Add` of the old list and is persisted; storage mirrors the list; a well-formed cart stays well-formed |
| `Cart.CartStore.RemoveFromCart` | src/context/CartContext.jsx:37-39 | the list becomes `Remove` of the old list and is persisted; a well-formed cart stays well-formed |
| `Cart.CartStore.UpdateQuantity` | src/context/CartContext.jsx:41-51 | the list becomes `Update` of the old list and is persisted; a well-formed cart stays well-formed |
| `Cart.CartStore.ClearCart` | src/context/CartContext.jsx:53-55 | the list becomes empty, which is well-formed, and the empty list is persisted |
| `Cart.CartStore.TotalItems` | src/context/CartContext.jsx:57 | `totalItems` is 0 for an empty cart and at least the number of lines in a well-formed cart |
| `Cart.CartStore.Subtotal` | src/context/CartContext.jsx:58 | `subtotal` is 0 for an empty cart and not negative when every quantity is at least 1 and no effective price is negative |
| `Bookings.KeysDiffer` | src/context/BookingContext.jsx:58 | no user's `bookings_<name>` key can be the shared registry's key |
| `Bookings.BookingsKey` | src/context/BookingContext.jsx:18 | a user's list lives under `bookings_` followed by the username, or by `null` when the name is missing |
| `Bookings.NewBooking` | src/context/BookingContext.jsx:52 | the new booking carries the request's slot and details, the given id and status "upcoming", so it counts as upcoming |
| `Bookings.IsUpcoming` | src/context/BookingContext.jsx:96 | a booking counts as upcoming iff its status is "upcoming", absent or empty |
| `Bookings.IsSlotBooked` | src/context/BookingContext.jsx:38-42 | a slot is booked iff some registry entry equals (artist, date, time) on all three fields |
| `Bookings.WithoutBooking` | src/context/BookingContext.jsx:75 | cancelling keeps exactly the bookings with another id |
| `Bookings.FreeSlot` | src/context/BookingContext.jsx:83-85 | every registry entry with the booking's triple is removed, the others stay, and the slot is no longer booked |
| `Bookings.CountUpcoming` | src/context/BookingContext.jsx:96 | the upcoming count never exceeds the number of bookings |
| `Bookings.UpcomingCountCreate` | src/context/BookingContext.jsx:52-55 | a new booking (status "upcoming") raises the upcoming count by exactly 1 |
| `Bookings.UpcomingCountCancel` | src/context/BookingContext.jsx:75 | cancelling never raises the upcoming count |
| `Bookings.CancelKeepsOrder` | src/context/BookingContext.jsx:75 | the remaining bookings keep their relative order |
| `Bookings.CancelAbsent` | src/context/BookingContext.jsx:75-78 | cancelling an id no booking has leaves the list unchanged |
| `Bookings.FreeSlotNoDup` | src/context/BookingContext.jsx:82-88 | freeing a slot keeps "no two registry entries share a triple" |
| `Bookings.BookingStore.constructor` | src/context/BookingContext.jsx:28-36 | on mount the registry is loaded from storage, and the user's list too when a user is logged in, else it is empty |
| `Bookings.BookingStore.FetchBookings` | src/context/BookingContext.jsx:14-26 | without a user nothing changes; with one both lists are reloaded from storage and loading ends false |
| `Bookings.BookingStore.OnUserChange` | src/context/BookingContext.jsx:28-36 | a user change reloads the registry and the new user's list, or empties the list on logout |
| `Bookings.BookingStore.CreateBooking` | src/context/BookingContext.jsx:44-69 | a taken slot fails with "This slot is already reserved" and changes nothing; otherwise the new booking (request, given id, status "upcoming") is put first in memory and in the stored list, its slot is appended and persisted, and afterwards the slot is booked; registry uniqueness is preserved |
| `Bookings.BookingStore.CancelBooking` | src/context/BookingContext.jsx:71-94 | bookings with the id leave memory and storage; if one was found, all registry entries with its triple are removed and persisted; otherwise the registry is unchanged; registry uniqueness is preserved |
| `Bookings.BookingStore.UpcomingCount` | src/context/BookingContext.jsx:96 | `upcomingCount` never exceeds the number of bookings and is 0 without bookings |
| `Bookings.DoubleBooking` | src/context/BookingContext.jsx:45-47 | after mounting, requesting the same slot twice always refuses the second request; the first is refused iff the stored registry already held the slot |
| `Bookings.CancelFreesSlot` | src/context/BookingContext.jsx:82-88 | a slot booked and then cancelled can be booked again |
| `Auth.Restore` | src/context/AuthContext.jsx:12-20 | a user is restored iff a non-empty access token is stored; it carries the stored username and is admin iff that name is "admin" |
| `Auth.Identity` | src/context/AuthContext.jsx:15-19 | the identity carries the given username and is admin iff that name is "admin" |
| `Auth.SaveLogin` | src/context/AuthContext.jsx:37-39 | a login stores the access token, the refresh token (the text "undefined" when absent) and the username, and keeps every other entry |
| `Auth.ClearSession` | src/context/AuthContext.jsx:64-67 | the three session keys are removed and every other entry is kept |
| `Auth.RestoreConsistent` | src/context/AuthContext.jsx:12-20 | the restored user satisfies the session invariant (identity iff token, with the stored name) |
| `Auth.LoginConsistent` | src/context/AuthContext.jsx:36-42 | the state after a successful login satisfies the session invariant |
| `Auth.LogoutConsistent` | src/context/AuthContext.jsx:64-69 | the state after logout satisfies the session invariant |
| `Auth.LogoutIdempotent` | src/context/AuthContext.jsx:64-69 | logging out twice leaves the same storage as logging out once |
| `Auth.SessionStore.constructor` | src/context/AuthContext.jsx:7-8 | the first render has no user and is loading |
| `Auth.SessionStore.Init` | src/context/AuthContext.jsx:11-21 | the mount check sets the restored user, leaves storage alone and ends loading; the invariant holds afterwards |
| `Auth.SessionStore.Login` | src/context/AuthContext.jsx:32-49 | a reply with a truthy `access` stores both tokens and the username, sets the user (admin iff the name is "admin") and succeeds; a reply without it fails with "Invalid login response", and a thrown error fails with its message, both leaving user and storage unchanged |
| `Auth.SessionStore.Register` | src/context/AuthContext.jsx:53-60 | success iff the registration call resolved, else failure with the error's message; user and storage are not touched |
| `Auth.SessionStore.Logout` | src/context/AuthContext.jsx:64-69 | the session keys are removed, the user is cleared, and the invariant holds |
| `Auth.SessionStore.OnAuthFailure` | src/context/AuthContext.jsx:23-25 | the `auth-401` listener has exactly the effect of logout |
| `Auth.ExpireTokenLeavesStaleUser` | src/utils/api.js:24-27 | as written, a 401 reply removes the token from a consistent logged-in session and breaks the session invariant |
| `Auth.SessionStore.OnUnauthorizedAsWritten` | src/utils/api.js:24-27 | a 401 reply removes only the access token and leaves the user in place |
| `Auth.ExpireToken` | src/utils/api.js:26 | after a 401 no access token is stored and every other key reads as before |
| `Auth.ExpireThenLogoutConsistent` | src/context/AuthContext.jsx:23-26 | removing the token and then logging out gives a consistent logged-out state, the same as logging out alone |
| `Auth.SessionStore.OnUnauthorized` | src/utils/api.js:24-27 | with the listener told, a 401 reply ends logged out with the session keys removed and the invariant holding |
| `RouteGuard.Guard` | src/components/auth/ProtectedRoute.jsx:8-24 | a spinner iff loading; a redirect to `/login` iff not loading and no user; a redirect to `/` iff a non-admin user meets `minRole` "admin"; the page iff a user is present and the role is not "admin" or the user is admin |
| `RouteGuard.AdminPageNeedsAdminName` | src/components/auth/ProtectedRoute.jsx:20-22 | for an identity built by the session store, an admin page opens iff the username is "admin", and any other page opens for every logged-in user |
| `ArtistForm.Toggle` | src/components/professionals/AddProfessionalForm.jsx:41-47 | a selected category is removed everywhere and only it is dropped; an unselected one is appended at the end |
| `ArtistForm.ToggleNoDup` | src/components/professionals/AddProfessionalForm.jsx:41-47 | toggling keeps a duplicate-free selection duplicate-free |
| `ArtistForm.ToggleTwice` | src/components/professionals/AddProfessionalForm.jsx:41-47 | toggling twice restores the selected set, and restores the list exactly when the category was not selected |
| `ArtistForm.AddSlot` | src/components/professionals/AddProfessionalForm.jsx:49-53 | an empty date or time changes nothing; otherwise the entry is appended and reset to empty date and time |
| `ArtistForm.RemoveAt` | src/components/professionals/AddProfessionalForm.jsx:55-57 | an index in range removes exactly that element and keeps the rest in order; an index out of range changes nothing |
| `ArtistForm.AddSlotComplete` | src/components/professionals/AddProfessionalForm.jsx:49-53 | the guard of `addSlot` keeps every stored slot with both date and time filled |
| `ArtistForm.RemoveAtComplete` | src/components/professionals/AddProfessionalForm.jsx:55-57 | removing a slot keeps every remaining slot complete |
| `ArtistForm.EditorState.constructor` | src/components/professionals/AddProfessionalForm.jsx:24-28 | the form starts with no specialties, no slots (so all slots are complete) and an empty entry |
| `ArtistForm.EditorState.ToggleCategory` | src/components/professionals/AddProfessionalForm.jsx:41-47 | the specialties become `Toggle` of the old ones, stay duplicate-free, and nothing else changes |
| `ArtistForm.EditorState.SetDate` | src/components/professionals/AddProfessionalForm.jsx:229 | the entry's date is replaced, nothing else changes |
| `ArtistForm.EditorState.SetTime` | src/components/professionals/AddProfessionalForm.jsx:232 | the entry's time is replaced, nothing else changes |
| `ArtistForm.EditorState.AddCurrentSlot` | src/components/professionals/AddProfessionalForm.jsx:49-53 | slots and entry become `AddSlot` of the old ones; specialties are untouched; complete slots stay complete |
| `ArtistForm.EditorState.RemoveSlot` | src/components/professionals/AddProfessionalForm.jsx:55-57 | the slots become `RemoveAt` of the old ones; nothing else changes; complete slots stay complete |

## Left out

- The HTTP client (`src/utils/api.js`) is not modelled: headers, `fetch`, JSON parsing, logging and the error message. Its outcome is an input `Result`. Only its 401 effect on storage is modelled, for the finding below.
- Network calls in general, the 300 ms delay in `createBooking`, and the clock behind `Date.now()`. The delay is dropped and the id is a parameter.
- React rendering, effects scheduling and stale closures. The model runs each handler to completion in sequence, with the state of the moment. Interleavings of the `await` in `createBooking` with other handlers are not modelled.
- Window event registration and removal for `auth-401`. The listener is a method that calls logout.
- JSON text in storage. Storage holds typed values. A booking key that holds a slot list, or the reverse, reads as an empty list; malformed JSON is not represented, and storage never throws. So the `catch` branch of `cancelBooking` is not modelled, and `cancelBooking` returns nothing. That branch is reachable when reading or writing storage throws: malformed JSON, a stored value that is not a list, or full storage.
- Values of unexpected JavaScript types: string prices, `NaN`, and ids compared across types. Ids and prices are integers, and dates, times and names are strings.
- The always-true `loggedIn` field of the user object, and the never-set `error` of the booking store.
- The artist form's submit path (FormData, file upload, reset after success), the image preview, and the plain text-field handler.
- Product discount arithmetic, the admin category calls, and the page components.

## Findings

| source | as written | input that shows it | evidently intended | confidence | as-written member | corrected member |
|---|---|---|---|---|---|---|
| src/utils/api.js:24-27 | a 401 reply only removes `access_token`; nothing dispatches the `auth-401` event that `src/context/AuthContext.jsx:23-26` listens for | a logged-in session (token and username stored, user set) makes any API call that is answered with status 401: afterwards no token is stored, but the user is still logged in, so protected pages still render | the client signals the session store, which logs out, so the identity and the token disappear together | medium (another module of the application could dispatch it); not executed | `Auth.ExpireTokenLeavesStaleUser` | `Auth.SessionStore.OnUnauthorized` |
