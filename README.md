# bird-eye delivery app: rule sets of the Convex backend and the order screens

This project models, in Dafny, the self-contained rules of the bird-eye
delivery app (an Expo/React Native client over a Convex backend):

- the **role registry** (`convex/mutations.ts`): `userCreatedMutation`
  registers a `customer` or `driver` role for a user id the first time that
  id is seen and silently ignores later registrations;
- the **read scoping** of `convex/queries.ts`: `getUserType`,
  `getUserOrders`, `getSingleOrder` and `getUserProfile` decide, per
  caller identity and role, which role, which orders and which profile come
  back, and which error is thrown;
- the **delivery fee** `calculateFee` of `utils/distance.ts`;
- the **action gating** of the order-details screen
  (`app/order-details.tsx`): which driver action, customer action, PIN and
  status label are shown for an order; this is the only place where the
  four-stage lifecycle `pending → assigned → picked_up → delivered` is
  encoded;
- the **PIN entry widget** (`components/PinInput.tsx`): one-character
  slots, focus moves, completion;
- the **location picker** (`components/LocationInput.tsx`): address-line
  formatting from reverse geocoding, the five-prediction cap, the
  two-character search guard and the state resets after a place lookup.

Modules: `Wrappers` (Option, Result), `Seqs` (the `.filter().collect()` and
`.filter().first()` scans), `Schema` (the table records and the `Role`
union), `Registry`, `Queries`, `Fee`, `OrderDetails`, `PinEntry`,
`LocationSearch`.

How the model maps the source:

- Tables are sequences in stored order. `.first()` is the first match in
  that order, `.collect()` after a filter keeps every match in that order.
- The caller's identity is a parameter (`Option<Identity>`, `None` when not
  signed in). Thrown errors are `Err(Unauthorized)` and
  `Err(UserTypeNotFound)`.
- The queries are functions of the identity and the table contents, so
  none of them can change either table. The one mutation is a method of the
  `Database` class, and it changes only the `userType` table.
- The registry's `type` field is called `role` (the word is reserved in
  Dafny). Order status is kept as the raw string the code compares. The
  order record has the fields the queries filter on and the screen's gating
  reads, plus `deliveryFee`, which the screen displays with 500 added
  (`OrderDetails.DisplayedFee`); the other displayed fields are left out.
- JavaScript truthiness (`x || d`, `order.driverId && …`) is written out:
  an optional string counts only when present and non-empty.
- Distances and fees are exact `real`s.
- The PIN widget's focus is the index of the slot last asked to take focus.
  It is `None` until the first such request, because the widget sets no
  initial focus. `onPinComplete` is the method's returned PIN.

Behaviour of the code that the model keeps as written:

- `calculateFee` does not clamp negative distances; a negative distance
  gives less than the base fee.
- Orders are scoped for customers by the `userId` field. The code has no
  order mutations: accept, pickup, confirm and delete are called by the
  screen but are not defined in `convex/mutations.ts`.
- `getUserType` fails with "User type not found" when no role record
  matches. The queries in convex/queries.ts return whole order documents, PIN
  included, to drivers as well as customers.

## Model

| member | source | states |
|---|---|---|
| `Seqs.Filter` | convex/queries.ts:44-56 | a filtered scan returns exactly the rows satisfying the filter, each with its multiplicity, in table order |
| `Seqs.First` | convex/queries.ts:12-15 | `.first()` is empty iff no row matches; otherwise it is a matching row with no match before it |
| `Registry.FindUserType` | convex/mutations.ts:14 | the role lookup finds nothing iff the id has no record, else the id's earliest record |
| `Registry.Database.UserCreated` | convex/mutations.ts:10-23 | if the id has a record the table is unchanged; otherwise exactly `{userId, type, phoneNumber}` is appended; the `orders` table is untouched |
| `Registry.RegisteredRole` | convex/mutations.ts:14-21 | after registration the id has a record, and it is the earlier one if there was one, else the one just given |
| `Registry.RegisterIdempotent` | convex/mutations.ts:14-22 | a second registration of the same id, with any role and phone, leaves the table as the first left it (first write wins) |
| `Registry.RegisterExtends` | convex/mutations.ts:16-21 | existing records are never modified: the old table is a prefix of the new one |
| `Registry.RegisterKeepsOthers` | convex/mutations.ts:16-21 | lookups of every other user id are unchanged by a registration |
| `Registry.RegisterPreservesUnique` | convex/mutations.ts:14-21 | at most one record per user id before implies the same after |
| `Queries.GetUserType` | convex/queries.ts:4-23 | Unauthorized iff there is no identity; "User type not found" iff no record has the subject; otherwise the role of the subject's first record |
| `Queries.GetUserOrders` | convex/queries.ts:25-59 | same errors as `getUserType`; a driver gets exactly the pending orders and the orders whose driverId is the subject, and any other role exactly the orders whose userId is the subject, in table order with multiplicity |
| `Queries.GetSingleOrder` | convex/queries.ts:84-116 | same errors; any order returned is in the table, has the requested trackingId and is in the caller's scope |
| `Queries.GetUserProfile` | convex/queries.ts:61-82 | fails only with Unauthorized and only without identity; role is the stored one or "customer" when missing; name falls back to "User", email and pictureUrl to "" |
| `Queries.CustomerSeesOnlyOwnOrders` | convex/queries.ts:51-56 | a customer never receives an order whose userId is someone else's |
| `Queries.SingleOrderIsUserOrder` | convex/queries.ts:102-113 | the order `getSingleOrder` returns is in `getUserOrders` for the same caller, and is the first of those with that trackingId |
| `Queries.SingleOrderNoneIff` | convex/queries.ts:102-113 | `getSingleOrder` returns nothing iff no order of the caller's `getUserOrders` carries that trackingId |
| `Seqs.FirstOfFilter` | convex/queries.ts:103-110 | the first `q`-row of the `p`-filtered rows is the first row satisfying `p` and `q` |
| `Fee.CalculateFee` | utils/distance.ts:27-31 | total; the fee is at least 500 iff the distance is non-negative (no clamping), and exactly 500 iff the distance is 0 |
| `Fee.FeeIsAffine` | utils/distance.ts:28-30 | fee differences are 100 per kilometre of distance difference |
| `Fee.FeeStrictlyIncreasing` | utils/distance.ts:30 | a longer distance always gives a strictly larger fee |
| `Fee.FeeExamples` | utils/distance.ts:27-30 | the fee is 500 at 0 km, 1000 at 5 km and 1500 at 10 km |
| `OrderDetails.DriverActions` | app/order-details.tsx:318-381 | at most one driver action is shown; Accept iff driver and pending; Pickup iff driver, assigned and a driverId; Confirm iff driver, picked_up and a driverId; Completed iff driver and delivered |
| `OrderDetails.ShownPin` | app/order-details.tsx:384-395 | the PIN is shown iff the caller is a customer, the order has a PIN and is not delivered; what is shown is the order's PIN |
| `OrderDetails.DeleteOffered` | app/order-details.tsx:384-409 | "Delete Order" is offered iff the caller is a customer and the status is pending or assigned |
| `OrderDetails.StatusLabel` | app/order-details.tsx:215-218 | pending, assigned and picked_up each get their own label; every other status reads "Delivered" |
| `OrderDetails.DriverActionPerStage` | app/order-details.tsx:321-379 | each lifecycle stage offers a driver exactly its own action, distinct from the other stages' actions; pending and delivered orders need no driver for it, assigned and picked-up orders need one |
| `OrderDetails.NoDriverNoTransition` | app/order-details.tsx:342-363 | pickup and delivery confirmation are never offered when the order has no driverId |
| `OrderDetails.ActionsSplitByRole` | app/order-details.tsx:318-412 | driver actions and customer actions are never offered together |
| `OrderDetails.UnknownStatusReadsDelivered` | app/order-details.tsx:215-218 | a status outside the lifecycle is labelled "Delivered", offers drivers nothing, and still shows a customer the PIN |
| `OrderDetails.ScreenActionsReachOnlyOwners` | app/order-details.tsx:318-395 | for the order `getSingleOrder` returned, pickup and delivery confirmation are offered only to the driver the order is assigned to, and the PIN and delete button only to the customer who created it, although the screen itself checks only that some driver is set |
| `PinEntry.PinInput.constructor` | components/PinInput.tsx:23 | initial state is `pinLength` empty slots |
| `PinEntry.PinInput.Default` | components/PinInput.tsx:19 | without a length the widget has 4 empty slots |
| `PinEntry.PinInput.HandlePinChange` | components/PinInput.tsx:26-42 | a value longer than one character changes no slot; otherwise only slot `index` changes; focus moves to `index+1` iff a character was typed and `index < pinLength-1`; completion fires iff every slot is filled, with the joined PIN of length `pinLength` whose i-th character is slot i's character; clearing never completes; slots keep at most one character |
| `PinEntry.PinInput.HandleKeyPress` | components/PinInput.tsx:44-48 | backspace on an empty slot with `index > 0` moves focus to `index-1`, and nothing else moves it |
| `PinEntry.JoinedFilledSlots` | components/PinInput.tsx:39-40 | filled one-character slots join to a string with one character per slot, so the length test on line 39 is implied |
| `LocationSearch.KeptOf` | components/LocationInput.tsx:139-140 | exactly the present, non-blank parts survive, each as often as it occurs, in their order |
| `LocationSearch.JoinWithLength` | components/LocationInput.tsx:141 | a join has all characters of its parts plus one separator fewer than there are parts |
| `LocationSearch.JoinOfNonBlank` | components/LocationInput.tsx:141-144 | joining non-blank parts gives "" only when there are none, so the fallback fires exactly then |
| `LocationSearch.FormatAddress` | components/LocationInput.tsx:131-146 | the address is "Current Location" when no part survives, else the kept parts in field order joined by ", " |
| `LocationSearch.TopPredictions` | components/LocationInput.tsx:57 | at most 5 results; none without predictions; otherwise the first min(5, n) predictions |
| `LocationSearch.LocationPicker.SearchPlaces` | components/LocationInput.tsx:169-175 | a query shorter than 2 characters clears the results and issues no request; otherwise a request is issued and nothing changes |
| `LocationSearch.LocationPicker.OnSearchSuccess` | components/LocationInput.tsx:57-61 | results become the first five predictions and the at-most-five invariant holds |
| `LocationSearch.LocationPicker.OnSearchError` | components/LocationInput.tsx:62-66 | results are cleared, nothing else changes |
| `LocationSearch.LocationPicker.GetPlaceDetails` | components/LocationInput.tsx:177-180 | the place becomes the loading one, nothing else changes |
| `LocationSearch.LocationPicker.OnDetailsSuccess` | components/LocationInput.tsx:83-96 | the place's address is selected; modal closed, search text and results cleared, loading id null |
| `LocationSearch.LocationPicker.OnDetailsError` | components/LocationInput.tsx:97-101 | only the loading id is reset |
| `LocationSearch.LocationPicker.OnCurrentLocationSuccess` | components/LocationInput.tsx:125-155 | with a geocoding result the address is that result's formatted line; the modal closes |
| `LocationSearch.LocationPicker.HandleSearchTextChange` | components/LocationInput.tsx:182-184 | the search text is stored at once, nothing else changes |
| `LocationSearch.LocationPicker.constructor` | components/LocationInput.tsx:37-40 | the modal starts closed, the search text and results empty, and no place details loading |
| `LocationSearch.LocationPicker.OpenModal` | components/LocationInput.tsx:206-208 | pressing the field opens the modal, nothing else changes |

## Left out

- Order lifecycle mutations (accept, mark picked up, confirm delivery, delete): the screen calls them (app/order-details.tsx:30-33) but their server code is not in the source. Their guards are not modelled: exclusive single-driver assignment, PIN comparison, deletion ownership, atomicity of accept, PIN generation and trackingId uniqueness.
- PIN hiding: the queries in convex/queries.ts return whole order documents, PIN included, to drivers. The model claims no hiding guarantee; it proves only that the screen shows the PIN to customers (`OrderDetails.ShownPin`).
- convex/schema.ts declares `orders` with only `name` and `userId`. The order shape holds the fields the queries filter on and the screen's gating reads (`trackingId`, `userId`, `driverId`, `status`, `deliveryPin`), plus `deliveryFee`, which the screen displays with 500 added (`OrderDetails.DisplayedFee`); the schema is used only for the `Role` union.
- Display-only order fields: `pickupLocation.address`, `deliveryLocation.address`, `itemDescription`, `weight`, `distanceKm`, `deliveryTime` and `specialInstructions` are only rendered by the screen (app/order-details.tsx:240-314) and gate nothing, so `Schema.Order` does not carry them.
- The displayed fee: `OrderDetails.DisplayedFee` adds the literal 500 to the stored fee, as app/order-details.tsx:225 writes it. The code does not say what the 500 stands for, so no property beyond that definition is claimed and it has no row in the table.
- Network and device I/O: the Google Places autocomplete, details and distance-matrix requests, location permission and geocoding, and the metres-to-kilometres conversion of `getDistance`. Their outcomes enter as method parameters (`OnSearchSuccess`, `OnDetailsSuccess`, `OnCurrentLocationSuccess`).
- Floating point: fees and distances are exact reals. Coordinate fallbacks, the `toFixed` coordinate address used when geocoding finds nothing (`None` in `OnCurrentLocationSuccess`) and the displayed distance are not modelled.
- UI: the 300 ms debounce timer, alerts, modals other than the location modal's flag, navigation, styles, busy flags and the status badge colours. The `focus()` side effects are modelled as an index only.
- The webhook routing of convex/httpActions.ts and convex/http.ts. It only calls the registration when `body.type === "user.created"`, which is the caller's condition for `UserCreated`.
- Clerk, Convex and Firebase configuration and the thin hooks and wrappers around the queries.
- LocationSearch.LocationPicker.SearchPlaces: JavaScript's `length` counts UTF-16 code units, while the model counts characters. A single character outside the Basic Multilingual Plane is therefore a two-unit query in JavaScript and one character here.
- PinEntry.PinInput.HandlePinChange: `value.length` has the same UTF-16 unit reading. The source copies the slot array before writing to it; the model writes the slot in place.
