# shopme-backend, modelled in Dafny

A model of the request-handling core of the ShopMe Express/Mongo backend.
It covers:

- **Checkout.** `POST /orders` validates in two layers. Route-level presence
  and type checks answer 400. The schema validators run at save and answer 500.
  The total is computed on the server as Σ price × quantity. The confirmation
  e-mail is best effort.
- **The order store.** It lists all orders newest first for admins and lists an
  owner's orders for customers, with the 403 ownership check. The status change
  accepts five values and has no transition guard.
- **Customer accounts.** Registration, login and `/me`. A password-reset token
  is issued for one hour, single use, and a newer request supersedes it. The
  user model has its hash-if-modified pre-save hook and `matchPassword`.
- **The combined auth router.** The password-strength rule, and the `/auth/me`
  route that dispatches on the token's role.
- **Admin login and `/admin/me`.**
- **The three guards.** `protectAdmin`, `protectUser` and the weaker `protect`
  of middleware/auth.js.
- **The CORS allowlist and origin decision.**
- **The two static catalogue routers.** Their lookup reads the path parameter
  with JavaScript's `parseInt`.

The database, JWT, bcrypt, e-mail, the clock and id generation are inputs:

- Collections are sequences in natural (insertion) order, held by the classes
  `UserStore` and `OrderStore`. `findOne`/`findById` is a first-match search.
- `jwt.verify` is a function from the token text to one of four verdicts:
  verified claims, `JsonWebTokenError`, `TokenExpiredError`, or another error.
- `bcrypt.hash` and `bcrypt.compare` are functions fixed by the caller.
- The database's acceptance of a write is a boolean (`dbOk`). So is an e-mail's
  delivery (`delivered`).
- The time (`now`, in milliseconds) and new ids are parameters.

Request bodies of the order routes are JSON values (`Json.Value`), so
JavaScript truthiness, `typeof` and property access are modelled exactly.
Numbers are integers.

Each route is modelled in the form it has in the source:

- A handler that only reads is a function from its inputs to a `Reply`: a
  status code with a body, or a status code with an error message.
- A handler that writes is a method on the store class. Its `ensures` states
  the new collection and the answer in terms of such a function.
- A guard is a pure decision function (`Decide`) plus a method (`Run`). `Run`
  sets `req.admin`/`req.user` and counts `next()` calls on an `Exchange`
  object.

Files:

- `wrappers.dfy`, `search.dfy`, `text.dfy`, `parse_int.dfy`, `json.dfy`,
  `http.dfy`: the JavaScript and Mongo behaviour the routes rely on. That is
  `Array.find`, `split`, `trim`, `toLowerCase`, `parseInt`, JSON values, and
  replies.
- `bearer.dfy`: the token extraction `authorization?.split(' ')[1]` and
  verification.
- `order_schema.dfy`, `orders.dfy`: models/order.js and routes/orders.js.
- `user_model.dfy`, `customer_auth.dfy`: models/user.js and
  routes/customerAuth.js.
- `admin_auth.dfy`, `auth_routes.dfy`: routes/adminAuth.js and routes/auth.js.
- `express.dfy`, `protect_admin.dfy`, `protect_user.dfy`,
  `auth_middleware.dfy`: the guards.
- `cors.dfy`: middleware/corsMiddleware.js.
- `catalog.dfy`, `top_products.dfy`, `products.dfy`: Routes/topProducts.js and
  tempRoutes/products.js over their data files.

## Model

| member | source | states |
|---|---|---|
| Bearer.BearerToken | middleware/protectAdmin.js:8-12 | The token read from the header is non-empty and space-free. No header means no token. |
| Bearer.BearerTokenOfPieces | middleware/protectAdmin.js:8 | For every header, the token is the second space-separated piece exactly when that piece exists and is non-empty. So `"Bearer"`, `"Bearer "` and `"Bearer  t"` give none. |
| Bearer.BearerRoundTrip | middleware/protectAdmin.js:8 | `"Bearer " + t` yields `t`. |
| Bearer.Authenticate | middleware/protectAdmin.js:8-37 | Missing token iff no token is read. Success iff `verify` returns claims, which are then the verified ones. Otherwise a malformed token is `JsonWebTokenError`, an expired one `TokenExpiredError`, and any other verification error neither. |
| Bearer.FailureCode | middleware/protectAdmin.js:28-37 | A refused credential is 500 exactly for an unexpected verification error, and 401 otherwise. |
| Json.Prop | routes/orders.js:61 | A property read throws exactly on null or undefined. An absent property reads as undefined. |
| OrderSchema.EmailPatternIgnoresCase | models/order.js:14-15 | The lowercase setter never changes the e-mail regular expression's verdict. |
| OrderSchema.SumOfConformingLines | models/order.js:26-35 | With every line at price ≥ 0 and quantity ≥ 1, the total Σ price × quantity is ≥ 0. |
| OrderSchema.CastItems | models/order.js:22-30 | Cast items are exactly the casts of the request items, one per item. A failure means some item fails to cast. |
| OrderSchema.BuildOrder | models/order.js:4-40 | A cast failure happens iff a value has the wrong JSON type. A well-typed request saves iff its document (trimmed name, lower-cased e-mail, cast lines, given total and owner, `pending`, both timestamps at the save time) passes the validators (non-empty name, e-mail matching the pattern, address of at least 10 characters, non-empty line titles and images, non-negative prices and total, quantities ≥ 1); every other refusal is a validation failure. A document that saves conforms to the schema. |
| Orders.AcceptedItemShape | routes/orders.js:60-74 | The loop accepts an item iff id, title and img are truthy, price is a non-zero number (negative allowed), and quantity is a number ≥ 1. A price of 0 is refused as a missing field. |
| Orders.ScanItems | routes/orders.js:60-75 | The loop returns the index of the first item not accepted, every earlier item being accepted, or none when all are accepted. |
| Orders.ReduceIsSumOfLines | routes/orders.js:77-80 | The `reduce` total equals Σ price × quantity over the saved lines, in order. |
| Orders.CastKeepsNumbers | routes/orders.js:77-80 | A saved line carries the price and quantity the route summed. |
| Orders.Checkout | routes/orders.js:44-130 | A placed request answers its own id and was validated with a working database. A 500 only follows the route checks. No answer happens only when the item loop reaches a null or undefined item. |
| Orders.CheckItem | routes/orders.js:60-74 | Reading a field of a null or undefined item throws. A falsy field among the five is refused as missing, naming the item's id. An accepted item has a numeric price and a numeric quantity of at least 1. |
| Orders.Reduce | routes/orders.js:77-80 | The left fold from a start value equals that value plus Σ price × quantity of the request items, summed independently from the front. |
| Orders.OwnerOf | routes/orders.js:111 | `userId || null`: an owner is recorded only for a truthy value, and a non-empty string is recorded as itself. |
| Orders.WithStatus | routes/orders.js:205-209 | The order gets the new status and `updatedAt`; every other field stays. |
| Orders.CheckoutCases | routes/orders.js:44-130 | 400 exactly when a route-level check fails, naming the first refused item. A validated request is placed (201) iff its document passes the schema and the database accepts the write, and otherwise gets 500. A placed order conforms, is `pending`, and has total = Σ of its lines. |
| Orders.StopsAtItem | routes/orders.js:60-74 | When the loop stops at item k, the answer is that item's 400, or no answer when reading it threw. |
| Orders.Screen | routes/orders.js:47-75 | Nothing is answered iff both route-level checks pass. Otherwise the answer is checkout's, and never a placement. |
| Orders.NegativePriceFailsAtSave | routes/orders.js:66-74 | A negative price passes the route checks but fails the schema's `min: 0`, so the answer is 500 and not 400. |
| Orders.CheckoutScenario | routes/orders.js:44-121 | The one-line cart of two shirts at 500 is placed, with total 1000 and status `pending`. |
| Orders.Insert | routes/orders.js:137 | Inserting into a newest-first list keeps it newest-first and adds exactly that order. |
| Orders.SortNewestFirst | routes/orders.js:137 | `.sort({ createdAt: -1 })` gives a newest-first permutation of its input. |
| Orders.SortKeepsMembers | routes/orders.js:137 | Sorting neither adds nor drops an order. |
| Orders.OrderIndex | routes/orders.js:205-209 | `findById` finds an order with that id, or none exists. |
| Orders.ParseStatus | routes/orders.js:191-202 | Only the five exact status strings are accepted. Anything else, of any JSON type, is refused. |
| Orders.ParseStatusRoundTrip | routes/orders.js:191-198 | Every status name is accepted as that status. |
| Orders.NoTransitionGuard | routes/orders.js:204-213 | Any status can be written over any other, including out of `cancelled`. The order still conforms and keeps its total. |
| Orders.ReplaceKeepsStore | routes/orders.js:205-209 | Replacing an order by a conforming one with the same id keeps the collection valid and its ids unique. |
| Orders.AppendKeepsStore | routes/orders.js:104-114 | Appending a conforming order with a fresh id keeps the collection valid and its ids unique. |
| Orders.StatusKeepsStore | routes/orders.js:204-213 | Writing a status into one stored order keeps the collection valid and its ids unique. |
| Orders.StrictSave | models/order.js:4-40 | As written, the stored order has no owner, and nothing else changes. |
| Orders.StrictSaveAll | models/order.js:4-40 | Every order of a collection saved as written loses its owner. |
| Orders.OwnerListingEmptyAsWritten | routes/orders.js:158 | As written, `find({ userId })` returns nothing, whatever was placed. |
| Orders.StrictUpdate | routes/orders.js:205-209 | As written, the update is stripped of `status` and only touches `updatedAt`. The stored document as written has no status at all (no path, none set when placed), and the update leaves it without one. |
| Orders.StatusLostAsWritten | routes/orders.js:205-213 | As written, the answered order does not have the requested status. With the path declared, it does. |
| Orders.OrderStore.Place | routes/orders.js:44-130 | The answer is checkout's. Only a placement appends the draft document; every other answer leaves the orders unchanged. A confirmation e-mail is attempted iff the request is valid and mail is configured. The e-mail's fate never changes the answer. |
| Orders.OrderStore.Save | routes/orders.js:104-129 | A valid request is written exactly when it passes the schema and the database accepts it. Otherwise the answer is 500 and nothing is written. |
| Orders.OrderStore.ListAll | routes/orders.js:135-143 | All orders, newest first, as a permutation of the collection. |
| Orders.OrderStore.ListByUser | routes/orders.js:148-164 | 403 iff the caller's id is not the parameter. Otherwise the answer holds every order with that owner exactly as often as the store does, and nothing else, newest first. |
| Orders.OrderStore.ListByEmail | routes/orders.js:167-184 | 403 iff the caller's e-mail is not the parameter, compared as written. Otherwise the schema's `lowercase` setter also lower-cases the query value, so the answer holds every order whose stored e-mail is the lower-cased parameter, exactly as often as the store does, and nothing else, newest first. |
| Orders.OrderStore.UpdateStatus | routes/orders.js:187-240 | An invalid status is 400, a database fault 500, an unknown id 404; in these cases nothing changes. Otherwise only that order's status and `updatedAt` change, the answer is the updated order, and a status e-mail is attempted iff mail is configured. |
| UserModel.SavedPasswordMatches | models/user.js:13-27 | A password saved through the hook is matched by its plaintext. |
| UserModel.UntouchedPasswordKeepsMatching | models/user.js:14 | A save that did not modify the password leaves the same candidates matching. |
| UserModel.PreSave | models/user.js:13-18 | The password becomes its hash exactly when it was modified; no other field changes. |
| UserModel.MatchPassword | models/user.js:21-27 | The candidate is compared with the stored hash, through `compare`, and with nothing else. |
| UserModel.IndexOfEmail | routes/customerAuth.js:25 | `findOne({ email })` finds a user with that e-mail, or none exists. |
| UserModel.IndexOfId | routes/customerAuth.js:114 | `findById` finds a user with that id, or none exists. |
| UserModel.UserStore.Create | models/user.js:5-18 | A user is added iff the fields are present, the e-mail is free and the database accepts it. Its password is hashed and `createdAt` is now. Otherwise nothing changes. E-mail uniqueness is kept. |
| UserModel.UserStore.Save | models/user.js:13-18 | The document is written back iff the required fields are present and the database accepts it. The password is re-hashed only when modified. |
| CustomerAuth.RegisterAnswer | routes/customerAuth.js:13-59 | A missing field is 400 before any lookup, and a taken e-mail is 400. A write failure is 500. Otherwise 201 with a role "user" token and profile. |
| CustomerAuth.Register | routes/customerAuth.js:13-59 | The answer is `RegisterAnswer` of the users before the request. Exactly one user is added on success, none otherwise. |
| CustomerAuth.Login | routes/customerAuth.js:62-102 | An unknown e-mail gets 401 "Invalid credentials" whatever the password. For a registered e-mail, a missing or non-string password makes bcrypt reject and the catch answer 500 "Server error during login"; a wrong one gets the same 401 as an unknown e-mail. Success iff the first user with the e-mail matches, with a role "user" token. The customer login of routes/auth.js:104-140 has the same body. |
| CustomerAuth.NewcomerCanLogIn | routes/customerAuth.js:67-78 | A just-registered user logs in with the registered password. |
| CustomerAuth.Me | routes/customerAuth.js:105-130 | Refused credentials give 401 (500 for an unexpected error). A verified id that is found returns that user with role "user". Otherwise 404. |
| CustomerAuth.MeIgnoresRole | routes/customerAuth.js:113-118 | The token's role plays no part in `/me`. |
| CustomerAuth.IssueReset | routes/customerAuth.js:150-151 | After the request the user holds the new token exactly until one hour after it; only the two reset fields change. |
| CustomerAuth.Redeem | routes/customerAuth.js:193-195 | After the reset the user holds no live token at any time, and has the new password and the same identity. |
| CustomerAuth.ResetHolder | routes/customerAuth.js:180-183 | Finds a user holding the token with expiry strictly after now, or none exists. |
| CustomerAuth.IssuedTokenWindow | routes/customerAuth.js:146-152 | A freshly issued token opens its user's record exactly until one hour (3600000 ms) has passed. |
| CustomerAuth.LaterRequestSupersedes | routes/customerAuth.js:150-151 | After a newer token is issued, the earlier one no longer opens that record. |
| CustomerAuth.RedeemIsSingleUse | routes/customerAuth.js:193-196 | After a reset no user holds the token, at any time. |
| CustomerAuth.ResetThenLogIn | routes/customerAuth.js:193-196 | After a reset the user logs in with the new password. |
| CustomerAuth.StrictIssueReset | routes/customerAuth.js:150-152 | As written, the saved user keeps its old reset fields and password. |
| CustomerAuth.MailedTokenRefusedAsWritten | routes/customerAuth.js:150-183 | As written, the mailed token opens no record. With the reset paths declared, it opens the requester's record. |
| CustomerAuth.ForgotPassword | routes/customerAuth.js:133-172 | The same 200 message whether or not the e-mail is registered and whatever the e-mail's fate. Only a failed save gives 500. A registered user gets the new token and an expiry of now + 1 hour, replacing any earlier token. |
| CustomerAuth.ResetPassword | routes/customerAuth.js:175-205 | 400 with nothing changed unless someone holds a live token. Otherwise the password is set (hashed) and both reset fields are cleared. 500 when the save fails. |
| AdminAuth.AdminIndexOfEmail | routes/adminAuth.js:14 | `Admin.findOne({ email })` finds an admin with that e-mail, or none exists. |
| AdminAuth.AdminIndexOfId | routes/adminAuth.js:49 | `Admin.findById` finds an admin with that id, or none exists. |
| AdminAuth.Login | routes/adminAuth.js:10-35 | An unknown e-mail gets 401 "Invalid credentials" whatever the password. For a registered admin, a missing or non-string password makes `compare` reject and the catch answer 500 "Server error during admin login"; a mismatch gets the same 401. Success iff the admin is found and the password matches, with a role "admin" token, profile and message. The admin login of routes/auth.js:31-54 has the same body. |
| AdminAuth.Me | routes/adminAuth.js:38-71 | Refused credentials give 401 (500 for an unexpected error). 403 iff a verified non-admin role. 404 iff an admin role whose admin is missing. Otherwise that admin. |
| AdminAuth.MeRoleBeforeLookup | routes/adminAuth.js:45-53 | A non-admin token gets the same 403 whatever the admin collection holds. |
| AuthRoutes.Occurs | routes/auth.js:13-16 | A one-class regex test holds iff some character is in the class. |
| AuthRoutes.IsStrongPassword | routes/auth.js:11-25 | Strong iff length ≥ 8 and there is an ASCII upper, an ASCII lower, a digit and a listed special character. |
| AuthRoutes.StrongExample | routes/auth.js:11-25 | "Passw0rd!" is strong. |
| AuthRoutes.AlphanumericHasNoSpecial | routes/auth.js:11-25 | A string made only of letters and digits fails the special-character test. |
| AuthRoutes.NoSpecialExample | routes/auth.js:11-25 | "Password1" is not strong: it is long enough but has no special character. |
| AuthRoutes.TooShortExample | routes/auth.js:11-25 | "Pa1!" is not strong: it has every kind of character but only four of them. |
| AuthRoutes.RegisterAnswer | routes/auth.js:60-98 | Missing fields are 400, then a weak password is 400, both before any lookup. A strong password gets the customer registration's answer. |
| AuthRoutes.Register | routes/auth.js:60-98 | A weak password leaves the store unchanged. Otherwise exactly one user is added on success. |
| AuthRoutes.Me | routes/auth.js:145-170 | Refused credentials give 401/500. The "admin" role looks in admins, any other role in users. A missing id in the chosen collection gives 404. |
| AuthRoutes.MeConsultsOneStore | routes/auth.js:154-160 | An admin token's answer does not depend on the users, nor any other token's answer on the admins. |
| AuthRoutes.MeAgreesForCustomers | routes/auth.js:157-159 | For a customer token, the answer is the customer router's `/me`. |
| ProtectAdmin.Decide | middleware/protectAdmin.js:7-38 | No token is 401, a non-admin role 403, and a missing admin 401 (not 404). Passes iff a verified admin role names an existing admin, which is attached. |
| ProtectAdmin.Run | middleware/protectAdmin.js:26-27 | On a pass `req.admin` is set and `next()` is called exactly once, with no answer. Otherwise the answer is sent and `next()` is not called. |
| ProtectUser.Decide | middleware/protectUser.js:7-38 | No token is 401, a non-"user" role 403, and a missing user 401. Passes iff a verified "user" role names an existing user, attached without its password. |
| ProtectUser.Run | middleware/protectUser.js:26-27 | On a pass `req.user` is set and `next()` is called exactly once. Otherwise the answer is sent and `next()` is not called. |
| ProtectUser.PassedUserIsMe | middleware/protectUser.js:21-27 | A user the guard lets through is the one the customer `/me` returns. |
| AuthMiddleware.Decide | middleware/auth.js:7-19 | No token gives "Not authorized". Every verification failure is the same 401. Every verified token passes whatever its role, with the admin or null attached. |
| AuthMiddleware.Run | middleware/auth.js:14-15 | On a pass `req.admin` is set, possibly to null, and `next()` is called exactly once. Otherwise the 401 is sent. |
| AuthMiddleware.WeakerThanProtectAdmin | middleware/auth.js:13-15 | Everything `protectAdmin` passes, `protect` passes. A customer token passes `protect` but not `protectAdmin`. |
| Cors.AllowedOrigins | middleware/corsMiddleware.js:4-6 | An unset or empty CLIENT_URL gives the default pair. Otherwise the result is at least one comma-free, trimmed piece. |
| Cors.AllowedOriginsOfPieces | middleware/corsMiddleware.js:4-5 | CLIENT_URL written as comma-joined pieces gives back exactly those pieces, trimmed, in order. |
| Cors.OriginDecision | middleware/corsMiddleware.js:11-20 | A missing origin is allowed. Any other origin is allowed iff it equals an entry exactly, and is otherwise denied with "Not allowed by CORS". |
| Cors.DefaultDecisions | middleware/corsMiddleware.js:6-17 | The two default origins are allowed. A trailing slash is not normalised away. |
| Cors.PatchPermitted | middleware/corsMiddleware.js:21 | PATCH is among the permitted methods. |
| Text.SplitJoin | middleware/corsMiddleware.js:5 | `split` undoes joining separator-free pieces. |
| Text.TrimExact | models/order.js:9 | `trim` removes exactly the surrounding white space. |
| Text.TrimIdempotent | models/order.js:9 | Trimming twice is trimming once. |
| Text.LowerFacts | models/order.js:14 | Lower-casing keeps the length, leaves no capital, is idempotent and moves no white space. |
| ParseInt.Parse | Routes/topProducts.js:14 | `parseInt` skips leading white space, then reads the sign and digits; empty or all-space text is NaN. |
| ParseInt.DigitRun | Routes/topProducts.js:14 | `parseInt` reads the longest run of digits: all digits, followed by a non-digit or the end. |
| ParseInt.DecimalRoundTrip | Routes/topProducts.js:14 | `parseInt` reads back a decimal number followed by text that does not continue it. |
| ParseInt.UnsignedRoundTrip | Routes/topProducts.js:14 | The unsigned reader reads back a decimal number. |
| ParseInt.SignedRoundTrip | Routes/topProducts.js:14 | A leading `-` or `+` applies to the number that follows. |
| ParseInt.SignBefore | Routes/topProducts.js:14 | A sign applies to the unsigned reading of whatever follows it. |
| ParseInt.SkipsLeadingSpace | Routes/topProducts.js:14 | Leading white space is skipped. |
| ParseInt.NoDigitsIsNaN | Routes/topProducts.js:14 | Text without a leading sign, space or digit, and the empty text, is NaN. |
| ParseInt.HexExample | Routes/topProducts.js:14 | "0x1f" is read in base 16 as 31. |
| Catalog.FindById | Routes/topProducts.js:14-15 | `find(p => p.id === parseInt(param))` returns the first item with the parsed id. NaN equals no id. |
| Catalog.GetById | Routes/topProducts.js:13-22 | 404 with the router's message iff NaN or no item has the id. Otherwise 200 with a listed item whose id is the parsed one. |
| Catalog.FetchById | Routes/topProducts.js:15 | With unique ids, a parameter read as an item's id fetches exactly that item. |
| Catalog.NumberedFetch | Routes/topProducts.js:15-20 | For items numbered 1, 2, … in order, the lookup succeeds iff `parseInt` reads a number n in 1..length, and answers the n-th item. |
| Catalog.FetchByDecimal | Routes/topProducts.js:14-15 | An item is fetched by its decimal id, even with trailing text `parseInt` stops at. |
| Catalog.ListedAreFetchable | Routes/topProducts.js:8-22 | Every item the listing returns is fetched by its own id. |
| Catalog.NonNumericIsNotFound | Routes/topProducts.js:14-19 | A parameter with no digit where `parseInt` needs one is 404. |
| TopProducts.ItemIds | data/topProducts.js:3-31 | The three top products have ids 1, 2, 3, unique. |
| TopProducts.Get | Routes/topProducts.js:13-22 | 200 with entry n iff `parseInt` reads n in 1..3. Otherwise 404 "Top product not found". |
| TopProducts.All | Routes/topProducts.js:8-10 | 200 with the data list itself, unchanged: three entries, each fetched by its own id. |
| TopProducts.TrailingTextIgnored | Routes/topProducts.js:14-15 | "2abc" fetches entry 2. |
| TopProducts.NonNumericNotFound | Routes/topProducts.js:17-19 | "abc" is 404. |
| TopProducts.UnknownIdNotFound | Routes/topProducts.js:15-19 | "4" is 404. |
| Products.ItemIds | data/products.js:3-49 | The five products have ids 1 to 5, unique. |
| Products.Get | tempRoutes/products.js:12-21 | 200 with entry n iff `parseInt` reads n in 1..5. Otherwise 404 "Product not found". |
| Products.All | tempRoutes/products.js:7-9 | 200 with the data list itself, unchanged: five entries, each fetched by its own id. |
| Products.NegativeIdNotFound | tempRoutes/products.js:13-18 | "-1" is read as -1 and gets 404. |
| Products.LeadingSpaceSkipped | tempRoutes/products.js:13-14 | " 5" fetches entry 5. |

## Findings

| source | as written | input that shows it | evidently intended | confidence | as-written member | corrected member |
|---|---|---|---|---|---|---|
| models/order.js:4-40 | The schema declares no `userId` path, so Mongoose's default strict mode drops the `userId` that routes/orders.js:111 saves. `Order.find({ userId })` then matches nothing. | A customer places an order with `userId: "u1"`, then calls `GET /orders/user/u1` with a "u1" token. The answer is `[]` where queries keep undeclared filter keys (Mongoose 7 and later, `strictQuery: false`). Under Mongoose 6's default `strictQuery`, the filter is dropped too, `find({})` runs, and the customer gets every order of every customer. No file pins the version. | The order keeps its owner, and the owner listing returns exactly the caller's orders. | medium: not executed; relies on Mongoose's default `strict: true`, and the outcome on the unpinned `strictQuery` default | Orders.OwnerListingEmptyAsWritten | Orders.OrderStore.ListByUser |
| models/order.js:4-40 | The schema declares no `status` path, so strict mode strips `{ status }` from the update at routes/orders.js:205-209. The route still answers 200 with the order. | `PATCH /orders/<id>/status` with `{ status: "shipped" }` on a pending order answers an order that is not shipped: as written it has no status at all. | The requested status is written and answered. | medium: not executed; relies on Mongoose's default `strict: true` for updates | Orders.StatusLostAsWritten | Orders.OrderStore.UpdateStatus |
| models/user.js:5-10 | The schema declares neither `resetPasswordToken` nor `resetPasswordExpires`. Strict mode ignores the assignments at routes/customerAuth.js:150-151, so the mailed token is never stored. | `/forgot-password` for a registered e-mail, then `/reset-password/<that token>` at once, is refused with 400 where queries keep undeclared filter keys (Mongoose 7 and later). Under Mongoose 6's default `strictQuery`, both filter keys are dropped, `findOne({})` runs, and any token, even a made-up one, resets the first user's password. No file pins the version. | The token is stored for one hour and opens the requester's record only. | medium: not executed; relies on Mongoose's default `strict: true`, and the outcome on the unpinned `strictQuery` default | CustomerAuth.MailedTokenRefusedAsWritten | CustomerAuth.IssuedTokenWindow |

The rest of the model uses the corrected behaviour. Saved orders carry their
owner and status (`Orders.OrderStore.Place`, `Orders.OrderStore.UpdateStatus`).
Users carry their reset fields (`CustomerAuth.ForgotPassword`,
`CustomerAuth.ResetPassword`).

## Left out

- E-mail delivery (nodemailer, utils/emailService.js, the HTML bodies,
  `toLocaleString`). An attempted e-mail is recorded, in the order store's
  `outbox` or as the `mail` result of `ForgotPassword`. Its outcome,
  `delivered`, is deliberately unused, since no answer depends on it.
- JWT signing and verification, and bcrypt. A token is represented by its
  claims `{ id, role }`, with no expiry time. `verify`, `hash` and `compare`
  are parameters. The salt is not modelled.
- middleware/auth.js falls back to a different secret ("dev-secret-key") than
  the other files. With verification as a parameter, this difference is not
  modelled.
- Database read failures and ObjectId cast errors. They would answer 500 in
  the listing routes, `/me`, login, and the guards protectAdmin and
  protectUser, and 401 "Token is not valid" in middleware/auth.js. Only write
  failures (`dbOk`) are modelled. The lookups are functions that cannot fail
  this way.
- Login with a missing `email`. What `findOne({ email: undefined })` matches
  depends on driver settings. Auth request fields other than the login
  password are modelled as strings, an absent field reading as "", which
  matches no stored user. The login password is an option, `None` standing
  for an absent or non-string value.
- Orders.OwnerOf: a truthy `userId` that is not a string (a number, an
  object) is taken as no owner. The schema declares no `userId` path, so no
  cast of such a value is given by the source.
- Mongoose casting of values of another JSON type, such as a numeric string for
  a `Number` path. These are counted as cast failures (500).
- Floating point. Prices and quantities are integers. Product ratings are kept
  in tenths.
- `parseInt` of numbers beyond 2^53 loses precision in JavaScript. The model
  reads them exactly.
- String length is counted in characters, not UTF-16 code units.
  `toLowerCase` is modelled on ASCII letters only.
- Concurrency. Two status updates of the same order are last-write-wins. The
  model runs one request at a time.
- server.js: route mounting, static files and its own CORS block, whose method
  list lacks PATCH. routes/customerAuth.js and routes/adminAuth.js are modelled
  although server.js does not mount them.
- Bearer.FailureMessage: gives the error text of a refused credential and has
  no contract of its own. The handlers' contracts state the message it yields.
- Catalogue CRUD (routes/products.js, routes/topProducts.js), uploads,
  migration and admin-creation scripts, and request logging.
- models/admin.js is not part of this model. Admins are taken to have an
  e-mail, a password hash and a creation time, and to match passwords with
  `compare` as customers do.
