# jewel_backend: the handler logic in Dafny

jewel_backend is an Express backend for a jewellery-savings app. It offers
registration and login with a hashed MPIN and a role-bearing JWT. It has a
singleton document of gold and silver rates that only an admin may update,
a role-filtered notification feed, and Razorpay order creation and signature
checking.

This project models the decisions those handlers take. Each handler becomes a
function from the store and the request to a new store and a `Response`
(status code and JSON body). Where the source changes state step by step, a
class method does the same steps and is proved equal to that function.

- `AccessGuard` models the middleware: `verifyToken` (header, then token,
  then payload) and `verifyTokenAndAdmin`.
- `Auth` models the user collection and the register and login handlers.
- `RatesRoutes` models lazy creation of the rates document and the
  admin-gated upsert.
- `NotificationRoutes` models the role-based query and the newest-first sort.
- `PaymentRoutes` models the order options and the HMAC check.
- `UserModel`, `RatesModel` and `NotificationModel` model the three Mongoose
  schemas, with their required fields, enums and defaults.

The libraries' own code is not part of this model. bcrypt `hash`/`compare`,
jsonwebtoken `sign`/`verify`, HMAC-SHA256 and `razorpay.orders.create` are
uninterpreted functions in `External.Env`. A lemma that needs one of them to
behave in a certain way says so in its `requires`: for example, that
`compare` accepts a PIN against its own digest, or that `verify` returns what
`sign` signed. The salt, the six random bytes, the clock (`now`) and the fresh
`_id` are parameters. A failing database is a `fault` flag: the first store
call of the handler throws, so the response is 500 and nothing is written.

What the code does, which a reader might expect otherwise:
- Registration never assigns Admin. There is no admin allowlist, so every
  registered user gets the schema default "User".
- There is no MPIN-reset route.
- There is no payment recording and no notification fan-out.
  `models/Payment.js` is never used.
- The signature check is plain `===` string equality, not a constant-time
  comparison.
- The body of `POST /register` is returned as the saved document, including
  the bcrypt digest.
- The rates update replaces both sub-objects of the first document, and
  creates the document if there is none.

## Model

| member | source | states |
|---|---|---|
| Text.Split | middleware/verifyToken.js:8 | `split(" ")` returns at least one word, no word contains a space, and there is exactly one word iff the string has no space |
| Text.JoinSplit | middleware/verifyToken.js:8 | joining the words again with single spaces gives back the header |
| Text.SplitJoin | middleware/verifyToken.js:8 | splitting words joined by spaces returns exactly those words |
| Text.SecondWordOfShape | middleware/verifyToken.js:8 | the token is the word after the first space; the first word is not checked |
| Text.SecondWordShape | middleware/verifyToken.js:8 | if there is a token, the header is: first word, space, token, then nothing or more text after a space |
| Text.SecondWord | middleware/verifyToken.js:8 | `split(" ")[1]` is present exactly when the header contains a space, and the token it gives contains no space |
| Text.SecondWordIgnoresScheme | middleware/verifyToken.js:8 | the scheme word is not checked: "Basic X" gives "X" |
| Text.SecondWordIgnoresThirdWord | middleware/verifyToken.js:8 | a third word is ignored: "Bearer a b" gives "a" |
| Text.SecondWordMissingOrEmpty | middleware/verifyToken.js:8 | "Bearer" gives no token and "Bearer  t" (two spaces) gives the empty token |
| AccessGuard.VerifyJwt | middleware/verifyToken.js:9 | an absent or empty token is refused whatever the library would say; any other token gets the library's verdict |
| AccessGuard.Authenticate | middleware/verifyToken.js:5-17 | a missing or empty header gives 401 "You are not authenticated!"; otherwise a token the library refuses gives 403 "Token is not valid!"; otherwise the guard proceeds with exactly the decoded payload |
| AccessGuard.AuthorizeAdmin | middleware/verifyToken.js:19-27 | proceeds iff `verifyToken` proceeds and the payload's role is "Admin"; a valid token with any other role gives 403 "You are not allowed to do that!"; errors from `verifyToken` pass through unchanged |
| AccessGuard.AdminGateExactly | middleware/verifyToken.js:5-27 | the admin gate passes exactly the headers whose token verifies with role "Admin"; every refusal is 401 or 403 |
| AccessGuard.BearerHeader | middleware/verifyToken.js:8-12 | for a `<scheme> <token>` header the outcome depends only on the library's verdict on `<token>` |
| AccessGuard.Request.constructor | middleware/verifyToken.js:6 | a request starts with its header and no `req.user` |
| AccessGuard.Request.VerifyToken | middleware/verifyToken.js:5-17 | returns the `Authenticate` decision; on `Next`, sets `req.user` to the payload; after a response, leaves `req.user` unchanged |
| AccessGuard.Request.VerifyTokenAndAdmin | middleware/verifyToken.js:19-27 | returns the `AuthorizeAdmin` decision; `req.user` is set whenever the token is valid, even if the role check then refuses |
| UserModel.RoleName | models/User.js:24-28 | a role is stored as "User" or "Admin" |
| UserModel.ParseRole | models/User.js:26 | the enum validator accepts exactly "User" and "Admin", and parsing inverts `RoleName` |
| UserModel.ParseRoleName | models/User.js:26 | parsing the stored name of a role gives back that role |
| UserModel.NewUser | models/User.js:5-31 | a document validates iff name, mobileNumber, location and mpin are non-empty and the role is absent or an enum value; an absent role becomes "User"; both timestamps are the save time |
| UserModel.WithoutMpin | routes/auth.js:51 | `{ mpin, ...others }`: the view keeps every field but `mpin`, so putting the digest back gives the document again |
| UserModel.WithoutMpinKeepsTheRest | routes/auth.js:51 | dropping `mpin` keeps every other field: the view plus the digest is the document again, and two documents have the same view iff they differ only in the digest |
| RatesModel.DefaultRates | models/Rates.js:5-33 | a default document has all four tier prices equal to 0 and timestamps equal to the save time |
| NotificationModel.NewNotification | models/Notification.js:5-36 | a document validates iff message, targetRole (an enum value), amountPaid and userMobile are given; targetUserId is optional; isRead defaults to false and createdAt to now |
| Auth.TokenClaims | routes/auth.js:45-46 | the signed payload is `{ id: user._id, role: user.role }` |
| Auth.RegisterOutcome | routes/auth.js:9-29 | a known number gives 409 and the store is unchanged; a 201 happens iff the number is new and every required field validates; on 201 exactly one user is added under that number, with `mpin = Hash(mpin, salt)` and role "User", and the saved document is returned; every non-201 leaves the store unchanged; the store stays keyed by mobile number |
| Auth.LoginOutcome | routes/auth.js:32-58 | 200 iff the number is known and bcrypt accepts the MPIN; an unknown number gives 404 "User not found!"; a rejected MPIN gives 400 "Wrong MPIN!"; only a 200 carries a token, and that token is `sign({id, role}, secret, "3d")` sent with every user field except `mpin` |
| Auth.RegisterTwice | routes/auth.js:12-15 | a second registration of the same number is a 409 and does not change the store |
| Auth.RegisterThenLogin | routes/auth.js:16-53 | a user who has just registered can log in with the same MPIN and gets a token for role "User", assuming bcrypt accepts a PIN against its own digest |
| Auth.RegisterAllKeepsInvariant | routes/auth.js:12-24 | from any store keyed by mobile number (admins included), any sequence of registrations keeps one user per mobile number, never changes or drops a user already there, and gives every added user role "User" |
| Auth.UserStore.constructor | models/User.js:14 | an empty user collection is keyed by mobile number |
| Auth.UserStore.Register | routes/auth.js:9-29 | checks, hashes and saves step by step, keeps the store keyed by mobile number, and leaves the store and the response exactly as `RegisterOutcome` gives them |
| Auth.UserStore.Login | routes/auth.js:32-58 | reads the collection without writing and answers exactly as `LoginOutcome` does |
| RatesRoutes.GetOutcome | routes/rates.js:8-18 | an empty collection gets one all-zero document, which is returned with 200; a non-empty collection is returned unchanged with its first document; a store failure gives 500 and writes nothing |
| RatesRoutes.UpdateOutcome | routes/rates.js:21-45 | 200 iff goldRate and silverRate are both present and the store works; a missing sub-object gives 500 before any write; on 200 the first document has the four new prices and a new updatedAt, or is created if absent, and the post-update document is returned; no other document changes |
| RatesRoutes.PutOutcome | routes/rates.js:21 | the handler runs only if the admin gate proceeds; otherwise the gate's status and message are returned and the collection is unchanged |
| RatesRoutes.OnlyAdminsChangeRates | routes/rates.js:21 | if a PUT changes the collection, its header carried a token that verifies with role "Admin" |
| RatesRoutes.GetIsIdempotent | routes/rates.js:10-13 | a second GET returns the same document and writes nothing |
| RatesRoutes.GetAfterUpdate | routes/rates.js:8-41 | after an accepted update, GET shows exactly the new gold and silver rates |
| RatesRoutes.AtMostOneDocument | routes/rates.js:10-40 | starting with at most one rates document, any sequence of GETs and PUTs leaves at most one; once one exists, exactly one remains |
| RatesRoutes.RatesStore.constructor | routes/rates.js:10 | the rates collection starts empty |
| RatesRoutes.RatesStore.Get | routes/rates.js:8-18 | `findOne`, then save the default if nothing was found; the result equals `GetOutcome` |
| RatesRoutes.RatesStore.Update | routes/rates.js:21-45 | runs the admin guard, reads the body, then upserts; the result equals `PutOutcome`, and `req.user` ends as the guard leaves it |
| NotificationRoutes.QueryFor | routes/notification.js:19-44 | no query if the payload's id or role is missing or empty; role "Admin" gives the Admin query; any other role gives the User query for the caller's own id |
| NotificationRoutes.Find | routes/notification.js:47 | returns each matching record as many times as it is stored, and nothing else |
| NotificationRoutes.Insert | routes/notification.js:48 | inserting a record into a newest-first list keeps it newest-first and adds exactly that record |
| NotificationRoutes.SortNewestFirst | routes/notification.js:47-48 | the result is in non-increasing `createdAt` order and is a permutation of the input |
| NotificationRoutes.Handle | routes/notification.js:16-59 | a missing id or role gives 401 and runs no query; a store failure gives 500; otherwise 200 with the matching records, as a permutation, newest first |
| NotificationRoutes.HandleDeliversExactly | routes/notification.js:36-47 | an admin gets exactly the Admin-targeted records; any other caller gets exactly the User-targeted records addressed to their own id; the count of every record is kept |
| NotificationRoutes.NoLeakToOtherUsers | routes/notification.js:39-43 | a non-admin never receives an Admin-targeted record, nor a record for another user |
| NotificationRoutes.GetNotifications | routes/notification.js:12-60 | runs `verifyToken` and then the handler; a guard refusal is returned as is; otherwise the response is `Handle` applied to the attached payload; the notification collection is only read |
| PaymentRoutes.OrderOptionsFor | routes/payment.js:22-26 | the gateway is sent `amount * 100` paise in "INR", with receipt "receipt_" followed by the hex of the random bytes |
| PaymentRoutes.ReceiptShape | routes/payment.js:25 | the receipt is 20 characters long: "receipt_" and twelve lower-case hex digits that decode back to the six random bytes |
| Hex.Encode | routes/payment.js:25 | hex encoding writes two lower-case hex digits per byte |
| Hex.DecodeEncode | routes/payment.js:25 | decoding the hex inverts the encoding |
| PaymentRoutes.CreateOrder | routes/payment.js:17-36 | a gateway order is returned with 200; a gateway failure gives 500 "Something went wrong while creating the order." and no order |
| Common.JsString | routes/payment.js:49 | in the concatenation, a present field gives its value and a missing field gives "undefined" |
| PaymentRoutes.SignedMessage | routes/payment.js:49 | the message is the order id's text, one vertical bar, then the payment id's text (a missing id reads "undefined") |
| PaymentRoutes.SignedMessageInjective | routes/payment.js:49 | the message (order id, a vertical bar, payment id) determines both ids when the order id contains no vertical bar |
| PaymentRoutes.VerifyPayment | routes/payment.js:43-67 | 200 "Payment verified successfully" iff the supplied signature equals the hex HMAC of the order id, a vertical bar and the payment id; otherwise 400 "Invalid signature sent!"; no store is involved |
| PaymentRoutes.VerifyAcceptsGenuine | routes/payment.js:49-59 | the genuine signature is accepted; a signature replayed for another order is accepted only if HMAC collides on two different messages |
| Scenarios.LoginTokenAtRatesUpdate | routes/auth.js:45-53 | a login token sent as `Bearer <token>` to `PUT /update` is refused with 403 for a "User" and reaches the update for an "Admin", assuming jsonwebtoken verifies what it signed and that its tokens are non-empty and contain no space |

## Left out

- index.js only wires Express, CORS, the database connection and `listen`. It
  mounts only the auth and rates routers, so the notification and payment
  routers here are modelled as routers, not as reachable endpoints.
- models/Payment.js is never read or written by the handlers. No payment
  ledger is modelled.
- bcrypt, jsonwebtoken (including token expiry), HMAC-SHA256,
  `crypto.randomBytes` and the Razorpay client are uninterpreted. Nothing is
  proved about their cryptographic strength.
- `JWT_SECRET` and `RAZORPAY_KEY_SECRET` are assumed set. What
  `createHmac` or `jwt.sign` do with a missing secret is not modelled. With
  the secret set nothing in the verify handler throws, so its 500 response
  (routes/payment.js:63-66) cannot occur in the model.
- Amounts and tier prices are integers (rupees). JavaScript float arithmetic
  and the coercion of strings or fractions in `amount * 100` are not modelled.
- In the update body, `goldRate` and `silverRate` are either absent or
  complete. How `$set` treats an `undefined` nested tier is not modelled.
- Every request body field (`name`, `mobileNumber`, `location`, `mpin`, and
  the order, payment and signature ids of the verify body) is a string or
  absent. A JSON number or `null` is not modelled. So the model has no input
  for a numeric `mpin` such as `1234`: bcryptjs `hash` (routes/auth.js:17)
  and `compare` (routes/auth.js:39) reject it, and the source answers 500 to
  that registration (routes/auth.js:26-28) and to that login, even with the
  right PIN (routes/auth.js:55-57). Nor is there an input for a `null`
  order or payment id, which JavaScript concatenates as "null" rather than
  "undefined" in the signed message. How Mongoose filters on an `undefined`
  `mobileNumber` is not modelled either, and neither is a
  JSON body whose `mobileNumber` is an operator object such as
  `{"$ne": ""}`, which `findOne` (routes/auth.js:12 and :34) would take as a
  query operator rather than a value.
- Other Mongoose details are not modelled:
  - ObjectId casting of `targetUserId` (ids compare as strings);
  - the `__v` field;
  - update validators;
  - which document `findOne()` picks when several exist (the model takes the
    first);
  - JSON serialisation of documents.
- NotificationRoutes.SortNewestFirst fixes one order for records with equal
  `createdAt`. Its contract promises only the newest-first order and the
  permutation, because MongoDB does not promise an order for ties.
- Store failures are one flag per request, which makes the handler's first
  store call throw. A failure after a successful earlier call (for example
  `save` after `findOne`) gives the same 500 with no write, and is not
  modelled separately.
- Concurrency is not modelled; the model is sequential. This leaves out the
  race between two first GETs of the rates and the race between two
  registrations that both pass the `findOne` check.
- `console.log` and `console.error` output is not modelled.
- Dates are integers. Both timestamps are set to `now` on creation, and only
  `updatedAt` is changed by an update.
