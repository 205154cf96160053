# Car Bazaar server: request authorization, in Dafny

This project models the request-authorization layer of the Car Bazaar
marketplace server (`index.js`) and proves what it promises:

- the `verifyJWT` guard: it answers 401 when there is no `Authorization` header and 403 when the token fails verification; otherwise it attaches the decoded claims to the request and calls `next`;
- the self-match rule of `GET /my-advertisements`;
- the seller lookup of `GET /users/seller/:email`;
- token issue by `GET /jwt`;
- the `POST /users` and `POST /cars` inserts.

Modules, leaves first:

- `Wrappers` (`wrappers.dfy`): `Option`. JavaScript's `undefined`, and a field missing from a document, are `None`.
- `Header` (`header.dfy`): `authHeader.split(' ')[1]`. `Split` is JavaScript's `split(' ')`, with its round trip and field lemmas. `ExtractToken` takes field 1.
- `Tokens` (`tokens.dfy`): the claims `jwt.sign` signs `{ email }` with a 24-hour expiry, and `jwt.verify`. Signing is an abstract function `sign`. A `Keyring` maps every token that carries the server key's signature to its payload. The clock `now` (seconds) is a parameter.
- `Store` (`store.dfy`): the `users` and `cars` collections as sequences inside a `Database` class whose insert methods append in place. `findOne({ email })` is first match (`FirstWithEmail`, `FindOneUser`) and `find({ advertiser_email })` is an order-keeping filter (`FindCars`).
- `Routes` (`routes.dfy`): the guard's decision `Guard`, the `Request` object with its `decoded` field, the `VerifyJwt` method, and the handlers. The handlers that only read are functions over the collections. The route methods chain the guard to a handler or perform an insert.

Modelling choices that follow the code:

- `!authHeader` is also true for an empty header, so `Some("")` gets 401, like a missing header.
- A header with no space gives an `undefined` token. A header `"Bearer "` gives the empty token. `jwt.verify` rejects both, so they get 403.
- The word before the space is never checked. `"Basic t"` passes like `"Bearer t"` (`GuardOnBearerHeader`).
- The database driver sends an `undefined` filter value as `null`, which matches documents without the field. Document fields and query values are therefore `Option<string>`, and a filter matches when they are equal.
- The same goes for `decodedEmail === email`. Two `undefined`s are equal, so a token without an email claim passes the self-match when the request has no `email` parameter.
- `/jwt` answers an unknown email with 403 and `accessToken: ''`.
- `/my-advertisements` refuses a mismatch with 403 and the message `forbidden access for getting data`.
- `findOne` returns the first matching document. Later user records with the same email never change `isSeller` (`LaterRecordsDoNotChangeSellerFlag`).

## Model

| member | source | states |
|---|---|---|
| `Header.Split` | index.js:27 | `split(' ')` always yields at least one field |
| `Header.JoinSplit` | index.js:27 | joining the fields of `split(' ')` with single spaces gives back the header (nothing is lost or invented) |
| `Header.SplitFieldsHaveNoSpace` | index.js:27 | no field of `split(' ')` holds a space |
| `Header.SplitWithoutSpace` | index.js:27 | a string without a space splits into itself alone |
| `Header.SplitAtFirstSpace` | index.js:27 | the first field is the text before the first space; the rest are the fields of the text after it |
| `Header.SplitHead` | index.js:27 | the first field is the text up to the first space or the end |
| `Header.UpToSpace` | index.js:27 | the result is a prefix without spaces, followed by a space or the end |
| `Header.ExtractToken` | index.js:27 | a token exists exactly when the header splits into two or more fields, and it is field 1 |
| `Header.NoSpaceNoToken` | index.js:27 | a header without a space yields no token (`undefined`) |
| `Header.TokenAfterFirstSpace` | index.js:27 | the token is the text between the first and the second space, or the end of the header |
| `Header.TokenOfSchemeAndCredential` | index.js:27 | `scheme + " " + token` with no space in either part yields exactly `token` |
| `Tokens.IssueClaims` | index.js:70 | the issued payload carries the queried email and expires 24 hours after issue |
| `Tokens.Verify` | index.js:28 | valid exactly for a signed token before its expiry, with that token's payload; expired exactly for a signed token from its expiry on; otherwise invalid |
| `Tokens.IssuedTokenValidForADay` | index.js:70 | a token issued for an email verifies to that email throughout the next 24 hours |
| `Tokens.IssuedTokenExpiresAfterADay` | index.js:70 | from 24 hours after issue on, the token is rejected as expired |
| `Store.FirstWithEmail` | index.js:61 | `findOne` finds nothing exactly when no user has the email; otherwise it finds the first user that does |
| `Store.FindOneUser` | index.js:67 | the found user has the queried email and is in the collection; nothing is found exactly when no user has it |
| `Store.FindCars` | index.js:51 | every car `find` returns has the queried advertiser email, and there are no more than the collection holds |
| `Store.FindCarsAppend` | index.js:51 | the query distributes over concatenation, so results keep collection order |
| `Store.FindCarsMembership` | index.js:51 | a car is returned exactly when it is in the collection with the queried advertiser email |
| `Store.InsertedCarListedLast` | index.js:84-86 | a car inserted last is listed after its advertiser's earlier cars |
| `Store.InsertedCarHiddenFromOthers` | index.js:84-86 | inserting a car for one advertiser leaves every other advertiser's listing unchanged |
| `Store.FirstWithEmailStable` | index.js:77-80 | appending users never changes which user `findOne` returns for an email it already finds |
| `Store.Database.constructor` | index.js:40-41 | both collections start empty; this is only a convenience, since every other method and lemma holds for any contents of the collections |
| `Store.Database.InsertUser` | index.js:80 | the user is appended unchanged as the last element; cars untouched; the id is its position |
| `Store.Database.InsertCar` | index.js:86 | the car is appended unchanged as the last element; users untouched; its advertiser's listing gains it last |
| `Routes.HasCredential` | index.js:23 | the header is usable exactly when it is present and not the empty string |
| `Routes.Guard` | index.js:20-36 | 401 exactly when the header is missing or empty; 403 exactly when the extracted token does not verify; admits only the payload of a signed, unexpired token |
| `Routes.GuardRefusesHeaderWithoutSpace` | index.js:27-30 | a non-empty header without a space is refused with 403 |
| `Routes.GuardOnBearerHeader` | index.js:27-34 | `<scheme> <token>` is admitted with the token's payload exactly when the token is signed and unexpired, whatever the scheme word |
| `Routes.Request.constructor` | index.js:21 | a request starts with no decoded claims |
| `Routes.VerifyJwt` | index.js:20-36 | no usable header: responds 401, `next` not called, `decoded` unchanged; token fails: responds 403, `next` not called, `decoded` unchanged; otherwise: sends nothing, calls `next` once, `decoded` is the verified payload |
| `Routes.MyAdvertisements` | index.js:44-55 | 200 exactly when the verified email equals the query email, with the `find` result for that email; otherwise 403 with the forbidden message |
| `Routes.OthersAdvertisementsForbidden` | index.js:50-54 | asking for another email's cars gives 403 and no car list |
| `Routes.OwnAdvertisementsListed` | index.js:50-52 | the caller gets the `find` result for their own email: all and only the cars advertised under it, in collection order |
| `Routes.IsSeller` | index.js:58-63 | `isSeller` is true exactly when the first user with the email has role `'seller'`; always status 200 |
| `Routes.UnknownEmailIsNotSeller` | index.js:61-62 | an email no user has gives `isSeller: false`, not an error |
| `Routes.LaterRecordsDoNotChangeSellerFlag` | index.js:61-62 | user records appended later with the same email do not change `isSeller` |
| `Routes.Jwt` | index.js:65-75 | the token is non-empty exactly when some user has the queried email; then it is the signature of that email with a 24-hour expiry, status 200; otherwise 403 with `accessToken: ''` |
| `Routes.SignedInUserListsOwnCars` | index.js:20-75 | a token from `/jwt`, presented within 24 hours, passes the guard with the user's own email; `/my-advertisements` then lists that user's cars |
| `Routes.ExpiredTokenRefused` | index.js:28-30 | the same token presented 24 hours or more after issue is refused with 403 |
| `Routes.GetMyAdvertisements` | index.js:43-56 | the guard runs first; its 401 or 403 is the response; when it admits, the handler's response is returned and `decoded` holds the verified payload |
| `Routes.PostUsers` | index.js:77-82 | the body is appended unchanged to the users; cars untouched; the result acknowledges the insert |
| `Routes.PostCars` | index.js:84-88 | the body is appended unchanged to the cars; users untouched; the result acknowledges the insert |

## Left out

- The MongoDB client, the connection URI and the `db()`/`collection()` handles (index.js:13-18, 40-41): network I/O. The collections are in-memory sequences.
- Errors from the database: they are not modelled, so every store call succeeds.
- The inserted document's `_id`: the id is abstracted to the document's position. The driver adding `_id` to the body is not modelled.
- Cryptographic signing, signature checking and the reading of `PRIVATE_KEY` inside `jsonwebtoken` (index.js:28, 70): a foreign library. Signing is an abstract function. Verification is a lookup in the keyring of signed tokens.
- Signing and checking agree only where assumed: the lemmas about issued tokens take `Recognises` (the keyring knows what `sign` produced) as a hypothesis, an assumption about the abstract signer that is not proved.
- Expiry is the only claim check that is modelled. Tokens without an `exp` claim and `nbf` checks are not.
- The clock is the parameter `now`, in seconds.
- Mongo's matching of a filter value against array-valued fields: document fields are modelled as single strings.
- Non-string JSON values in bodies and query strings (numbers, arrays, repeated query parameters): not modelled.
- Express, CORS and JSON middleware, the root route, `app.listen`, and `console.log`/`console.error` (index.js:6-11, 93-101): transport and logging.
- async/await scheduling and concurrent requests: each handler is one sequential step over the store.
