/**
 * The request-authorization layer of the server: the `verifyJWT` guard, the
 * self-match rule of `GET /my-advertisements`, the lookups behind
 * `GET /users/seller/:email` and `GET /jwt`, and the two insert routes.
 * Each handler is one sequential step over the store.
 */
module Routes {
  import opened Wrappers
  import opened Header
  import opened Tokens
  import opened Store

  /** What a handler sends back as JSON. */
  datatype Body =
    | Message(text: string)
    | CarList(cars: seq<Car>)
    | SellerFlag(isSeller: bool)
    | AccessToken(accessToken: string)
    | InsertResult(acknowledged: bool, insertedId: nat)

  /** A response: status code and body (status 200 unless a handler sets another). */
  datatype Response = Response(status: nat, body: Body)

  const UNAUTHORIZED := Response(401, Message("unauthorized access"))
  const ACCESS_FORBIDDEN := Response(403, Message("access forbidden"))
  const DATA_FORBIDDEN := Response(403, Message("forbidden access for getting data"))

  /** The guard's three-way decision. */
  datatype Gate = Unauthenticated | Forbidden | Admit(claims: Claims)

  /** `authHeader` is truthy: present and not the empty string. */
  predicate HasCredential(header: Option<string>)
    ensures HasCredential(header) <==> header != None && header != Some("")
  {
    header.Some? && header.value != ""
  }

  /** The decision `verifyJWT` takes on an Authorization header at time `now`. */
  function Guard(header: Option<string>, keys: Keyring, now: int): (g: Gate)
    ensures g == Unauthenticated <==> !HasCredential(header)
    ensures g.Admit? ==> g.claims in keys.Values && now < g.claims.exp
    ensures g.Admit? ==> Verify(keys, ExtractToken(header.value), now) == Valid(g.claims)
    ensures g == Forbidden <==> HasCredential(header) && !Verify(keys, ExtractToken(header.value), now).Valid?
  {
    if !HasCredential(header) then Unauthenticated
    else
      match Verify(keys, ExtractToken(header.value), now)
      case Valid(decoded) => Admit(decoded)
      case _ => Forbidden
  }

  /** A non-empty header without a space carries no token and is refused with 403. */
  lemma GuardRefusesHeaderWithoutSpace(header: string, keys: Keyring, now: int)
    requires header != "" && ' ' !in header
    ensures Guard(Some(header), keys, now) == Forbidden
  {
    NoSpaceNoToken(header);
  }

  /** `<scheme> <token>` is admitted with the token's payload exactly when the token is
      signed and unexpired; the scheme word itself is never checked. */
  lemma GuardOnBearerHeader(scheme: string, token: Token, keys: Keyring, now: int)
    requires ' ' !in scheme
    ensures Guard(Some(scheme + " " + token), keys, now)
         == if token in keys && now < keys[token].exp then Admit(keys[token]) else Forbidden
  {
    TokenOfSchemeAndCredential(scheme, token);
  }

  /** An incoming request: its Authorization header and the claims the guard attaches. */
  class Request {
    const authorization: Option<string>
    var decoded: Option<Claims>

    constructor (authorization: Option<string>)
      ensures this.authorization == authorization && decoded == None
    {
      this.authorization := authorization;
      decoded := None;
    }
  }

  /** `verifyJWT(req, res, next)`: `sent` is what the guard itself responds, `nextCalls`
      how many times it calls `next`. */
  method VerifyJwt(req: Request, keys: Keyring, now: int) returns (sent: Option<Response>, nextCalls: nat)
    modifies req
    ensures Guard(req.authorization, keys, now) == Unauthenticated ==>
              sent == Some(UNAUTHORIZED) && nextCalls == 0 && req.decoded == old(req.decoded)
    ensures Guard(req.authorization, keys, now) == Forbidden ==>
              sent == Some(ACCESS_FORBIDDEN) && nextCalls == 0 && req.decoded == old(req.decoded)
    ensures Guard(req.authorization, keys, now).Admit? ==>
              sent == None && nextCalls == 1 && req.decoded == Some(Guard(req.authorization, keys, now).claims)
  {
    var authHeader := req.authorization;
    if authHeader.None? || authHeader.value == "" {
      return Some(UNAUTHORIZED), 0;
    }
    var token := ExtractToken(authHeader.value);
    var verdict := Verify(keys, token, now);
    if verdict.Valid? {
      req.decoded := Some(verdict.claims);
      sent, nextCalls := None, 1;
    } else {
      sent, nextCalls := Some(ACCESS_FORBIDDEN), 0;
    }
  }

  /** The `/my-advertisements` handler, after the guard attached `decoded`. */
  function MyAdvertisements(decoded: Claims, email: Option<string>, cars: seq<Car>): (r: Response)
    ensures r.status == 200 <==> decoded.email == email
    ensures r.status == 200 ==> r.body == CarList(FindCars(cars, email))
    ensures r.status != 200 ==> r == DATA_FORBIDDEN
  {
    if decoded.email == email then Response(200, CarList(FindCars(cars, email)))
    else DATA_FORBIDDEN
  }

  /** A caller asking for another advertiser's cars gets 403 and none of them. */
  lemma OthersAdvertisementsForbidden(decoded: Claims, email: Option<string>, cars: seq<Car>)
    requires decoded.email != email
    ensures MyAdvertisements(decoded, email, cars) == DATA_FORBIDDEN
    ensures !MyAdvertisements(decoded, email, cars).body.CarList?
  {
  }

  /** What the caller admitted to `/my-advertisements` receives: the `find` result for
      their own email, that is all and only the cars advertised under it, in collection
      order (`FindCarsAppend`). */
  lemma {:induction false} OwnAdvertisementsListed(decoded: Claims, cars: seq<Car>, c: Car)
    ensures MyAdvertisements(decoded, decoded.email, cars).status == 200
    ensures MyAdvertisements(decoded, decoded.email, cars).body.cars == FindCars(cars, decoded.email)
    ensures c in MyAdvertisements(decoded, decoded.email, cars).body.cars
        <==> c in cars && c.advertiserEmail == decoded.email
  {
    FindCarsMembership(cars, decoded.email, c);
  }

  /** The `/users/seller/:email` handler. */
  function IsSeller(users: seq<User>, email: string): (r: Response)
    ensures r.status == 200 && r.body.SellerFlag?
    ensures r.body.isSeller <==>
      exists i :: 0 <= i < |users| && users[i].email == Some(email) && users[i].role == Some("seller")
                  && forall j :: 0 <= j < i ==> users[j].email != Some(email)
  {
    var first := FirstWithEmail(users, Some(email));
    assert forall i ::
      (0 <= i < |users| && users[i].email == Some(email) && forall j :: 0 <= j < i ==> users[j].email != Some(email))
      ==> first == Some(i);
    var user := FindOneUser(users, Some(email));
    Response(200, SellerFlag(user.Some? && user.value.role == Some("seller")))
  }

  /** An email no user has is answered `isSeller: false`, not an error. */
  lemma UnknownEmailIsNotSeller(users: seq<User>, email: string)
    requires forall i :: 0 <= i < |users| ==> users[i].email != Some(email)
    ensures IsSeller(users, email) == Response(200, SellerFlag(false))
  {
  }

  /** Only the first record of an email decides: records registered later with the same
      email, whatever their role, leave the answer as it was. */
  lemma LaterRecordsDoNotChangeSellerFlag(users: seq<User>, more: seq<User>, email: string)
    requires exists i :: 0 <= i < |users| && users[i].email == Some(email)
    ensures IsSeller(users + more, email) == IsSeller(users, email)
  {
    FirstWithEmailStable(users, more, Some(email));
  }

  /** The `/jwt` handler at time `now`; `sign` signs a payload with the server's key. */
  function Jwt(users: seq<User>, email: Option<string>, now: int, sign: Claims -> Token): (r: Response)
    ensures r.body.AccessToken?
    ensures r.body.accessToken != "" <==> exists i :: 0 <= i < |users| && users[i].email == email
    ensures r.body.accessToken != "" ==>
              r.status == 200 && r.body.accessToken == sign(IssueClaims(email, now))
    ensures r.body.accessToken == "" ==> r == Response(403, AccessToken(""))
  {
    var user := FindOneUser(users, email);
    if user.Some? then Response(200, AccessToken(sign(IssueClaims(email, now))))
    else Response(403, AccessToken(""))
  }

  /** A registered user who obtains a token from `/jwt` and presents it as
      `<scheme> <token>` within 24 hours passes the guard with their own email,
      and `/my-advertisements` for that email then lists their cars. */
  lemma SignedInUserListsOwnCars(users: seq<User>, cars: seq<Car>, email: string, keys: Keyring,
                                 sign: Claims -> Token, issuedAt: int, now: int, scheme: string)
    requires exists i :: 0 <= i < |users| && users[i].email == Some(email)
    requires Recognises(keys, sign, IssueClaims(Some(email), issuedAt))
    requires issuedAt <= now < issuedAt + DAY_IN_SECONDS
    requires ' ' !in scheme
    ensures var g := Guard(Some(scheme + " " + Jwt(users, Some(email), issuedAt, sign).body.accessToken), keys, now);
            g.Admit? && g.claims.email == Some(email) &&
            MyAdvertisements(g.claims, Some(email), cars) == Response(200, CarList(FindCars(cars, Some(email))))
  {
    var token := sign(IssueClaims(Some(email), issuedAt));
    GuardOnBearerHeader(scheme, token, keys, now);
  }

  /** The same token presented 24 hours or more after issue is refused with 403. */
  lemma ExpiredTokenRefused(users: seq<User>, email: string, keys: Keyring,
                            sign: Claims -> Token, issuedAt: int, now: int, scheme: string)
    requires exists i :: 0 <= i < |users| && users[i].email == Some(email)
    requires Recognises(keys, sign, IssueClaims(Some(email), issuedAt))
    requires issuedAt + DAY_IN_SECONDS <= now
    requires ' ' !in scheme
    ensures Guard(Some(scheme + " " + Jwt(users, Some(email), issuedAt, sign).body.accessToken), keys, now) == Forbidden
  {
    var token := sign(IssueClaims(Some(email), issuedAt));
    GuardOnBearerHeader(scheme, token, keys, now);
  }

  /** `GET /my-advertisements`: the guard, then the handler when the guard calls `next`. */
  method GetMyAdvertisements(db: Database, req: Request, email: Option<string>, keys: Keyring, now: int)
    returns (res: Response)
    modifies req
    ensures !HasCredential(req.authorization) ==> res == UNAUTHORIZED && req.decoded == old(req.decoded)
    ensures Guard(req.authorization, keys, now) == Forbidden ==> res == ACCESS_FORBIDDEN && req.decoded == old(req.decoded)
    ensures Guard(req.authorization, keys, now).Admit? ==>
              req.decoded == Some(Guard(req.authorization, keys, now).claims) &&
              res == MyAdvertisements(req.decoded.value, email, db.cars)
  {
    var sent, nextCalls := VerifyJwt(req, keys, now);
    if nextCalls == 1 {
      res := MyAdvertisements(req.decoded.value, email, db.cars);
    } else {
      res := sent.value;
    }
  }

  /** `POST /users`: the body is stored unchanged as the last user. */
  method PostUsers(db: Database, body: User) returns (res: Response)
    modifies db
    ensures db.users == old(db.users) + [body] && db.cars == old(db.cars)
    ensures res == Response(200, InsertResult(true, |old(db.users)|))
  {
    var insertedId := db.InsertUser(body);
    res := Response(200, InsertResult(true, insertedId));
  }

  /** `POST /cars`: the body is stored unchanged as the last car. */
  method PostCars(db: Database, body: Car) returns (res: Response)
    modifies db
    ensures db.cars == old(db.cars) + [body] && db.users == old(db.users)
    ensures res == Response(200, InsertResult(true, |old(db.cars)|))
  {
    var insertedId := db.InsertCar(body);
    res := Response(200, InsertResult(true, insertedId));
  }
}
