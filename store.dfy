/**
 * In-memory stand-ins for the `users` and `cars` collections, with the two
 * queries the handlers run on them: `findOne({ email })`, the first user
 * whose email matches, and `find({ advertiser_email })`, every matching car
 * in collection order. A document field that is absent, or a filter value
 * that is `undefined`, is `None`; a filter on `None` matches documents that
 * lack the field, as the database driver sends `undefined` as `null`.
 */
module Store {
  import opened Wrappers

  /** A user document as posted: its email and role, and any other fields. */
  datatype User = User(email: Option<string>, role: Option<string>, fields: map<string, string>)

  /** A car document as posted: its advertiser's email, and any other fields. */
  datatype Car = Car(advertiserEmail: Option<string>, fields: map<string, string>)

  /** Position of the first user whose email matches, as `findOne` scans the collection. */
  function FirstWithEmail(users: seq<User>, email: Option<string>): (r: Option<nat>)
    ensures r.None? <==> forall i :: 0 <= i < |users| ==> users[i].email != email
    ensures r.Some? ==> r.value < |users| && users[r.value].email == email
    ensures r.Some? ==> forall j :: 0 <= j < r.value ==> users[j].email != email
  {
    if users == [] then None
    else if users[0].email == email then Some(0)
    else
      match FirstWithEmail(users[1..], email)
      case None => None
      case Some(k) => Some(k + 1)
  }

  /** `userCollection.findOne({ email })`. */
  function FindOneUser(users: seq<User>, email: Option<string>): (r: Option<User>)
    ensures r.None? <==> forall i :: 0 <= i < |users| ==> users[i].email != email
    ensures r.Some? ==> r.value.email == email && r.value in users
  {
    match FirstWithEmail(users, email)
    case None => None
    case Some(i) => Some(users[i])
  }

  /** `carsCollection.find({ advertiser_email: email }).toArray()`. */
  function FindCars(cars: seq<Car>, email: Option<string>): (r: seq<Car>)
    ensures |r| <= |cars|
    ensures forall i :: 0 <= i < |r| ==> r[i].advertiserEmail == email
  {
    if cars == [] then []
    else if cars[0].advertiserEmail == email then [cars[0]] + FindCars(cars[1..], email)
    else FindCars(cars[1..], email)
  }

  /** The query distributes over concatenation, so the result keeps collection order. */
  lemma {:induction false} FindCarsAppend(a: seq<Car>, b: seq<Car>, email: Option<string>)
    ensures FindCars(a + b, email) == FindCars(a, email) + FindCars(b, email)
  {
    if a == [] {
      assert a + b == b;
    } else {
      assert (a + b)[1..] == a[1..] + b;
      FindCarsAppend(a[1..], b, email);
    }
  }

  /** A car is in the result exactly when it is in the collection with that advertiser. */
  lemma {:induction false} FindCarsMembership(cars: seq<Car>, email: Option<string>, c: Car)
    ensures c in FindCars(cars, email) <==> c in cars && c.advertiserEmail == email
  {
    if cars != [] {
      FindCarsMembership(cars[1..], email, c);
      assert cars == [cars[0]] + cars[1..];
    }
  }

  /** A car inserted last is listed last among its advertiser's cars, after the earlier ones. */
  lemma InsertedCarListedLast(cars: seq<Car>, c: Car)
    ensures FindCars(cars + [c], c.advertiserEmail) == FindCars(cars, c.advertiserEmail) + [c]
  {
    FindCarsAppend(cars, [c], c.advertiserEmail);
  }

  /** A car inserted for another advertiser leaves this advertiser's listing as it was. */
  lemma InsertedCarHiddenFromOthers(cars: seq<Car>, c: Car, email: Option<string>)
    requires c.advertiserEmail != email
    ensures FindCars(cars + [c], email) == FindCars(cars, email)
  {
    FindCarsAppend(cars, [c], email);
  }

  /** Once some user has an email, appending users never changes which one `findOne` returns. */
  lemma {:induction false} FirstWithEmailStable(users: seq<User>, more: seq<User>, email: Option<string>)
    requires FirstWithEmail(users, email).Some?
    ensures FirstWithEmail(users + more, email) == FirstWithEmail(users, email)
  {
    assert (users + more)[0] == users[0];
    if users[0].email != email {
      assert (users + more)[1..] == users[1..] + more;
      FirstWithEmailStable(users[1..], more, email);
    }
  }

  /** The two collections, updated in place by the insert routes. */
  class Database {
    var users: seq<User>
    var cars: seq<Car>

    constructor ()
      ensures users == [] && cars == []
    {
      users := [];
      cars := [];
    }

    /** `userCollection.insertOne(user)`: the document is appended unchanged; its id is its position. */
    method InsertUser(user: User) returns (insertedId: nat)
      modifies this
      ensures users == old(users) + [user]
      ensures cars == old(cars)
      ensures insertedId == |old(users)| && users[insertedId] == user
    {
      insertedId := |users|;
      users := users + [user];
    }

    /** `carsCollection.insertOne(car)`: the document is appended unchanged; its id is its position. */
    method InsertCar(car: Car) returns (insertedId: nat)
      modifies this
      ensures cars == old(cars) + [car]
      ensures users == old(users)
      ensures insertedId == |old(cars)| && cars[insertedId] == car
      ensures FindCars(cars, car.advertiserEmail) == FindCars(old(cars), car.advertiserEmail) + [car]
    {
      insertedId := |cars|;
      cars := cars + [car];
      InsertedCarListedLast(old(cars), car);
    }
  }
}
