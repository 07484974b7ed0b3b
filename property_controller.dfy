/**
 * The in-memory property store of `src/controllers/propertyController.js`: a module-level
 * `Map` from property id to property, read and changed by the request handlers. Each
 * handler is a method of `PropertyStore`; the caller's user id, the route id and the
 * request body are its parameters, and the HTTP status with the JSON payload is its result.
 * `Date.now`/`Math.random` (the new id) and `new Date()` (the timestamps) are parameters.
 */
module PropertyController {
  import opened Wrappers
  import opened JsValues
  import opened InsertionOrder

  datatype Property = Property(
    id: string, userId: string,
    address: JsValue, city: JsValue, state: JsValue, zipCode: JsValue,
    lat: JsValue, lng: JsValue,
    createdAt: string, updatedAt: string)

  /** The fields read from `req.body`; an absent field is `Undefined`. */
  datatype Body = Body(address: JsValue, city: JsValue, state: JsValue, zipCode: JsValue, lat: JsValue, lng: JsValue)

  datatype Payload = Listing(properties: seq<Property>) | One(property: Property) | Error(error: string) | Message(message: string)

  datatype Response = Response(status: nat, payload: Payload)

  const NotFound := Response(404, Error("Property not found"))
  const Forbidden := Response(403, Error("Access denied"))
  const AddressRequired := Response(400, Error("Address is required"))
  const DeletedMessage := "Property deleted successfully"

  /** The properties, in key order, whose `userId` is the caller's. */
  function Owned(order: seq<string>, table: map<string, Property>, userId: string): (r: seq<Property>)
    requires forall k :: k in order ==> k in table
    ensures |r| <= |order|
    ensures forall p :: p in r ==> p.userId == userId
  {
    if order == [] then []
    else
      var p := table[order[0]];
      (if p.userId == userId then [p] else []) + Owned(order[1..], table, userId)
  }

  /** `getProperties` lists exactly the caller's properties. */
  lemma {:induction false} OwnedExactly(order: seq<string>, table: map<string, Property>, userId: string, p: Property)
    requires forall k :: k in order ==> k in table
    ensures p in Owned(order, table, userId) <==> p.userId == userId && exists k :: k in order && table[k] == p
  {
    if order != [] {
      OwnedExactly(order[1..], table, userId, p);
      if p.userId == userId && table[order[0]] != p {
        assert (exists k :: k in order && table[k] == p) ==> exists k :: k in order[1..] && table[k] == p;
      }
    }
  }

  /** Adding a property under a new key appends it to its owner's listing and changes no other listing. */
  lemma {:induction false} OwnedAfterInsert(order: seq<string>, table: map<string, Property>, userId: string, key: string, p: Property)
    requires forall k :: k in order ==> k in table
    requires key !in order
    ensures Owned(order + [key], table[key := p], userId) ==
      Owned(order, table, userId) + (if p.userId == userId then [p] else [])
  {
    if order == [] {
      assert [key][1..] == [];
    } else {
      assert (order + [key])[1..] == order[1..] + [key];
      OwnedAfterInsert(order[1..], table, userId, key, p);
    }
  }

  /** `given || fallback` gave `stored`: a truthy value is kept, any other becomes the fallback. */
  predicate Defaulted(given: JsValue, fallback: JsValue, stored: JsValue) {
    (Truthy(given) ==> stored == given) && (!Truthy(given) ==> stored == fallback)
  }

  /** The property `createProperty` builds: `city || ''` and the like, `lat || null` and the like. */
  function NewProperty(id: string, userId: string, body: Body, now: string): (r: Property)
    ensures r.id == id && r.userId == userId && r.address == body.address
    ensures r.createdAt == now && r.updatedAt == now
    ensures forall v :: v in [r.city, r.state, r.zipCode] ==> Truthy(v) || v == Str("")
    ensures forall v :: v in [r.lat, r.lng] ==> Truthy(v) || v == Null
    ensures Defaulted(body.city, Str(""), r.city) && Defaulted(body.state, Str(""), r.state)
    ensures Defaulted(body.zipCode, Str(""), r.zipCode)
    ensures Defaulted(body.lat, Null, r.lat) && Defaulted(body.lng, Null, r.lng)
  {
    Property(id, userId, body.address,
      Or(body.city, Str("")), Or(body.state, Str("")), Or(body.zipCode, Str("")),
      Or(body.lat, Null), Or(body.lng, Null),
      now, now)
  }

  /** A latitude or longitude of 0 is stored as null, because 0 is falsy. */
  lemma {:induction false} ZeroCoordinateIsNull(id: string, userId: string, body: Body, now: string)
    requires body.lat == Num(0.0) || body.lng == Num(0.0)
    ensures var p := NewProperty(id, userId, body, now);
      (body.lat == Num(0.0) ==> p.lat == Null) && (body.lng == Num(0.0) ==> p.lng == Null)
  {
  }

  /** `given !== undefined ? given : current`. */
  function Provided(given: JsValue, current: JsValue): (r: JsValue)
    ensures given != Undefined ==> r == given
    ensures given == Undefined ==> r == current
  {
    if given != Undefined then given else current
  }

  /** A field of `updateProperty`: a given value replaces the stored one unless it is `undefined`. */
  predicate Replaced(given: JsValue, current: JsValue, stored: JsValue) {
    (given != Undefined ==> stored == given) && (given == Undefined ==> stored == current)
  }

  /** The property `updateProperty` stores: provided fields replace, the rest and the identity stay. */
  function Patched(p: Property, body: Body, now: string): (r: Property)
    ensures r.id == p.id && r.userId == p.userId && r.createdAt == p.createdAt && r.updatedAt == now
    ensures Replaced(body.address, p.address, r.address) && Replaced(body.city, p.city, r.city)
    ensures Replaced(body.state, p.state, r.state) && Replaced(body.zipCode, p.zipCode, r.zipCode)
    ensures Replaced(body.lat, p.lat, r.lat) && Replaced(body.lng, p.lng, r.lng)
    ensures body == Body(Undefined, Undefined, Undefined, Undefined, Undefined, Undefined) ==> r == p.(updatedAt := now)
  {
    p.(address := Provided(body.address, p.address),
       city := Provided(body.city, p.city),
       state := Provided(body.state, p.state),
       zipCode := Provided(body.zipCode, p.zipCode),
       lat := Provided(body.lat, p.lat),
       lng := Provided(body.lng, p.lng),
       updatedAt := now)
  }

  /** An empty string is a provided value: it replaces the stored one. */
  lemma {:induction false} EmptyStringReplaces(p: Property, body: Body, now: string)
    requires body.city == Str("")
    ensures Patched(p, body, now).city == Str("")
  {
  }

  /** What get, update and delete answer before acting: 404 for an unknown id, 403 for another user's property. */
  function Access(table: map<string, Property>, userId: string, id: string): (r: Option<Response>)
    ensures r == None <==> id in table && table[id].userId == userId
    ensures id !in table ==> r == Some(NotFound)
    ensures id in table && table[id].userId != userId ==> r == Some(Forbidden)
  {
    if id !in table then Some(NotFound)
    else if table[id].userId != userId then Some(Forbidden)
    else None
  }

  class PropertyStore {
    /** The keys of the `Map`, in insertion order. */
    var order: seq<string>
    /** The entries of the `Map`. */
    var table: map<string, Property>

    ghost predicate Valid()
      reads this
    {
      NoDuplicates(order) &&
      (forall k :: k in order <==> k in table) &&
      (forall k :: k in table ==> table[k].id == k)
    }

    constructor ()
      ensures Valid() && order == [] && table == map[]
    {
      order := [];
      table := map[];
    }

    /** `resetProperties`: the map is cleared. */
    method Reset()
      modifies this
      ensures Valid() && order == [] && table == map[]
    {
      order := [];
      table := map[];
    }

    /** `getProperties`: the caller's properties, in insertion order. */
    method GetProperties(userId: string) returns (r: Response)
      requires Valid()
      ensures r == Response(200, Listing(Owned(order, table, userId)))
      ensures forall p :: p in r.payload.properties <==> p in table.Values && p.userId == userId
    {
      var listed := Owned(order, table, userId);
      forall p
        ensures p in listed <==> p in table.Values && p.userId == userId
      {
        OwnedExactly(order, table, userId, p);
      }
      r := Response(200, Listing(listed));
    }

    /** `getProperty`: the property when it exists and is the caller's. */
    method GetProperty(userId: string, id: string) returns (r: Response)
      ensures id !in table ==> r == NotFound
      ensures id in table && table[id].userId != userId ==> r == Forbidden
      ensures id in table && table[id].userId == userId ==> r == Response(200, One(table[id]))
    {
      var denied := Access(table, userId, id);
      if denied.Some? {
        r := denied.value;
      } else {
        r := Response(200, One(table[id]));
      }
    }

    /**
     * `createProperty`: a falsy address is refused with 400 and nothing stored; otherwise
     * the new property goes in under `freshId` and is returned with 201.
     */
    method Create(userId: string, body: Body, freshId: string, now: string) returns (r: Response)
      requires Valid()
      modifies this
      ensures Valid()
      ensures !Truthy(body.address) ==> r == AddressRequired && order == old(order) && table == old(table)
      ensures Truthy(body.address) ==>
        var p := NewProperty(freshId, userId, body, now);
        r == Response(201, One(p)) && table == old(table)[freshId := p] && order == Put(old(order), freshId)
    {
      if !Truthy(body.address) {
        r := AddressRequired;
        return;
      }
      var p := NewProperty(freshId, userId, body, now);
      order := Put(order, freshId);
      table := table[freshId := p];
      r := Response(201, One(p));
    }

    /**
     * `updateProperty`: 404 or 403 change nothing; otherwise the patched property replaces
     * the stored one in place and is returned.
     */
    method Update(userId: string, id: string, body: Body, now: string) returns (r: Response)
      requires Valid()
      modifies this
      ensures Valid() && order == old(order)
      ensures Access(old(table), userId, id).Some? ==> r == Access(old(table), userId, id).value && table == old(table)
      ensures Access(old(table), userId, id).None? ==>
        var p := Patched(old(table)[id], body, now);
        r == Response(200, One(p)) && table == old(table)[id := p]
    {
      var denied := Access(table, userId, id);
      if denied.Some? {
        r := denied.value;
        return;
      }
      var p := Patched(table[id], body, now);
      table := table[id := p];
      r := Response(200, One(p));
    }

    /** `deleteProperty`: 404 or 403 change nothing; otherwise that one id is removed. */
    method Delete(userId: string, id: string) returns (r: Response)
      requires Valid()
      modifies this
      ensures Valid()
      ensures Access(old(table), userId, id).Some? ==>
        r == Access(old(table), userId, id).value && table == old(table) && order == old(order)
      ensures Access(old(table), userId, id).None? ==>
        r == Response(200, Message(DeletedMessage)) && table == old(table) - {id} && order == Without(old(order), id)
    {
      var denied := Access(table, userId, id);
      if denied.Some? {
        r := denied.value;
        return;
      }
      order := Without(order, id);
      table := table - {id};
      r := Response(200, Message(DeletedMessage));
    }
  }

  /** After a successful delete, getting the same id answers 404. */
  method DeleteThenGet(store: PropertyStore, userId: string, id: string) returns (r: Response)
    requires store.Valid() && id in store.table && store.table[id].userId == userId
    modifies store
    ensures r == NotFound
  {
    var _ := store.Delete(userId, id);
    r := store.GetProperty(userId, id);
  }

  /** A created property shows up at the end of its owner's listing. */
  method CreateThenList(store: PropertyStore, userId: string, body: Body, freshId: string, now: string)
    returns (r: Response)
    requires store.Valid() && Truthy(body.address) && freshId !in store.table
    modifies store
    ensures r.status == 200 && r.payload.Listing?
    ensures NewProperty(freshId, userId, body, now) in r.payload.properties
  {
    var _ := store.Create(userId, body, freshId, now);
    r := store.GetProperties(userId);
    assert store.table[freshId] == NewProperty(freshId, userId, body, now);
  }
}
