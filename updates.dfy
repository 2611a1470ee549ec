/** The pure parts of the store's write actions: the wire payload that
    `patchProduct` sends, how its reply is merged into the products, and
    the filter `deleteProduct` applies. */
module Updates {
  import opened Wrappers
  import opened JsValues
  import opened Seqs
  import opened Normalizer

  /** The keys the payload translation reads or writes; all others are sent
      as given. */
  const TranslatedKeys: set<string> := {"inStock", "instock", "groupId", "group", "rating"}

  /** `p.id === id`. */
  predicate HasId(p: Record, id: real) {
    StrictEquals(Get(p, "id"), Num(id))
  }

  /** The test `deleteProduct` filters with: `p => p.id !== id`. */
  function OtherThan(id: real): Record -> bool {
    (p: Record) => !HasId(p, id)
  }

  /** patchProduct's payload: `inStock` is sent as `instock` 1 or 0,
      `groupId` is sent as `group` unless a non-null `group` is already
      there, `rating` is converted with `Number`, and every other key is
      sent unchanged. */
  function WirePayload(js: Runtime, data: Record): (r: Record)
    ensures "inStock" !in r && "groupId" !in r
    ensures "instock" in r <==> "instock" in data || "inStock" in data
    ensures "inStock" in data ==> r["instock"] == Num(if Truthy(data["inStock"]) then 1.0 else 0.0)
    ensures "inStock" !in data && "instock" in data ==> r["instock"] == data["instock"]
    ensures "group" in r <==> "group" in data || "groupId" in data
    ensures "groupId" in data ==>
              r["group"] == if Nullish(Get(data, "group")) then data["groupId"] else data["group"]
    ensures "groupId" !in data && "group" in data ==> r["group"] == data["group"]
    ensures "rating" in r <==> "rating" in data
    ensures "rating" in data ==> r["rating"] == NumberValue(ToNumber(js, data["rating"]))
    ensures forall k :: k !in TranslatedKeys ==> (k in r <==> k in data)
    ensures forall k :: k in data && k !in TranslatedKeys ==> r[k] == data[k]
  {
    var withStock :=
      if "inStock" in data then
        (data - {"inStock"})["instock" := Num(if Truthy(data["inStock"]) then 1.0 else 0.0)]
      else data;
    var withGroup :=
      if "groupId" in withStock then
        (withStock - {"groupId"})["group" :=
          if Nullish(Get(withStock, "group")) then withStock["groupId"] else withStock["group"]]
      else withStock;
    if "rating" in withGroup then
      withGroup["rating" := NumberValue(ToNumber(js, withGroup["rating"]))]
    else withGroup
  }

  /** The stock flag survives the trip to the backend: the `instock` sent
      normalises back to `inStock` equal to the flag's truthiness. */
  lemma WireStockRoundTrip(js: Runtime, data: Record)
    requires "inStock" in data
    ensures Normalize(js, WirePayload(js, data))["inStock"] == Bool(Truthy(data["inStock"]))
  {
    var payload := WirePayload(js, data);
    assert Get(payload, "instock") == Num(if Truthy(data["inStock"]) then 1.0 else 0.0);
  }

  /** Converting `rating` before sending does not change what it
      normalises to. */
  lemma WireRatingNormalizesAlike(js: Runtime, data: Record)
    ensures Normalize(js, WirePayload(js, data))["rating"] == Normalize(js, data)["rating"]
  {
    var payload := WirePayload(js, data);
    if "rating" in data {
      assert Get(payload, "rating") == NumberValue(ToNumber(js, Get(data, "rating")));
    } else {
      assert Get(payload, "rating") == Undefined == Get(data, "rating");
    }
  }

  /** The update patchProduct applies on success:
      `products.map(p => p.id === id ? {...p, ...server} : p)`. Each
      matching entry takes every field the server sent and keeps its own
      value for the others; every other entry is untouched. */
  function MergeById(products: seq<Record>, id: real, server: Record): (r: seq<Record>)
    ensures |r| == |products|
    ensures forall i :: 0 <= i < |products| && !HasId(products[i], id) ==> r[i] == products[i]
    ensures forall i :: 0 <= i < |products| && HasId(products[i], id) ==>
              && r[i].Keys == products[i].Keys + server.Keys
              && (forall k :: k in server ==> r[i][k] == server[k])
              && (forall k :: k in products[i] && k !in server ==> r[i][k] == products[i][k])
  {
    seq(|products|, i requires 0 <= i < |products| =>
          if HasId(products[i], id) then products[i] + server else products[i])
  }

  /** Applying the same server reply twice is applying it once. */
  lemma MergeIdempotent(products: seq<Record>, id: real, server: Record)
    ensures MergeById(MergeById(products, id, server), id, server) == MergeById(products, id, server)
  {
    var once := MergeById(products, id, server);
    var twice := MergeById(once, id, server);
    forall i | 0 <= i < |products| ensures twice[i] == once[i] {
      if HasId(once[i], id) {
        assert HasId(products[i], id) ==> once[i] == products[i] + server;
        assert once[i] + server == once[i];
      }
    }
  }

  /** deleteProduct's update: `products.filter(p => p.id !== id)`. No
      entry with that id remains, and the others stay, in order. */
  function DeleteById(products: seq<Record>, id: real): (r: seq<Record>)
    ensures forall p :: p in r ==> p in products && !HasId(p, id)
    ensures SubsequenceOf(r, products)
    ensures forall p :: multiset(r)[p] == if HasId(p, id) then 0 else multiset(products)[p]
  {
    Filter(products, OtherThan(id))
  }

  /** Deleting the same id twice is deleting it once. */
  lemma DeleteIdempotent(products: seq<Record>, id: real)
    ensures DeleteById(DeleteById(products, id), id) == DeleteById(products, id)
  {
    FilterIdempotent(products, OtherThan(id));
  }

  /** A patch reply for an id that has been deleted changes nothing. */
  lemma MergeAfterDelete(products: seq<Record>, id: real, server: Record)
    ensures MergeById(DeleteById(products, id), id, server) == DeleteById(products, id)
  {
    var kept := DeleteById(products, id);
    forall i | 0 <= i < |kept| ensures !HasId(kept[i], id) {
      assert kept[i] in kept;
    }
  }

  /** Patching product 1 with `{inStock: false}` sends `{instock: 0}`, and
      a reply `{id: 1, countSold: 12}` sets its `countSold` to 12 while its
      other fields stay as they were. */
  lemma PatchExample(js: Runtime, before: Record)
    requires Get(before, "id") == Num(1.0)
    ensures WirePayload(js, map["inStock" := Bool(false)]) == map["instock" := Num(0.0)]
    ensures var after := MergeById([before], 1.0, map["id" := Num(1.0), "countSold" := Num(12.0)]);
            && after[0]["countSold"] == Num(12.0)
            && after[0]["id"] == Num(1.0)
            && forall k :: k in before && k != "countSold" ==> after[0][k] == before[k]
  {
    assert HasId(before, 1.0);
  }
}
