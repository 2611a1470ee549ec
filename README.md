# Product store model

A Dafny model of the client-side product store of a small storefront
(`src/stores/productStore.ts`). The store holds four collections: groups,
categories, promotions and products. It fetches them from a REST backend,
normalises each raw product record into a stable shape, and offers filtered
read views. It also patches and deletes products on the backend, mirroring
each change in memory.

Modules:

- `Wrappers`: `Option` and `Reply`. A `Reply` is the outcome of one awaited
  HTTP call: `Failed`, or `Ok` with the decoded body.
- `JsValues`: JavaScript values (`Value`) and plain objects (`Record`, a
  map from property name to value). It gives the coercions the store relies
  on: truthiness, `===`, `String(v)`, `Number(v)`, `trim`, `join` and object
  spread. Three engine conversions are left abstract as the fields of a
  `Runtime` passed in: `Number` of a string, `String` of a number, and
  `JSON.parse`.
- `Seqs`: `filter` and `find` on sequences. A filter result is specified as
  "a subsequence of the input that holds every kept value exactly as often
  as the input does". Lemma `FilterUnique` shows that this pins the result
  down.
- `Entities`: `Group`, `Category` and `Promotion`, as the interfaces declare
  them. Products stay raw records, because `...p` passes every field the
  backend sends through.
- `Getters`: the five read views.
- `Normalizer`: the per-record lambda of `fetchProducts`, and the `map` over
  the listing.
- `Updates`: `patchProduct`'s wire payload, the merge of its reply, and
  `deleteProduct`'s filter.
- `Store`: the class `ProductStore`. Its fields are the four collections,
  and it has one method per action.

Behaviours of the code that the model follows as written:

- Normalising is not idempotent. The lambda at
  `src/stores/productStore.ts:140-147` parses `String(p.image)` and wraps
  anything that is not an array. A second pass therefore parses the
  comma-joined text of the list the first pass produced. It keeps the
  result when that text is a JSON array, and wraps the list once more
  otherwise (`Normalizer.RenormalizeImage`). For example, a record with
  image "a.png" comes out of a second pass with `[["a.png"]]`
  (`Normalizer.RenormalizeWrapsImage`).
  `Normalizer.RenormalizeKeepsFields` shows that every other field is
  stable, provided `group` did not come out empty.
- `groupId` is not normalised: the lambda at
  `src/stores/productStore.ts:128-148` writes no `groupId` key. The group
  getters compare the raw value with `===` (`:65`, `:74`), so a group
  without an id selects the products that have no `groupId`
  (`Getters.GroupWithoutIdSelectsUngrouped`).
- `patchProduct` does not pass its failure on to the caller. Its `catch`
  (`src/stores/productStore.ts:221-224`) logs, alerts and returns
  `undefined`. Only `deleteAllProducts` throws.
- `inStock` is declared a number (`src/stores/productStore.ts:42`), but the
  comment at `:40` and the assignment at `:137` make it a boolean. The
  model stores a boolean.

## Model

| member | source | states |
|---|---|---|
| `JsValues.Truthy` | src/stores/productStore.ts:130-139 | a value is truthy exactly when it is not one of the six falsy values: undefined, null, false, 0, NaN, "" |
| `JsValues.ToStr` | src/stores/productStore.ts:135 | `String(v)` gives a string's own text, "undefined", "null", "NaN", "true"/"false", and "" for an empty array |
| `JsValues.ArrayText` | src/stores/productStore.ts:142 | `String` of an array is its first element's text, then a comma and the text of the rest when there is more |
| `JsValues.StrictEquals` | src/stores/productStore.ts:65 | `===` holds exactly for equal primitive values: NaN, arrays and objects never compare equal here |
| `JsValues.ToNumber` | src/stores/productStore.ts:130-137 | `Number(v)`: a number is itself, null is 0, undefined and NaN give NaN |
| `JsValues.Join` | src/stores/productStore.ts:135 | joining nothing gives the empty string, and joining one part gives that part |
| `JsValues.SolidFrom` | src/stores/productStore.ts:138-139 | the index where the leading white space ends: everything before it (from the start index) is white space, and the character there is not |
| `JsValues.SolidUntil` | src/stores/productStore.ts:138-139 | the index where the trailing white space begins: everything from it up to the end index is white space, and the character just before it, if any, is not |
| `JsValues.Trim` | src/stores/productStore.ts:138-139 | `trim()` returns the piece of the input framed by white space, with no white space at either end; it is empty iff the input is blank |
| `JsValues.TrimOfUnpadded` | src/stores/productStore.ts:138-139 | text that neither starts nor ends with white space is its own trim |
| `JsValues.TrimIdempotent` | src/stores/productStore.ts:138-139 | trimming twice is trimming once |
| `JsValues.DecimalDigits` | src/stores/productStore.ts:129 | an index's property name is a non-empty string of digits, with no leading zero unless it is "0" |
| `JsValues.DigitsRoundTrip` | src/stores/productStore.ts:129 | reading an index's property name back as a decimal number gives the index |
| `JsValues.DigitsInjective` | src/stores/productStore.ts:129 | distinct indices get distinct property names |
| `JsValues.Indexed` | src/stores/productStore.ts:129 | spreading a list gives each index's name as a key holding that index's element, and no key that is not the name of an index |
| `JsValues.SpreadOf` | src/stores/productStore.ts:129 | `{...v}` copies an object's fields; an array's or a string's elements under their index names, and nothing else; and nothing for other values |
| `Seqs.Filter` | src/stores/productStore.ts:65 | `filter` keeps the order, keeps each kept value as often as it occurs, drops every other value; membership iff in input and kept |
| `Seqs.SubsequenceCounts` | src/stores/productStore.ts:65 | a subsequence never holds a value more often than the sequence it comes from |
| `Seqs.FilterUnique` | src/stores/productStore.ts:65 | any order-preserving subsequence with the filtered counts equals the filter: the contract of `Filter` determines it |
| `Seqs.FilterIdempotent` | src/stores/productStore.ts:237 | filtering twice with one test is filtering once |
| `Seqs.FindFirst` | src/stores/productStore.ts:63 | `find` yields nothing iff no element passes; otherwise the first element that passes |
| `Getters.FindGroup` | src/stores/productStore.ts:63 | the group lookup finds nothing iff no group has the name, else the first group with it |
| `Getters.CategoriesByGroup` | src/stores/productStore.ts:61-67 | `[]` when no group has the name; otherwise exactly the categories whose `groupId` is the first such group's id, in order |
| `Getters.ProductsByGroup` | src/stores/productStore.ts:70-76 | `[]` when no group has the name; otherwise exactly the products whose raw `groupId` is `===` the first such group's id, in order |
| `Getters.ProductsByCategory` | src/stores/productStore.ts:79-83 | exactly the products whose `categoryId` is `===` the given id, in order |
| `Getters.PopularProducts` | src/stores/productStore.ts:86-88 | exactly the products whose `countSold` converts to a number above 10, in order |
| `Getters.Names` | src/stores/productStore.ts:92 | one name per category, position by position |
| `Getters.CategoryNames` | src/stores/productStore.ts:91-93 | the menu has one more entry than there are categories: `"All"` first, then each category's name in order |
| `Getters.GroupWithoutIdSelectsUngrouped` | src/stores/productStore.ts:72-74 | a first matching group without an id selects exactly the products that have no `groupId` |
| `Getters.GroupWithoutIdHasNoCategories` | src/stores/productStore.ts:63-65 | a first matching group without an id selects no category; this follows from `Category` declaring `groupId` as an always-present number (see "## Left out") |
| `Normalizer.TrimmedOr` | src/stores/productStore.ts:138-139 | the trimmed text of a truthy, non-blank value, the fallback otherwise; never empty |
| `Normalizer.Normalize` | src/stores/productStore.ts:128-148 | keys are the raw keys plus the normalised ones; other fields are passed through; numeric fields are the parsed value or 0; `inStock` iff `instock > 0`; `detail` and `discountcolor` are non-empty strings; `group` is `String` of a truthy raw `group`, `'default'` otherwise; `image` is the array `JSON.parse(String(p.image))` yields, and `[p.image]` when it yields anything else or throws |
| `Normalizer.NormalizeAll` | src/stores/productStore.ts:125-128 | defined iff the body is an array without null or undefined elements; then the result has the same length, and each entry is the normalised spread of that element |
| `Normalizer.MissingStock` | src/stores/productStore.ts:136-137 | a record without `instock` gets `inStock == false` and `instock == 0` |
| `Normalizer.InStockIffPositive` | src/stores/productStore.ts:137 | `inStock` is true iff the raw `instock` parses to a number above 0 |
| `Normalizer.TextFields` | src/stores/productStore.ts:138-139 | `detail` and `discountcolor` are the trimmed raw text when it is truthy and not blank, else "No description available" and "#10b981" |
| `Normalizer.GroupIdPassesThrough` | src/stores/productStore.ts:129 | the raw `groupId` comes out unchanged |
| `Normalizer.ImageExamples` | src/stores/productStore.ts:140-147 | `"[\"a.png\",\"b.png\"]"` decodes to the two names; a bare `"a.png"` becomes `["a.png"]` |
| `Normalizer.FetchedRecordExample` | src/stores/productStore.ts:128-148 | `{id: 1, rating: "4.5", instock: 3, image: "x.png", price: "N/A"}` gives rating 4.5, `inStock` true, image `["x.png"]`, price 0 |
| `Normalizer.TrimmedOrStable` | src/stores/productStore.ts:138-139 | re-applying the text fallback to its own result gives it back |
| `Normalizer.RenormalizeKeepsFields` | src/stores/productStore.ts:128-148 | normalising again keeps every field except `image`, provided `group` came out non-empty |
| `Normalizer.RenormalizeImage` | src/stores/productStore.ts:140-147 | a second pass parses `String` of the image list the first pass produced, keeps the result when it is an array, and wraps the list in another list otherwise |
| `Normalizer.RenormalizeWrapsImage` | src/stores/productStore.ts:140-147 | a record with image "a.png" normalises to `["a.png"]`, and a second pass (where "a.png" does not parse) gives `[["a.png"]]`, so normalising is not idempotent |
| `Updates.WirePayload` | src/stores/productStore.ts:180-194 | the payload never has `inStock` or `groupId`; `instock` is 1/0 by the truthiness of `inStock`; `group` keeps a non-null `group`, else takes `groupId`; `rating` is `Number(rating)`; other keys unchanged |
| `Updates.WireStockRoundTrip` | src/stores/productStore.ts:182-185 | the `instock` sent normalises back to an `inStock` equal to the flag's truthiness |
| `Updates.WireRatingNormalizesAlike` | src/stores/productStore.ts:192-194 | converting `rating` before sending does not change what it normalises to |
| `Updates.MergeById` | src/stores/productStore.ts:214-216 | same length; entries with another id are unchanged; a matching entry takes every field of the server record and keeps its own for the rest |
| `Updates.MergeIdempotent` | src/stores/productStore.ts:214-216 | applying one server reply twice is applying it once |
| `Updates.DeleteById` | src/stores/productStore.ts:237 | no entry with the id remains; the others are kept, in order, with their multiplicity |
| `Updates.DeleteIdempotent` | src/stores/productStore.ts:237 | deleting an id twice is deleting it once |
| `Updates.MergeAfterDelete` | src/stores/productStore.ts:214-216 | a patch reply for a deleted id changes nothing |
| `Updates.PatchExample` | src/stores/productStore.ts:180-216 | `{inStock: false}` is sent as `{instock: 0}`; a reply `{id: 1, countSold: 12}` sets `countSold` to 12 and keeps the other fields |
| `Store.ProductStore.constructor` | src/stores/productStore.ts:52-57 | all four collections start empty |
| `Store.ProductStore.FetchGroups` | src/stores/productStore.ts:99-107 | a successful listing replaces the groups; a failure leaves them; nothing else changes |
| `Store.ProductStore.FetchCategories` | src/stores/productStore.ts:109-117 | a successful listing replaces the categories; a failure leaves them; nothing else changes |
| `Store.ProductStore.FetchProducts` | src/stores/productStore.ts:121-154 | on success the products are the element-wise normalisation of the listing; on failure, or on a body that throws, they are unchanged |
| `Store.ProductStore.FetchPromotions` | src/stores/productStore.ts:156-164 | a successful listing replaces the promotions; a failure leaves them; nothing else changes |
| `Store.ProductStore.FetchAll` | src/stores/productStore.ts:166-173 | each collection is updated by its own reply, independently of the others |
| `Store.ProductStore.PatchProduct` | src/stores/productStore.ts:177-225 | sends the translated payload; on success merges the reply by id and returns it; on failure the products are unchanged and nothing is returned |
| `Store.ProductStore.DeleteProduct` | src/stores/productStore.ts:229-242 | on success no product with the id remains and the others keep their order; on failure nothing changes |
| `Store.ProductStore.DeleteAllProducts` | src/stores/productStore.ts:244-253 | a declined confirmation or a refused call leaves the products; otherwise they are emptied |
| `Store.FetchAllScenario` | src/stores/productStore.ts:166-173 | groups load while promotions fail: the groups hold the listing and the promotions stay empty |

## Left out

- HTTP (`fetch`, `res.ok`, `res.json()`), `console.error`, `alert` and
  `confirm` are not modelled. Each call is represented by its outcome
  (`Reply`, or a boolean `ok` or `confirmed`), passed in as a parameter.
- `Number` of a string, `String` of a number and `JSON.parse` are not
  modelled. They are the `Runtime` fields, taken as given. Properties that
  depend on their answers (`ImageExamples`, `FetchedRecordExample`,
  `RenormalizeWrapsImage`) state those answers as preconditions.
- Numbers are modelled as mathematical reals, not IEEE doubles. The model
  has no rounding, no `-0`, no `Infinity` and no overflow.
- `fetchAll` runs its four fetches concurrently. The model runs them one
  after another; each one touches only its own collection.
- For groups, categories and promotions, the model assumes the body
  decodes to a list of the declared shape. The source stores whatever JSON
  comes back. In particular a raw category without `groupId` would be
  selected by a group without an id; the model's `Category` always has one.
- `JSON.stringify` of the patch payload is not modelled. In the source it
  drops keys whose value is `undefined` and sends NaN as `null`. The model's
  output is the payload object itself.
- `===` on arrays and objects compares references. The model treats them as
  never equal, which holds because the compared values always come from
  different decoded documents.
- Spreading a string is modelled per Unicode character, not per UTF-16 code
  unit.
- `String()` and `Number()` of an object use the plain-data conversions.
  Custom `toString` and `valueOf` methods are not modelled.
- The error message that `patchProduct` builds from a failed response's body
  is not modelled. Neither is the different way the actions report failure:
  `deleteAllProducts` throws, the others log.
- `src/router/index.ts` (route table), `Product.model.ts` (column
  declarations) and `src/main.ts` (bootstrap) hold no store logic. They are
  not part of this model.
