# CarSpot listing pipeline, modelled in Dafny

CarSpot is a script, `index.js`. It asks a car-stock REST service for the
listings of a fixed catalogue of models in one region (Moscow or Saint
Petersburg). It flattens each nested JSON response into a list of listings
and keeps either the cheapest listing of each model or all of them. It sorts
the result by price and singles out the cheapest listing and the listing with
the largest discount. The result is then rendered as text or HTML and
appended to a file.

This project models the part of that script that does not touch the
network, files or the console:

- `Catalogue` (`catalogue.dfy`): the `cars` catalogue, and `carsList` and
  `options`, which turn the catalogue into request records tagged with a
  region id. `carsList` is `CarsList(Cars, …)`. The catalogue is a parameter,
  so the lemmas hold for any catalogue (some of them for any catalogue whose
  keys are distinct), and `Cars` is the shipped one.
- `Normaliser` (`normaliser.dfy`): `formatResponse`, the nested `forEach`
  loops that flatten brand → first sub-category → listing id into one list.
  The method `FormatResponse` keeps those loops. It is proved equal to the
  function `Normalised`, and the lemmas about `Flatten` say what that list is.
- `Ranking` (`ranking.dfy`): `fetchHandler` up to the output dispatch. This
  covers the map of `formatResponse` over the responses and the per-model
  loop that reassigns `result`. It also covers the sort by price and the two
  "keep all ties, report index 0" reductions. `FetchHandler`,
  `MaxDiscountCar` and `MinPriceCar` keep the loops. They are proved equal to
  the functions `Pipeline`, `FirstMaxDiscount` and `FirstMinPrice`, whose
  contracts and lemmas state the argmin, argmax, sortedness and permutation
  properties.
- `Listings` and `Common` (`listings.dfy`, `common.dfy`): the datatypes, and
  JSON objects seen as association lists in the order `Object.keys` reports.
  `Common` also models property read (`Get`), property write (`Put`) and
  object spread (`Spread`).

Modelling decisions:

- Prices and discounts are integers. They stand for the numbers that
  `Number(...)` makes of the fields.
- A thrown `TypeError` becomes `Err`. The whole run stops at that point and
  nothing is rendered. `undefined` becomes `None`.
- `Array.prototype.sort` is modelled by `SortByPrice`, a stable insertion
  sort by `price.value`. ECMAScript 2019 and later require the library sort
  to be stable. So in cheapest mode, `sort(...)[0]` is the first
  cheapest listing of the model (`SortHeadIsFirstMin`).
- A brand without any sub-category makes `items[Object.keys(items)[0]].items`
  throw. This is `Err(NoSubCategory(brand))`, naming the first such brand.
- Cheapest mode on a model whose list is empty is
  `Err(MissingListing(model))`. The code takes `[0]` of the empty list and
  appends `undefined` (index.js:176). `Array.prototype.sort` moves
  `undefined` entries to the end without calling the comparator. The
  `maxDiscountCar` reduction then reaches that entry and throws a
  `TypeError` reading `item.price` (index.js:187, or index.js:185 when every
  entry is `undefined`). One might expect such a model to contribute
  nothing; the code instead aborts the run, and the model follows the code.
- On an empty combined list, both reductions return `undefined`. This is
  `None`. The code has no distinct "no listings" error, and the model
  follows the code.
- `FetchHandler` takes `isLowest` as a parameter. The script's only call,
  `.then(fetchHandler)` (index.js:237), passes the responses alone, so the
  script as shipped always runs cheapest mode. All mode is reachable only
  through the parameter.
- The maximum-discount reduction runs over the price-sorted list. So the
  listing it reports is the cheapest, and then the earliest, of those with
  the largest discount (`FirstMaxDiscountIsCheapest`).
- `if (brand)` treats the empty string as no brand at all, so `carsList`
  with `""` gives the default list. An unknown brand logs a message and
  returns `undefined`, which is `None` here.

## Model

| member | source | states |
|---|---|---|
| `Common.Get` | index.js:56 | a property read is undefined exactly when the key is absent; otherwise it yields a value stored under that key |
| `Common.GetDistinct` | index.js:59-60 | in an object with distinct keys, reading a key yields the value stored with it |
| `Common.Put` | index.js:45-50 | writing an existing key keeps the key order; writing a new key appends it |
| `Common.PutGet` | index.js:45-50 | after a write, the written key reads as the new value and every other key reads as before |
| `Common.Spread` | index.js:45-50 | object spread: the result's keys are exactly those of both operands, and the target's keys stay in front in their order; `SpreadDisjoint` and `SpreadAppends` give its value |
| `Common.PutKeys` | index.js:45-50 | a write keeps the existing keys in front, in order, and adds at most its own key |
| `Common.SpreadDisjoint` | index.js:45-50 | spreading properties whose keys are new and distinct appends them in order |
| `Common.SpreadAppends` | index.js:45-50 | spreading onto an object, with all keys distinct overall, is concatenation |
| `Normaliser.FormatResponse` | index.js:90-100 | the nested push loops compute `Normalised(json)`; a null payload or one without `items` gives the empty list |
| `Normaliser.FlattenFails` | index.js:93-95 | the call throws exactly when some brand has no sub-category, and the error names the first such brand |
| `Normaliser.FlattenLength` | index.js:93-96 | on success the output length is the sum of the sizes of each brand's first sub-category |
| `Normaliser.FlattenMembers` | index.js:93-96 | on success a listing is in the output exactly when it is a value in some brand's first sub-category |
| `Normaliser.SiblingSubCategoriesIgnored` | index.js:95 | sub-categories after the first never affect the result |
| `Normaliser.NormaliseExample` | index.js:90-100 | one brand whose sub-category holds ids id1, id2 gives `[l1, l2]`, with or without a second sub-category |
| `Normaliser.NormaliseAll` | index.js:172 | on success there is one normalised list per response, each what `formatResponse` gives for it |
| `Normaliser.NormaliseAllFails` | index.js:172 | the map throws exactly when some response's `formatResponse` throws, and it throws the error of the first such response |
| `Ranking.SortByPrice` | index.js:176-182 | `Array.prototype.sort` with the price comparator keeps the length; `SortByPriceSorts` and `SortByPriceStable` give its meaning |
| `Ranking.SortByPriceStable` | index.js:176-182 | the sort is stable: for every price, the listings of that price keep their input order |
| `Ranking.SortByPriceSorts` | index.js:182 | the sort returns a permutation of its input, non-decreasing by price |
| `Ranking.FirstMinPrice` | index.js:199-212 | an index of a lowest-priced listing, with every earlier listing strictly dearer |
| `Ranking.FirstMaxDiscount` | index.js:184-197 | an index of a largest-discount listing, with every earlier listing's discount strictly smaller |
| `Ranking.SortHeadIsFirstMin` | index.js:176 | `sort(...)[0]` of a non-empty model list is its first cheapest listing |
| `Ranking.AllSelectionIsConcat` | index.js:178 | in all mode the combined list is the concatenation of the model lists in request order |
| `Ranking.CheapestSelectionFails` | index.js:176-185 | in cheapest mode the run throws exactly when some model list is empty |
| `Ranking.CheapestSelectionPicks` | index.js:174-177 | in cheapest mode model i contributes exactly one listing, the first cheapest of its list |
| `Ranking.FirstMaxDiscountIsCheapest` | index.js:182-197 | on the price-sorted list, the first max-discount listing is the cheapest of the listings with that discount |
| `Ranking.Rank` | index.js:170-212 | the run throws exactly when the per-model selection throws, with the same error |
| `Ranking.RankSortsSelection` | index.js:182-212 | the ranked list is sorted by price and a permutation of the selection; both picks are undefined exactly when it is empty |
| `Ranking.RankMinPrice` | index.js:199-212 | the lowest-price pick is the head of the ranked list and no listing is cheaper |
| `Ranking.RankMaxDiscount` | index.js:184-197 | the largest-discount pick is a ranked listing, no listing has a larger discount, and it is the cheapest of those sharing its discount |
| `Ranking.MaxDiscountCar` | index.js:184-197 | the tie-keeping reduction returns the first listing with the largest discount, or undefined on an empty list |
| `Ranking.MinPriceCar` | index.js:199-212 | the tie-keeping reduction returns the first listing with the lowest price, or undefined on an empty list |
| `Ranking.FetchHandler` | index.js:170-212 | map, per-model loop, sort and both reductions compute `Pipeline(jsonList, isLowest)`, including its errors |
| `Ranking.FormatAll` | index.js:172 | the map of `formatResponse` over the responses computes `NormaliseAll(jsonList)`, stopping at the first throw |
| `Ranking.SelectListings` | index.js:174-180 | the per-model loop that reassigns `result` computes `Selection(lists, isLowest)`; in cheapest mode an empty model list gives the error that the later reduction throws on its `undefined` entry |
| `Ranking.ReduceExample` | index.js:182-212 | listings priced 50, 50, 30 (discounts 5, 20, 1) sort to 30, 50, 50 with the two 50s in input order; on that list the max-discount pick is the discount-20 listing and the min-price pick is the 30 |
| `Catalogue.CarsList` | index.js:41-68 | a named brand yields nothing exactly when the catalogue lacks it; no brand (or "") yields one request per default-list entry; every request carries the region id |
| `Catalogue.Tagged` | index.js:59-66 | the `{...entry, regions: regionId}` map over the keys; `KnownBrand`, `DefaultCars` and `Options` state what it yields |
| `Catalogue.BrandModels` | index.js:43 | destructuring one brand out of `cars`; `CarsBrands` states what it yields for the shipped catalogue |
| `Catalogue.DefaultList` | index.js:45-50 | the default list has exactly the model keys of the four brands; `DefaultListIsConcat` gives its order when no key collides |
| `Catalogue.Options` | index.js:69-74 | both regions get the same requests in the same order, tagged 3 (Moscow) and 10 (Saint Petersburg) |
| `Catalogue.KnownBrand` | index.js:55-61 | a known brand yields one request per catalogue model of that brand, in catalogue order, with `regions` set |
| `Catalogue.DefaultListIsConcat` | index.js:43-50 | when model keys do not collide, the default list is volkswagen, audi, bmw and skoda models, in that order |
| `Catalogue.CarsBrands` | index.js:19-43 | destructuring the shipped catalogue yields the four brands' model lists |
| `Catalogue.DefaultKeysDistinct` | index.js:19-40 | the twelve model keys of the shipped catalogue are pairwise different |
| `Catalogue.DefaultCars` | index.js:41-66 | with no brand, the shipped catalogue yields twelve requests: volkswagen, audi, bmw, skoda models in order |

## Left out

- `fetchData` (index.js:221-239): the HTTP POSTs, `Promise.all` batching and the error handler are network I/O and concurrency. The responses enter the model as the parameter `jsonList` of `FetchHandler`.
- `createFile` and `writeInFile` (index.js:76-88), and the console echo: file and console I/O.
- `formatMessageToString`, `formatMessageToHtmlString`, `handleOutputText` and `handleOutputHtml` (index.js:102-168), and the output dispatch (index.js:214-218): string templating over the external `format-currency` library and locale upper-casing. Their `i <= results.length` loops visit one `undefined` past the end and skip it, so they only iterate over every element.
- `start`, `CarParser` and the top-level call (index.js:241-269): entry-point plumbing.
- `Number(...)` parsing of price strings and `NaN` comparisons: prices and discounts are integers here.
- The listing fields `regions` and the `image` object are read only by the renderers. `Listing` keeps `image.face` as an optional string and drops `regions`.
- Payload nodes always carry their nested `items` fields. A brand node or sub-category with no `items` field throws a `TypeError` in the source, and that case cannot be represented in the model.
- An association list is taken to be already in `Object.keys` order. The rule that integer-like keys come first is not modelled.
- `Catalogue.CarsList`: a brand named after an inherited `Object.prototype` property (such as `"toString"`) passes the `!cars[brand]` test in the source and yields an empty list. The model treats it as an unknown brand.
- The per-model `sort` at index.js:176 also reorders the model's array in place. Nothing reads that array afterwards, so the model sorts a copy.
- `Ranking.SortByPrice`: the model is the stable sort that ECMAScript 2019 requires. Engines older than that may order equal prices differently.
