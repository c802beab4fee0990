# House data XML server: model of the request pipeline

`main.js` runs a small HTTP server over a JSON file of housing records. A `GET` request
answers with the houses that pass the filters in its query string, re-shaped to three
properties and written out as XML. The query can carry `furnished=true`, which keeps only
houses whose `furnishingstatus` is exactly `"furnished"`. It can also carry
`max_price=<n>`, which keeps only houses with `parseInt(price) <= parseInt(max_price)`.
Any other method gets `405`. A request whose processing throws gets `500`.

This project models that pipeline in Dafny as pure functions, the way the source writes
it with `Array.filter` and `Array.map`:

- `seqs.dfy` (module `Seqs`) models `Array.prototype.filter` and `Array.prototype.map`
  with callbacks that may throw. A callback result of `None` is a thrown exception,
  which aborts the whole call. It also gives a pure reference filter, `Select`, and
  proves that chained filters fuse into one and may be reordered.
- `js_number.dfy` (module `JsNumber`) models JavaScript's `parseInt` with no radix.
  It skips ECMAScript white space, reads an optional sign and a `0x`/`0X` prefix, then
  reads the longest run of digits. With no digits the result is `NaN`, written `None`.
  `AtMost` is `<=` on two such results, and is false whenever either side is `NaN`.
  The module also models `String()` of an integer, which is what `parseInt` reads
  when a price is a JSON number.
- `house_data.dfy` (module `HouseData`) models `processHouseData`. The input is the
  parsed array: each element is an object or `null`, and reading a property of `null`
  throws a `TypeError`. The module holds the two filter statements, the projection to
  `{ house: { price, area, furnishingstatus } }` under `{ houses: [...] }`, and a
  reference definition (`Admits`, `Selected`) that the filters are proved to compute.
- `server.dfy` (module `Server`) models the request handler's choice of status,
  headers and body.

Three behaviours of the code are easy to miss:

- A `max_price` that `parseInt` reads as `NaN` (such as `"abc"`) does not switch the
  filter off. Every comparison with `NaN` is false, so the response holds no houses
  (`HouseData.UnreadableMaxPriceKeepsNothing`). An empty `max_price` is falsy, so it
  does switch the filter off.
- The code reads and parses the file again on every request. The model takes the loaded
  array, or the fact that loading failed, as an input of each request.
- A `null` element in the array makes the pipeline throw, so the response is `500`.
  So does a price on which `String()` throws, such as the object `{"toString": 0}`,
  but only when `max_price` is active and the house reaches the price filter. A
  price that is missing or reads as `NaN` does not throw: that house is dropped by
  the price filter and kept otherwise.

## Model

| member | source | states |
|---|---|---|
| `Seqs.Filter` | main.js:43-53 | `filter` throws exactly when its callback throws on some element |
| `Seqs.Map` | main.js:57-63 | `map` throws exactly when its callback throws on some element; otherwise element i of the result is the callback's value on element i, and the length is kept |
| `Seqs.Select` | main.js:39-54 | the reference filter keeps exactly the elements satisfying the predicate, each as many times as it occurs in the input, as a subsequence in input order |
| `Seqs.FilterIsSelect` | main.js:43-53 | a filter whose callback never throws and agrees with a predicate computes the reference filter of that predicate |
| `Seqs.FilterFuse` | main.js:39-54 | two filters in a row equal one filter by the sequential conjunction of their callbacks, including whether the pair throws |
| `Seqs.FilterCommutes` | main.js:39-54 | two filters whose callbacks throw on the same elements give the same result in either order |
| `JsNumber.ParseIntToDecimal` | main.js:52 | `parseInt(String(n)) == n` for every integer `n` (`String()` writes exactly these digits up to 2^53 in magnitude): `ParseInt` (main.js:50, 52) reads back what `ToDecimal` (`String()` of an integer) writes |
| `JsNumber.ParseIntReadsDecimal` | main.js:52 | `parseInt` reads an integer's digits and stops at a following non-digit other than `x`/`X`, so `"12.5"` reads as 12 |
| `JsNumber.ParseIntSkipsWhiteSpace` | main.js:50 | leading ECMAScript white space does not change what `parseInt` reads |
| `JsNumber.ParseIntNaN` | main.js:50-52 | a string whose first non-blank character is neither a sign nor a digit parses to `NaN`, e.g. `"undefined"` for a missing price |
| `HouseData.Project` | main.js:57-63 | the projection (`map` with the callback `Shape`) throws exactly on a `null` element; otherwise there is one listing per house, in order, holding exactly that house's `price`, `area` and `furnishingstatus`, unconverted |
| `HouseData.Selected` | main.js:39-54 | the admitted houses are a subsequence of the input in its order; a house is in it exactly when it is an object the query admits, and as many times as it occurs in the input |
| `HouseData.FilterHousesSpec` | main.js:39-54 | `FilterHouses`, the two filter statements with the callbacks `FurnishedTest` (main.js:43-45) and `PriceTest` (main.js:51-53): with no active filter the array passes unchanged; otherwise they throw exactly when some element breaks them (`Breaks`: a `null`, or, when `max_price` is active, a house reaching the price filter whose price `String()` cannot convert) and else return exactly the admitted houses in input order |
| `HouseData.ProcessHouseDataSpec` | main.js:33-66 | `ProcessHouseData` throws exactly when the array holds `null` or a filter throws (`Fails`); otherwise its `houses` list has one entry per admitted house, in order, with that house's three properties |
| `HouseData.FurnishedOnlySendsFurnished` | main.js:42-45 | with `furnished=true` every kept house has `furnishingstatus` equal to the string `"furnished"`; `"semi-furnished"` or `"Furnished"` is never kept |
| `HouseData.MaxPriceBoundsPrice` | main.js:49-53 | with a non-empty `max_price` every kept house's price converts to a string that reads as an integer no greater than `parseInt(max_price)`; a price that reads as `NaN` is never kept |
| `HouseData.UnreadableMaxPriceKeepsNothing` | main.js:49-53 | a non-empty `max_price` that reads as `NaN` keeps no house, unless some element breaks the filters, in which case they throw |
| `HouseData.SameConstraintsSameResult` | main.js:42-50 | only the constraints a query switches on matter, as `FurnishedOnly` (main.js:42), `MaxPriceGiven` (main.js:49) and `MaxPrice` (main.js:50) read them: `furnished` other than `"true"` and an empty `max_price` act as absent, and two `max_price` values that read alike filter alike |
| `HouseData.FilterOrderIrrelevant` | main.js:39-54 | when every price in the array can be converted to a string, running the price filter before the furnishing filter gives the same result, including whether it throws |
| `HouseData.FilterOrderMattersForUnconvertiblePrice` | main.js:39-54 | with an unfurnished house whose price `String()` cannot convert, `furnished=true&max_price=5` keeps nothing, while the price filter run first would throw |
| `HouseData.Text` | main.js:52 | `String(price)` throws exactly on a value whose conversion throws; a missing price converts to text that reads as `NaN`, and a JSON integer to text that reads back as that integer |
| `HouseData.NumericPriceComparesByValue` | main.js:52 | the price callback on any house priced as a JSON integer gives `true` exactly when the limit is a number no less than it, and never throws |
| `HouseData.MissingPriceNeverKept` | main.js:52 | a house with no `price` property fails the price test, since `parseInt(undefined)` is `NaN` |
| `HouseData.SampleFurnished` | main.js:39-65 | on a two-house example array, `furnished=true` sends exactly the furnished house priced `"13300000"` |
| `HouseData.SampleMaxPrice` | main.js:39-65 | on a two-house example array, `max_price=12250000` sends exactly the house priced `"12250000"` |
| `Server.Handle` | main.js:77-104 | any method other than `GET` gets 405 `text/plain` "Method Not Allowed" whatever the query; a `GET` gets 200 exactly when the file loaded and `processHouseData` does not throw on it (`Fails`), with `application/xml`, `Access-Control-Allow-Origin: *` and the built XML as body; every other `GET` gets 500 `text/plain` "Internal Server Error" |

## Left out

- Command-line options (`commander`, main.js:6-15) are not modelled. They are configuration read by a foreign library.
- The startup check that the input file exists, with `process.exit` (main.js:18-23), is not modelled. It is I/O.
- `readFile` and `JSON.parse` (main.js:35-36) are not modelled. They are I/O and a foreign parser. `Server.Handle` takes their outcome as input: the parsed array, or `None` when reading or parsing fails or the top level is not an array. `filter` and `map` throw on a non-array top level.
- Array elements that are neither objects nor `null` (numbers, strings) are represented as records with no properties. Property reads on them give `undefined`, which is what the source sees.
- JSON values other than strings and integers are carried as the text `String()` gives them (`JOther`), or as `JUnconvertible` when `String()` throws on them. So `parseInt` reads them exactly, but the XML text written for them is not modelled.
- `JInteger` stands for integral JSON numbers below 10^21 in magnitude. The type does not enforce that bound. Beyond it, JavaScript writes numbers in exponent notation. Between 2^53 and 10^21 it writes the shortest digits that read back as the same double, which may differ from `ToDecimal`'s exact digits (`String(2**60)` is `"1152921504606847000"`).
- `parseInt` results are exact integers. JavaScript rounds them to the nearest double, so prices beyond 2^53 may compare differently.
- XML serialisation with `XMLBuilder` (main.js:26-30, 92) is not modelled. It is a foreign library. `Server.Handle` takes the builder as a function from the payload to text, assumed not to throw.
- URL parsing with `new URL` and `Object.fromEntries` (main.js:85-86) is not modelled. They are foreign calls. The query map is an input, and a throw from `new URL` is not modelled.
- The message that `processHouseData` wraps errors in (main.js:67-69) is not modelled. The response body for every failure is the fixed "Internal Server Error".
- Socket writes, request logging, `server.listen`, the `server.on('error')` handler and SIGINT shutdown (main.js:74, 95-99, 102, 108-129) are not modelled. They are I/O and event-loop behaviour.
- Immutability of the loaded array is not stated as a contract. Every function here takes and returns values, so no operation can change its input.
