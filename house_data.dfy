/** The per-request pipeline of `processHouseData` in main.js: the two query-driven
    filters over the parsed JSON array of houses, and the projection of each surviving
    house to the `price`, `area` and `furnishingstatus` it exposes, under one `houses`
    root. JavaScript exceptions are `None`. */
module HouseData {
  import opened Wrappers
  import Seqs
  import JsNumber

  /** A JSON value held by a property of a house. */
  datatype JsonValue =
    | JString(s: string)
      /** A JSON number with an integral value below 10^21 in magnitude. */
    | JInteger(n: int)
      /** Any other JSON value (true, false, null, a fractional or larger number, an array
          or an object), represented by the text `String()` gives it. */
    | JOther(text: string)
      /** An object on which `String()` throws a `TypeError`, such as `{"toString": 0}`:
          its own `toString` is not a function and `valueOf` gives back the object itself.
          An array holding such an object is one too. */
    | JUnconvertible

  /** A property read: `None` is `undefined`, the property is absent. */
  type Field = Option<JsonValue>

  /** A house as parsed from the JSON file: the three properties the server reads and
      whatever other properties (bedrooms, parking, ...) the file gives it. */
  datatype Record = Record(price: Field, area: Field, furnishingstatus: Field, others: map<string, JsonValue>)

  /** An element of the parsed JSON array. Reading a property of `null` throws a
      `TypeError`; any other primitive element reads like a record without properties. */
  datatype Entry = Object(record: Record) | Null

  /** The query string's parameters, as `Object.fromEntries(url.searchParams)` gives them. */
  type Query = map<string, string>

  /** The shape each house is sent in: exactly three properties, values as they were. */
  datatype House = House(price: Field, area: Field, furnishingstatus: Field)

  /** `{ house: { ... } }`, one per house sent. */
  datatype Listing = Listing(house: House)

  /** `{ houses: [...] }`, the object handed to the XML builder. */
  datatype Payload = Payload(houses: seq<Listing>)

  /** `String(value)`, which is what `parseInt` reads when given a property; `None` when
      the conversion throws. A missing property reads as `NaN`, and a JSON integer reads
      back as itself. */
  function Text(f: Field): (r: Option<string>)
    ensures r.None? <==> f == Some(JUnconvertible)
    ensures f.None? ==> r.Some? && JsNumber.ParseInt(r.value).None?
    ensures f.Some? && f.value.JInteger? ==> r.Some? && JsNumber.ParseInt(r.value) == Some(f.value.n)
  {
    match f
    case None => JsNumber.ParseIntNaN("undefined"); Some("undefined")
    case Some(JString(s)) => Some(s)
    case Some(JInteger(n)) => JsNumber.ParseIntToDecimal(n); Some(JsNumber.ToDecimal(n))
    case Some(JOther(t)) => Some(t)
    case Some(JUnconvertible) => None
  }

  /** `queryParams.furnished === 'true'`. */
  predicate FurnishedOnly(q: Query)
  {
    "furnished" in q && q["furnished"] == "true"
  }

  /** `queryParams.max_price` is truthy: present and not the empty string. */
  predicate MaxPriceGiven(q: Query)
  {
    "max_price" in q && q["max_price"] != ""
  }

  /** `parseInt(queryParams.max_price)`. */
  function MaxPrice(q: Query): Option<int>
    requires MaxPriceGiven(q)
  {
    JsNumber.ParseInt(q["max_price"])
  }

  /** The callback `house => house.furnishingstatus === 'furnished'`. */
  function FurnishedTest(e: Entry): Option<bool>
  {
    match e
    case Null => None
    case Object(r) => Some(r.furnishingstatus == Some(JString("furnished")))
  }

  /** The callback `house => parseInt(house.price) <= maxPrice`. It throws on `null`, and
      on a price that `parseInt` cannot convert to a string. */
  function PriceTest(maxPrice: Option<int>): Entry -> Option<bool>
  {
    (e: Entry) => match e
         case Null => None
         case Object(r) =>
           match Text(r.price)
           case None => None
           case Some(t) => Some(JsNumber.AtMost(JsNumber.ParseInt(t), maxPrice))
  }

  /** The filter statements: the furnishing filter when `furnished` is `"true"`, then the
      price filter when `max_price` is given, each applied to what the one before left. */
  function FilterHouses(q: Query, houses: seq<Entry>): Option<seq<Entry>>
  {
    var furnished := if FurnishedOnly(q) then Seqs.Filter(houses, FurnishedTest) else Some(houses);
    if MaxPriceGiven(q) then Seqs.AndThenFilter(furnished, PriceTest(MaxPrice(q))) else furnished
  }

  /** The callback of the projection `house => ({ house: { price, area, furnishingstatus } })`. */
  function Shape(e: Entry): Option<Listing>
  {
    match e
    case Null => None
    case Object(r) => Some(Listing(House(r.price, r.area, r.furnishingstatus)))
  }

  /** `filteredHouses.map(...)`: one listing per house, each with that house's three
      properties copied as they are; a `null` element throws. */
  function Project(kept: seq<Entry>): (r: Option<seq<Listing>>)
    ensures r.Some? <==> Null !in kept
    ensures r.Some? ==> |r.value| == |kept|
    ensures r.Some? ==> forall i :: 0 <= i < |kept| ==>
      && kept[i].Object?
      && r.value[i].house.price == kept[i].record.price
      && r.value[i].house.area == kept[i].record.area
      && r.value[i].house.furnishingstatus == kept[i].record.furnishingstatus
  {
    Seqs.Map(kept, Shape)
  }

  /** `processHouseData(queryParams)` on the array the file parsed to. */
  function ProcessHouseData(q: Query, houses: seq<Entry>): Option<Payload>
  {
    match FilterHouses(q, houses)
    case None => None
    case Some(kept) =>
      match Project(kept)
      case None => None
      case Some(listings) => Some(Payload(listings))
  }

  // Reference definition of what the filters keep.

  /** The house satisfies every constraint the query turns on: a `furnishingstatus` of
      exactly the string `"furnished"`, and a price that reads as an integer no greater
      than the integer `max_price` reads as. */
  predicate Admits(q: Query, r: Record)
  {
    && (FurnishedOnly(q) ==> r.furnishingstatus == Some(JString("furnished")))
    && (MaxPriceGiven(q) ==>
          var text := Text(r.price);
          text.Some? &&
          var price := JsNumber.ParseInt(text.value);
          var limit := MaxPrice(q);
          price.Some? && limit.Some? && price.value <= limit.value)
  }

  function Admitter(q: Query): Entry -> bool
  {
    (e: Entry) => e.Object? && Admits(q, e.record)
  }

  /** The houses the query admits, in the order of the file, each as often as it occurs. */
  function Selected(q: Query, houses: seq<Entry>): (r: seq<Entry>)
    ensures Seqs.IsSubsequence(r, houses)
    ensures forall e :: e in r <==> e in houses && e.Object? && Admits(q, e.record)
    ensures forall e :: multiset(r)[e] == if e.Object? && Admits(q, e.record) then multiset(houses)[e] else 0
  {
    Seqs.Select(houses, Admitter(q))
  }

  predicate AnyFilter(q: Query)
  {
    FurnishedOnly(q) || MaxPriceGiven(q)
  }

  /** A filter throws on this element: a filter reads a property of `null`, or the price
      filter reaches a house whose price cannot be converted to a string. */
  predicate Breaks(q: Query, e: Entry)
  {
    match e
    case Null => AnyFilter(q)
    case Object(r) =>
      && MaxPriceGiven(q)
      && (FurnishedOnly(q) ==> r.furnishingstatus == Some(JString("furnished")))
      && Text(r.price).None?
  }

  /** `processHouseData` throws on this array: a filter throws, or the projection reads a
      property of `null`. */
  predicate Fails(q: Query, houses: seq<Entry>)
  {
    Null in houses || exists e :: e in houses && Breaks(q, e)
  }

  /** The filters keep exactly the admitted houses, in order; they throw exactly when one
      of them reaches an element it breaks on. */
  lemma FilterHousesSpec(q: Query, houses: seq<Entry>)
    ensures FilterHouses(q, houses) ==
      if !AnyFilter(q) then Some(houses)
      else if exists e :: e in houses && Breaks(q, e) then None
      else Some(Selected(q, houses))
  {
    if FurnishedOnly(q) && MaxPriceGiven(q) {
      var both := (e: Entry) => Seqs.Both(FurnishedTest(e), PriceTest(MaxPrice(q))(e));
      Seqs.FilterFuse(houses, FurnishedTest, PriceTest(MaxPrice(q)), both);
      forall e: Entry
        ensures (both(e).None? <==> Breaks(q, e)) && (both(e).Some? ==> both(e).value == Admitter(q)(e))
      {
        if e.Null? {
          assert FurnishedTest(e) == None;
          assert both(e) == Seqs.Both(None, PriceTest(MaxPrice(q))(e));
          assert both(e).None? && Breaks(q, e);
        } else {
          var r := e.record;
          if r.furnishingstatus == Some(JString("furnished")) {
            assert both(e) == PriceTest(MaxPrice(q))(e);
            match Text(r.price)
            case None =>
              assert both(e).None? && Breaks(q, e);
            case Some(t) =>
              assert both(e) == Some(JsNumber.AtMost(JsNumber.ParseInt(t), MaxPrice(q)));
              assert Admitter(q)(e) == JsNumber.AtMost(JsNumber.ParseInt(t), MaxPrice(q));
          } else {
            assert both(e) == Seqs.Both(Some(false), PriceTest(MaxPrice(q))(e));
          }
        }
      }
      FilterByAdmitter(q, houses, both);
    } else if FurnishedOnly(q) {
      FilterByAdmitter(q, houses, FurnishedTest);
    } else if MaxPriceGiven(q) {
      FilterByAdmitter(q, houses, PriceTest(MaxPrice(q)));
    }
  }

  /** A filter whose callback throws where the query breaks and otherwise agrees with
      `Admits` throws on the array exactly when some element breaks, and else keeps the
      admitted houses. */
  lemma FilterByAdmitter(q: Query, houses: seq<Entry>, test: Entry -> Option<bool>)
    requires forall e :: test(e).None? <==> Breaks(q, e)
    requires forall e :: test(e).Some? ==> test(e).value == Admitter(q)(e)
    ensures Seqs.Filter(houses, test) ==
      if exists e :: e in houses && Breaks(q, e) then None else Some(Selected(q, houses))
  {
    if !exists e :: e in houses && Breaks(q, e) {
      Seqs.FilterIsSelect(houses, test, Admitter(q));
    }
  }

  /** The pipeline fails exactly when a filter throws or the array holds a `null`;
      otherwise it sends, in order, the three properties of every house the query admits. */
  lemma ProcessHouseDataSpec(q: Query, houses: seq<Entry>)
    ensures ProcessHouseData(q, houses).None? <==> Fails(q, houses)
    ensures ProcessHouseData(q, houses).Some? ==>
      var kept := Selected(q, houses);
      var sent := ProcessHouseData(q, houses).value.houses;
      && |sent| == |kept|
      && forall i :: 0 <= i < |kept| ==>
           sent[i].house == House(kept[i].record.price, kept[i].record.area, kept[i].record.furnishingstatus)
  {
    FilterHousesSpec(q, houses);
    if !AnyFilter(q) && Null !in houses {
      Seqs.SelectAll(houses, Admitter(q));
    }
  }

  /** With `furnished=true`, every house sent has a `furnishingstatus` of exactly the
      string `"furnished"`: `"semi-furnished"`, `"Furnished"` and non-strings are dropped. */
  lemma FurnishedOnlySendsFurnished(q: Query, houses: seq<Entry>)
    requires FurnishedOnly(q)
    ensures FilterHouses(q, houses).Some? ==>
      forall e :: e in FilterHouses(q, houses).value ==>
        e.Object? && e.record.furnishingstatus == Some(JString("furnished"))
  {
    FilterHousesSpec(q, houses);
  }

  /** With a non-empty `max_price`, every house kept has a price that reads as an integer
      no greater than `max_price` reads as; a price that reads as `NaN` is never kept. */
  lemma MaxPriceBoundsPrice(q: Query, houses: seq<Entry>)
    requires MaxPriceGiven(q)
    ensures FilterHouses(q, houses).Some? ==>
      forall e :: e in FilterHouses(q, houses).value ==>
        && e.Object?
        && Text(e.record.price).Some?
        && JsNumber.AtMost(JsNumber.ParseInt(Text(e.record.price).value), MaxPrice(q))
  {
    FilterHousesSpec(q, houses);
  }

  /** A `max_price` that reads as `NaN` (`"abc"`) leaves nothing: every comparison with
      `NaN` is false. */
  lemma UnreadableMaxPriceKeepsNothing(q: Query, houses: seq<Entry>)
    requires MaxPriceGiven(q) && MaxPrice(q).None?
    ensures FilterHouses(q, houses) ==
      if exists e :: e in houses && Breaks(q, e) then None else Some([])
  {
    FilterHousesSpec(q, houses);
    Seqs.SelectNone(houses, Admitter(q));
  }

  /** Only the constraints a query turns on matter: a `furnished` other than `"true"`
      is as good as none, an empty `max_price` is as good as none, two values of
      `max_price` that read as the same integer (or both as `NaN`) filter alike, and
      other parameters are ignored. */
  lemma SameConstraintsSameResult(q: Query, q': Query, houses: seq<Entry>)
    requires FurnishedOnly(q) == FurnishedOnly(q') && MaxPriceGiven(q) == MaxPriceGiven(q')
    requires MaxPriceGiven(q) ==> MaxPrice(q) == MaxPrice(q')
    ensures FilterHouses(q, houses) == FilterHouses(q', houses)
  {
  }

  /** Running the price filter before the furnishing filter would give the same result,
      throw or not, as long as every price in the array can be converted to a string. */
  lemma FilterOrderIrrelevant(q: Query, houses: seq<Entry>)
    requires FurnishedOnly(q) && MaxPriceGiven(q)
    requires forall e :: e in houses && e.Object? ==> Text(e.record.price).Some?
    ensures FilterHouses(q, houses) ==
      Seqs.AndThenFilter(Seqs.Filter(houses, PriceTest(MaxPrice(q))), FurnishedTest)
  {
    Seqs.FilterCommutes(houses, FurnishedTest, PriceTest(MaxPrice(q)));
  }

  /** With a price that cannot be converted the order does matter: the furnishing filter
      drops an unfurnished house before the price filter could throw on it. */
  lemma FilterOrderMattersForUnconvertiblePrice()
    ensures
      var q := map["furnished" := "true", "max_price" := "5"];
      var houses := [Object(Record(Some(JUnconvertible), Some(JString("1")), Some(JString("unfurnished")), map[]))];
      && FilterHouses(q, houses) == Some([])
      && Seqs.AndThenFilter(Seqs.Filter(houses, PriceTest(MaxPrice(q))), FurnishedTest).None?
  {
  }

  /** A house priced as a JSON number compares by its value: `String()` writes it and
      `parseInt` reads it back. */
  lemma NumericPriceComparesByValue(r: Record, n: int, limit: Option<int>)
    requires r.price == Some(JInteger(n))
    ensures PriceTest(limit)(Object(r)) == Some(limit.Some? && n <= limit.value)
  {
    JsNumber.ParseIntToDecimal(n);
  }

  /** A house without a price is never kept by the price filter. */
  lemma MissingPriceNeverKept(r: Record, limit: Option<int>)
    requires r.price.None?
    ensures PriceTest(limit)(Object(r)) == Some(false)
  {
  }

  // The two requests worked through by hand for a two-house example array.

  function SampleHouse(price: string, area: string, status: string): Entry
  {
    Object(Record(Some(JString(price)), Some(JString(area)), Some(JString(status)), map[]))
  }

  const Sample := [SampleHouse("13300000", "7420", "furnished"), SampleHouse("12250000", "8960", "unfurnished")]

  lemma SampleFurnished()
    ensures ProcessHouseData(map["furnished" := "true"], Sample) ==
      Some(Payload([Listing(House(Some(JString("13300000")), Some(JString("7420")), Some(JString("furnished"))))]))
  {
    var q := map["furnished" := "true"];
    assert FurnishedOnly(q) && !MaxPriceGiven(q);
    SampleSelects(q, true, false);
    ProcessHouseDataSpec(q, Sample);
    var sent := ProcessHouseData(q, Sample).value.houses;
    assert sent == [sent[0]];
  }

  lemma SampleMaxPrice()
    ensures ProcessHouseData(map["max_price" := "12250000"], Sample) ==
      Some(Payload([Listing(House(Some(JString("12250000")), Some(JString("8960")), Some(JString("unfurnished"))))]))
  {
    var q := map["max_price" := "12250000"];
    assert !FurnishedOnly(q) && MaxPriceGiven(q);
    SamplePrices();
    SampleSelects(q, false, true);
    ProcessHouseDataSpec(q, Sample);
    var sent := ProcessHouseData(q, Sample).value.houses;
    assert sent == [sent[0]];
  }

  lemma SamplePrices()
    ensures JsNumber.ParseInt("13300000") == Some(13300000)
    ensures JsNumber.ParseInt("12250000") == Some(12250000)
  {
    assert JsNumber.Decimal(1) == "1";
    assert JsNumber.Decimal(13) == "13";
    assert JsNumber.Decimal(133) == "133";
    assert JsNumber.Decimal(1330) == "1330";
    assert JsNumber.Decimal(13300) == "13300";
    assert JsNumber.Decimal(133000) == "133000";
    assert JsNumber.Decimal(1330000) == "1330000";
    assert JsNumber.Decimal(13300000) == "13300000";
    assert JsNumber.Decimal(12) == "12";
    assert JsNumber.Decimal(122) == "122";
    assert JsNumber.Decimal(1225) == "1225";
    assert JsNumber.Decimal(12250) == "12250";
    assert JsNumber.Decimal(122500) == "122500";
    assert JsNumber.Decimal(1225000) == "1225000";
    assert JsNumber.Decimal(12250000) == "12250000";
    JsNumber.ParseIntToDecimal(13300000);
    JsNumber.ParseIntToDecimal(12250000);
  }

  /** What the query keeps of the example array, given whether it admits each of its houses. */
  lemma SampleSelects(q: Query, first: bool, second: bool)
    requires Admitter(q)(Sample[0]) == first && Admitter(q)(Sample[1]) == second
    ensures Selected(q, Sample) == (if first then [Sample[0]] else []) + (if second then [Sample[1]] else [])
  {
    var tail := Sample[1..];
    assert tail == [Sample[1]] && tail[1..] == [];
    assert Seqs.Select(tail[1..], Admitter(q)) == [];
    assert Seqs.Select(tail, Admitter(q)) == if second then [Sample[1]] else [];
  }
}
