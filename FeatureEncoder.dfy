/** The itinerary feature encoder of the flight fare service: it turns a JSON
    request into the fixed 37-slot vector the trained model expects, or fails
    with the error the first bad field raises. */
module FeatureEncoder {
  import opened Wrappers
  import opened FloatRange

  /** A JSON value as the request body delivers it. */
  datatype Value =
    | Null
    | Bool(b: bool)
    | Int(i: int)
    | Num(x: real)
    | Str(s: string)
    | Arr(items: seq<Value>)
    | Obj(members: map<string, Value>)

  /** The decoded JSON object of a /predict request. */
  type Request = map<string, Value>

  /** The string parsing done by Python's `float(str)` and `int(str)`, taken as given. */
  datatype Parsers = Parsers(parseFloat: string -> Option<real>, parseInt: string -> Option<int>)

  /** The exceptions the encoder can raise, with the key whose value caused them. */
  datatype EncodeError =
    | MissingKey(key: string)                  // `data[key]` on an absent key
    | UnknownCode(key: string, value: Value)   // a mapping table does not hold the value
    | NotCoercible(key: string, value: Value)  // `float(value)` or `int(value)` raises

  // ---------------------------------------------------------------------------
  // The fixed tables and name lists

  const TimeMapping: map<string, int> :=
    map["Early_Morning" := 0, "Morning" := 1, "Afternoon" := 2,
        "Evening" := 3, "Night" := 4, "Late_Night" := 5]

  const DayMapping: map<string, int> :=
    map["Monday" := 0, "Tuesday" := 1, "Wednesday" := 2, "Thursday" := 3,
        "Friday" := 4, "Saturday" := 5, "Sunday" := 6]

  const StopsMapping: map<string, int> := map["zero" := 0, "one" := 1, "two_or_more" := 2]

  const ClassMapping: map<string, int> := map["Economy" := 0, "Business" := 1]

  const Airlines: seq<string> := ["AirAsia", "Air_India", "GO_FIRST", "Indigo", "SpiceJet", "Vistara"]

  const SourceCities: seq<string> :=
    ["Ahmedabad", "Bangalore", "Chandigarh", "Chennai", "Coimbatore",
     "Delhi", "Hyderabad", "Jaipur", "Kolkata", "Lucknow", "Mumbai", "Pune"]

  const DestCities: seq<string> :=
    ["Ahmedabad", "Bangalore", "Chandigarh", "Chennai", "Coimbatore",
     "Delhi", "Hyderabad", "Jaipur", "Kolkata", "Lucknow", "Mumbai", "Pune"]

  /** Length of the feature vector and the first slot of each one-hot block. */
  const VectorLength := 37
  const AirlineBlock := 7
  const SourceBlock := 13
  const DestBlock := 25

  // ---------------------------------------------------------------------------
  // The request fields

  datatype Field =
    | DepartureTime | Stops | ArrivalTime | Class | Duration | DaysLeft | Day
    | Airline | SourceCity | DestinationCity

  function Key(f: Field): string {
    match f
    case DepartureTime => "departure_time"
    case Stops => "stops"
    case ArrivalTime => "arrival_time"
    case Class => "class"
    case Duration => "duration"
    case DaysLeft => "days_left"
    case Day => "day"
    case Airline => "airline"
    case SourceCity => "source_city"
    case DestinationCity => "destination_city"
  }

  /** The order in which the encoder reads the fields. */
  const FieldOrder: seq<Field> :=
    [DepartureTime, Stops, ArrivalTime, Class, Duration, DaysLeft, Day,
     Airline, SourceCity, DestinationCity]

  /** The fields of the ordinal block, slot by slot. */
  const OrdinalFields: seq<Field> := [DepartureTime, Stops, ArrivalTime, Class, Duration, DaysLeft, Day]

  /** Fields coded through a mapping table. */
  predicate IsCoded(f: Field) {
    f.DepartureTime? || f.Stops? || f.ArrivalTime? || f.Class? || f.Day?
  }

  function Table(f: Field): map<string, int>
    requires IsCoded(f)
  {
    match f
    case DepartureTime | ArrivalTime => TimeMapping
    case Stops => StopsMapping
    case Class => ClassMapping
    case Day => DayMapping
  }

  /** Fields encoded one-hot against a name list. */
  predicate IsCategory(f: Field) {
    f.Airline? || f.SourceCity? || f.DestinationCity?
  }

  function Names(f: Field): seq<string>
    requires IsCategory(f)
  {
    match f
    case Airline => Airlines
    case SourceCity => SourceCities
    case DestinationCity => DestCities
  }

  // ---------------------------------------------------------------------------
  // The Python operations the encoder performs

  /** `data[key]`. */
  function Get(data: Request, key: string): Result<Value, EncodeError> {
    if key in data then Ok(data[key]) else Err(MissingKey(key))
  }

  /** True when `table[v]` finds an entry: only a string key can. */
  predicate InTable(v: Value, table: map<string, int>) {
    v.Str? && v.s in table
  }

  /** `table[data[key]]`. */
  function Code(table: map<string, int>, data: Request, key: string): Result<int, EncodeError> {
    var v :- Get(data, key);
    if InTable(v, table) then Ok(table[v.s]) else Err(UnknownCode(key, v))
  }

  /** Python's `int(x)` on a float: truncation toward zero. */
  function Truncate(x: real): (n: int)
    ensures 0.0 <= x ==> n as real <= x < n as real + 1.0
    ensures x < 0.0 ==> n as real - 1.0 < x <= n as real
  {
    if 0.0 <= x then x.Floor else -((-x).Floor)
  }

  /** Python's `float(v)` on a JSON value. Python's JSON reader keeps an
      integer literal exact, so a huge one makes `float` raise; a decimal
      literal beyond the range reads as infinity, which `float` accepts. */
  function AsFloat(v: Value, parse: Parsers): Option<real>
  {
    match v
    case Bool(b) => Some(if b then 1.0 else 0.0)
    case Int(i) => if FiniteFloat(i as real) then Some(i as real) else None
    case Num(x) => Some(x)
    case Str(s) => parse.parseFloat(s)
    case _ => None
  }

  /** Python's `int(v)` on a JSON value. A decimal literal beyond the float64
      range reads as infinity, on which `int` raises `OverflowError`. */
  function AsInt(v: Value, parse: Parsers): Option<int>
  {
    match v
    case Bool(b) => Some(if b then 1 else 0)
    case Int(i) => Some(i)
    case Num(x) => if FiniteFloat(x) then Some(Truncate(x)) else None
    case Str(s) => parse.parseInt(s)
    case _ => None
  }

  /** `float(data[key])`. */
  function Float(data: Request, key: string, parse: Parsers): Result<real, EncodeError> {
    var v :- Get(data, key);
    match AsFloat(v, parse)
    case Some(x) => Ok(x)
    case None => Err(NotCoercible(key, v))
  }

  /** `int(data[key])`. */
  function Integer(data: Request, key: string, parse: Parsers): Result<int, EncodeError> {
    var v :- Get(data, key);
    match AsInt(v, parse)
    case Some(n) => Ok(n)
    case None => Err(NotCoercible(key, v))
  }

  /** `[int(v == a) for a in names]`. */
  function OneHot(v: Value, names: seq<string>): seq<real> {
    seq(|names|, i requires 0 <= i < |names| => if v == Str(names[i]) then 1.0 else 0.0)
  }

  // ---------------------------------------------------------------------------
  // The encoder

  /** The encoder proper: seven appends, then three one-hot extensions; the
      first failing step ends it with that step's error. */
  method EncodeFeatures(data: Request, parse: Parsers) returns (r: Result<seq<real>, EncodeError>)
    ensures r == Encode(data, parse)
  {
    var features: seq<real> := [];

    var departure := Code(TimeMapping, data, Key(DepartureTime));
    CodeStep(data, parse, features, 0, DepartureTime, departure);
    if departure.Err? { return Err(departure.error); }
    features := features + [departure.value as real];
    var stops := Code(StopsMapping, data, Key(Stops));
    CodeStep(data, parse, features, 1, Stops, stops);
    if stops.Err? { return Err(stops.error); }
    features := features + [stops.value as real];
    var arrival := Code(TimeMapping, data, Key(ArrivalTime));
    CodeStep(data, parse, features, 2, ArrivalTime, arrival);
    if arrival.Err? { return Err(arrival.error); }
    features := features + [arrival.value as real];
    var travelClass := Code(ClassMapping, data, Key(Class));
    CodeStep(data, parse, features, 3, Class, travelClass);
    if travelClass.Err? { return Err(travelClass.error); }
    features := features + [travelClass.value as real];
    var duration := Float(data, Key(Duration), parse);
    FloatStep(data, parse, features, duration);
    if duration.Err? { return Err(duration.error); }
    features := features + [duration.value];
    var daysLeft := Integer(data, Key(DaysLeft), parse);
    IntegerStep(data, parse, features, daysLeft);
    if daysLeft.Err? { return Err(daysLeft.error); }
    features := features + [daysLeft.value as real];
    var day := Code(DayMapping, data, Key(Day));
    CodeStep(data, parse, features, 6, Day, day);
    if day.Err? { return Err(day.error); }
    features := features + [day.value as real];

    var airline := Get(data, Key(Airline));
    GetStep(data, parse, features, 7, Airline, airline);
    if airline.Err? { return Err(airline.error); }
    features := features + OneHot(airline.value, Airlines);
    var source := Get(data, Key(SourceCity));
    GetStep(data, parse, features, 8, SourceCity, source);
    if source.Err? { return Err(source.error); }
    features := features + OneHot(source.value, SourceCities);
    var destination := Get(data, Key(DestinationCity));
    GetStep(data, parse, features, 9, DestinationCity, destination);
    if destination.Err? { return Err(destination.error); }
    features := features + OneHot(destination.value, DestCities);

    assert features == Layout(data, parse);
    return Ok(features);
  }

  /** Step `k` of the encoder, reading coded field `f` through its table:
      `table[data[key]]` either raises the error the encoding reports, or
      yields the number of slot `k`. */
  lemma CodeStep(data: Request, parse: Parsers, features: seq<real>, k: nat, f: Field, c: Result<int, EncodeError>)
    requires k < AirlineBlock && OrdinalFields[k] == f && IsCoded(f)
    requires c == Code(Table(f), data, Key(f))
    requires ErrorFrom(data, parse, 0) == ErrorFrom(data, parse, k) && features == Layout(data, parse)[..k]
    ensures c.Err? ==> Encode(data, parse) == Err(c.error)
    ensures c.Ok? ==> ErrorFrom(data, parse, 0) == ErrorFrom(data, parse, k + 1)
    ensures c.Ok? ==> features + [c.value as real] == Layout(data, parse)[..k + 1]
  {
    AppendOrdinal(data, parse, features, k, f);
  }

  /** Step 4 of the encoder: `float(data["duration"])`. */
  lemma FloatStep(data: Request, parse: Parsers, features: seq<real>, c: Result<real, EncodeError>)
    requires c == Float(data, Key(Duration), parse)
    requires ErrorFrom(data, parse, 0) == ErrorFrom(data, parse, 4) && features == Layout(data, parse)[..4]
    ensures c.Err? ==> Encode(data, parse) == Err(c.error)
    ensures c.Ok? ==> ErrorFrom(data, parse, 0) == ErrorFrom(data, parse, 5)
    ensures c.Ok? ==> features + [c.value] == Layout(data, parse)[..5]
  {
    AppendOrdinal(data, parse, features, 4, Duration);
  }

  /** Step 5 of the encoder: `int(data["days_left"])`. */
  lemma IntegerStep(data: Request, parse: Parsers, features: seq<real>, c: Result<int, EncodeError>)
    requires c == Integer(data, Key(DaysLeft), parse)
    requires ErrorFrom(data, parse, 0) == ErrorFrom(data, parse, 5) && features == Layout(data, parse)[..5]
    ensures c.Err? ==> Encode(data, parse) == Err(c.error)
    ensures c.Ok? ==> ErrorFrom(data, parse, 0) == ErrorFrom(data, parse, 6)
    ensures c.Ok? ==> features + [c.value as real] == Layout(data, parse)[..6]
  {
    AppendOrdinal(data, parse, features, 5, DaysLeft);
  }

  /** Step `k` of the encoder for category field `f`: `data[key]`, then its one-hot block. */
  lemma GetStep(data: Request, parse: Parsers, features: seq<real>, k: nat, f: Field, c: Result<Value, EncodeError>)
    requires AirlineBlock <= k < |FieldOrder| && FieldOrder[k] == f && IsCategory(f)
    requires c == Get(data, Key(f))
    requires ErrorFrom(data, parse, 0) == ErrorFrom(data, parse, k) && features == Layout(data, parse)[..BlockStart(f)]
    ensures BlockStart(f) + |Names(f)| <= VectorLength
    ensures c.Err? ==> Encode(data, parse) == Err(c.error)
    ensures c.Ok? ==> ErrorFrom(data, parse, 0) == ErrorFrom(data, parse, k + 1)
    ensures c.Ok? ==> features + OneHot(c.value, Names(f)) == Layout(data, parse)[..BlockStart(f) + |Names(f)|]
  {
    AppendCategory(data, parse, features, f);
  }

  // ---------------------------------------------------------------------------
  // The specification: which field fails, and what each slot holds

  /** The error reading field `f` raises, if any. */
  function FieldError(data: Request, parse: Parsers, f: Field): Option<EncodeError> {
    var key := Key(f);
    if key !in data then Some(MissingKey(key))
    else if IsCoded(f) && !InTable(data[key], Table(f)) then Some(UnknownCode(key, data[key]))
    else if f == Duration && AsFloat(data[key], parse).None? then Some(NotCoercible(key, data[key]))
    else if f == DaysLeft && AsInt(data[key], parse).None? then Some(NotCoercible(key, data[key]))
    else None
  }

  /** The error of the first field that fails, in reading order from position `k` on. */
  function ErrorFrom(data: Request, parse: Parsers, k: nat): Option<EncodeError>
    decreases |FieldOrder| - k
  {
    if k >= |FieldOrder| then None
    else if FieldError(data, parse, FieldOrder[k]).Some? then FieldError(data, parse, FieldOrder[k])
    else ErrorFrom(data, parse, k + 1)
  }

  /** The value the request gives field `f`, `Null` when the key is absent. */
  function Given(data: Request, f: Field): Value {
    if Key(f) in data then data[Key(f)] else Null
  }

  /** The number an ordinal field contributes; meaningful once the field does not fail. */
  function OrdinalValue(data: Request, parse: Parsers, f: Field): real {
    var v := Given(data, f);
    if IsCoded(f) then
      (if InTable(v, Table(f)) then Table(f)[v.s] as real else 0.0)
    else if f == Duration then
      (match AsFloat(v, parse) case Some(x) => x case None => 0.0)
    else if f == DaysLeft then
      (match AsInt(v, parse) case Some(n) => n as real case None => 0.0)
    else 0.0
  }

  /** Whether slot `k` of the block of category field `f` is lit. */
  function Indicator(data: Request, f: Field, k: int): real
    requires IsCategory(f) && 0 <= k < |Names(f)|
  {
    if Given(data, f) == Str(Names(f)[k]) then 1.0 else 0.0
  }

  /** What slot `i` of the feature vector holds. */
  function Slot(data: Request, parse: Parsers, i: int): real
    requires 0 <= i < VectorLength
  {
    if i < AirlineBlock then OrdinalValue(data, parse, OrdinalFields[i])
    else if i < SourceBlock then Indicator(data, Airline, i - AirlineBlock)
    else if i < DestBlock then Indicator(data, SourceCity, i - SourceBlock)
    else Indicator(data, DestinationCity, i - DestBlock)
  }

  /** The 37 slots of a request. */
  function Layout(data: Request, parse: Parsers): seq<real> {
    seq(VectorLength, i requires 0 <= i < VectorLength => Slot(data, parse, i))
  }

  /** The encoding of a request: the first field error in reading order, or
      the 37 slots. */
  function Encode(data: Request, parse: Parsers): (r: Result<seq<real>, EncodeError>)
    ensures r.Ok? ==> |r.value| == VectorLength
  {
    match ErrorFrom(data, parse, 0)
    case Some(e) => Err(e)
    case None => Ok(Layout(data, parse))
  }

  /** The first slot of the one-hot block of a category field. */
  function BlockStart(f: Field): int
    requires IsCategory(f)
  {
    match f
    case Airline => AirlineBlock
    case SourceCity => SourceBlock
    case DestinationCity => DestBlock
  }

  /** Appending ordinal slot `k` to the first `k` slots of the layout. */
  lemma AppendOrdinal(data: Request, parse: Parsers, features: seq<real>, k: nat, f: Field)
    requires k < AirlineBlock && OrdinalFields[k] == f && features == Layout(data, parse)[..k]
    ensures features + [OrdinalValue(data, parse, f)] == Layout(data, parse)[..k + 1]
  {
    var v := Layout(data, parse);
    assert v[..k + 1] == v[..k] + [v[k]];
  }

  /** Appending the one-hot block of category field `f` to the slots before it. */
  lemma AppendCategory(data: Request, parse: Parsers, features: seq<real>, f: Field)
    requires IsCategory(f) && features == Layout(data, parse)[..BlockStart(f)]
    ensures BlockStart(f) + |Names(f)| <= VectorLength
    ensures features + OneHot(Given(data, f), Names(f)) == Layout(data, parse)[..BlockStart(f) + |Names(f)|]
  {
    var v := Layout(data, parse);
    var start := BlockStart(f);
    var end := start + |Names(f)|;
    LayoutBlock(data, parse, f);
    assert v[..end] == v[..start] + v[start..end];
  }

  /** The block of category field `f` in the layout is the one-hot encoding of its value. */
  lemma LayoutBlock(data: Request, parse: Parsers, f: Field)
    requires IsCategory(f)
    ensures BlockStart(f) + |Names(f)| <= VectorLength
    ensures Layout(data, parse)[BlockStart(f)..BlockStart(f) + |Names(f)|] == OneHot(Given(data, f), Names(f))
  {
    var v := Layout(data, parse);
    var start := BlockStart(f);
    var names := Names(f);
    forall k | 0 <= k < |names|
      ensures v[start..start + |names|][k] == OneHot(Given(data, f), names)[k]
    {
      assert v[start + k] == Slot(data, parse, start + k);
      assert v[start + k] == Indicator(data, f, k);
    }
  }
}
