/** What the feature encoder promises: when it fails and with which error,
    and what each slot of a successful encoding holds. */
module EncoderProperties {
  import opened Wrappers
  import opened FloatRange
  import opened FeatureEncoder

  // ---------------------------------------------------------------------------
  // Failure

  /** Every field is read by the encoder. */
  lemma FieldOrderComplete(f: Field)
    ensures f in FieldOrder
  {
    match f
    case DepartureTime => assert FieldOrder[0] == f;
    case Stops => assert FieldOrder[1] == f;
    case ArrivalTime => assert FieldOrder[2] == f;
    case Class => assert FieldOrder[3] == f;
    case Duration => assert FieldOrder[4] == f;
    case DaysLeft => assert FieldOrder[5] == f;
    case Day => assert FieldOrder[6] == f;
    case Airline => assert FieldOrder[7] == f;
    case SourceCity => assert FieldOrder[8] == f;
    case DestinationCity => assert FieldOrder[9] == f;
  }

  /** `ErrorFrom(k)` is the error of the first failing field at or after position `k`,
      and there is none exactly when no field from `k` on fails. */
  lemma {:induction false} ErrorFromIsFirst(data: Request, parse: Parsers, k: nat)
    ensures ErrorFrom(data, parse, k).None? <==>
      forall i :: k <= i < |FieldOrder| ==> FieldError(data, parse, FieldOrder[i]).None?
    ensures ErrorFrom(data, parse, k).Some? ==>
      exists i :: k <= i < |FieldOrder| && FieldError(data, parse, FieldOrder[i]) == ErrorFrom(data, parse, k)
        && forall j :: k <= j < i ==> FieldError(data, parse, FieldOrder[j]).None?
    decreases |FieldOrder| - k
  {
    if k < |FieldOrder| && FieldError(data, parse, FieldOrder[k]).None? {
      ErrorFromIsFirst(data, parse, k + 1);
      if ErrorFrom(data, parse, k).Some? {
        var i :| k + 1 <= i < |FieldOrder| && FieldError(data, parse, FieldOrder[i]) == ErrorFrom(data, parse, k + 1)
          && forall j :: k + 1 <= j < i ==> FieldError(data, parse, FieldOrder[j]).None?;
        assert forall j :: k <= j < i ==> FieldError(data, parse, FieldOrder[j]).None? by {
          forall j | k <= j < i
            ensures FieldError(data, parse, FieldOrder[j]).None?
          {
            if j > k {
              assert k + 1 <= j < i;
            }
          }
        }
      }
    }
  }

  /** What a request must give field `f` for the encoder to read it: the key,
      a name of the field's table for a coded field, and a value `float` or
      `int` accepts for duration and days_left. Any value of a one-hot field
      will do. */
  ghost predicate Accepted(data: Request, parse: Parsers, f: Field) {
    && Key(f) in data
    && (IsCoded(f) ==> data[Key(f)].Str? && data[Key(f)].s in Table(f))
    && (f == Duration ==> AsFloat(data[Key(f)], parse).Some?)
    && (f == DaysLeft ==> AsInt(data[Key(f)], parse).Some?)
  }

  /** A field raises no error exactly when the request gives it an accepted value. */
  lemma NoFieldErrorIff(data: Request, parse: Parsers, f: Field)
    ensures FieldError(data, parse, f).None? <==> Accepted(data, parse, f)
  {
  }

  /** Encoding succeeds exactly when every one of the ten fields is accepted. */
  lemma EncodeSucceedsIff(data: Request, parse: Parsers)
    ensures Encode(data, parse).Ok? <==> forall f: Field :: Accepted(data, parse, f)
  {
    ErrorFromIsFirst(data, parse, 0);
    if Encode(data, parse).Ok? {
      forall f: Field
        ensures Accepted(data, parse, f)
      {
        FieldOrderComplete(f);
        NoFieldErrorIff(data, parse, f);
      }
    } else {
      var i :| 0 <= i < |FieldOrder| && FieldError(data, parse, FieldOrder[i]).Some?;
      NoFieldErrorIff(data, parse, FieldOrder[i]);
    }
  }

  /** A successful encoding read an accepted value for every field. */
  lemma SucceededFieldAccepted(data: Request, parse: Parsers, f: Field)
    requires Encode(data, parse).Ok?
    ensures Accepted(data, parse, f)
  {
    EncodeSucceedsIff(data, parse);
  }

  /** A failed encoding reports the error of the first failing field in the
      order departure_time, stops, arrival_time, class, duration, days_left,
      day, airline, source_city, destination_city. */
  lemma EncodeReportsFirstError(data: Request, parse: Parsers)
    ensures Encode(data, parse).Err? ==>
      exists i :: 0 <= i < |FieldOrder| && FieldError(data, parse, FieldOrder[i]) == Some(Encode(data, parse).error)
        && forall j :: 0 <= j < i ==> FieldError(data, parse, FieldOrder[j]).None?
  {
    ErrorFromIsFirst(data, parse, 0);
  }

  /** A request missing `stops` whose departure time is valid fails with the
      missing-key error for `stops`, whatever else it holds. */
  lemma MissingStopsFails(data: Request, parse: Parsers)
    requires Key(DepartureTime) in data && InTable(data[Key(DepartureTime)], TimeMapping)
    requires Key(Stops) !in data
    ensures Encode(data, parse) == Err(MissingKey("stops"))
  {
  }

  /** An integer duration too large for a float64 makes `float` raise, so a
      request whose earlier fields are valid fails on `duration`. */
  lemma HugeDurationFails(data: Request, parse: Parsers, n: int)
    requires forall k :: 0 <= k < 4 ==> Accepted(data, parse, FieldOrder[k])
    requires Key(Duration) in data && data[Key(Duration)] == Int(n)
    requires n <= -FloatOverflow || FloatOverflow <= n
    ensures Encode(data, parse) == Err(NotCoercible("duration", Int(n)))
  {
    forall k | 0 <= k < 4
      ensures FieldError(data, parse, FieldOrder[k]).None?
    {
      NoFieldErrorIff(data, parse, FieldOrder[k]);
    }
  }

  /** A decimal days_left beyond the float64 range reads as infinity, and
      `int` raises on it, so a request whose earlier fields are valid fails
      on `days_left`. */
  lemma HugeDaysLeftFails(data: Request, parse: Parsers, x: real)
    requires forall k :: 0 <= k < 5 ==> Accepted(data, parse, FieldOrder[k])
    requires Key(DaysLeft) in data && data[Key(DaysLeft)] == Num(x)
    requires x <= -(FloatOverflow as real) || FloatOverflow as real <= x
    ensures Encode(data, parse) == Err(NotCoercible("days_left", Num(x)))
  {
    forall k | 0 <= k < 5
      ensures FieldError(data, parse, FieldOrder[k]).None?
    {
      NoFieldErrorIff(data, parse, FieldOrder[k]);
    }
  }

  /** On a JSON number or boolean that both `int` and `float` accept, `int(v)`
      is `int(float(v))`: truncation toward zero of the float value. */
  lemma IntIsTruncatedFloat(v: Value, parse: Parsers)
    requires v.Bool? || v.Int? || v.Num?
    requires AsInt(v, parse).Some? && AsFloat(v, parse).Some?
    ensures AsInt(v, parse).value == Truncate(AsFloat(v, parse).value)
    ensures v.Int? || v.Bool? ==> AsFloat(v, parse).value == AsInt(v, parse).value as real
  {
  }

  /** The field a key names, if any: the inverse of `Key`. */
  function FieldOf(key: string): (r: Option<Field>)
    ensures r.Some? ==> Key(r.value) == key
  {
    if key == "departure_time" then Some(DepartureTime)
    else if key == "stops" then Some(Stops)
    else if key == "arrival_time" then Some(ArrivalTime)
    else if key == "class" then Some(Class)
    else if key == "duration" then Some(Duration)
    else if key == "days_left" then Some(DaysLeft)
    else if key == "day" then Some(Day)
    else if key == "airline" then Some(Airline)
    else if key == "source_city" then Some(SourceCity)
    else if key == "destination_city" then Some(DestinationCity)
    else None
  }

  /** Every field's key leads back to the field. */
  lemma FieldOfKey(f: Field)
    ensures FieldOf(Key(f)) == Some(f)
  {
    match f
    case DepartureTime =>
    case Stops =>
    case ArrivalTime =>
    case Class =>
    case Duration =>
    case DaysLeft =>
    case Day =>
    case Airline =>
    case SourceCity =>
    case DestinationCity =>
  }

  /** Different fields have different keys. */
  lemma KeysDistinct(f: Field, g: Field)
    requires f != g
    ensures Key(f) != Key(g)
  {
    FieldOfKey(f);
    FieldOfKey(g);
  }

  /** The value of a one-hot field never decides success: replacing it keeps
      a successful encoding successful. */
  lemma CategoryValueIsNeverAnError(data: Request, parse: Parsers, f: Field, v: Value)
    requires IsCategory(f)
    requires Encode(data, parse).Ok?
    ensures Encode(data[Key(f) := v], parse).Ok?
  {
    var data' := data[Key(f) := v];
    EncodeSucceedsIff(data', parse);
    forall g: Field
      ensures Accepted(data', parse, g)
    {
      SucceededFieldAccepted(data, parse, g);
      if g != f {
        KeysDistinct(f, g);
      }
    }
  }

  // ---------------------------------------------------------------------------
  // The ordinal block

  /** The names of each table listed by code. */
  const TimeNames: seq<string> := ["Early_Morning", "Morning", "Afternoon", "Evening", "Night", "Late_Night"]
  const StopsNames: seq<string> := ["zero", "one", "two_or_more"]
  const ClassNames: seq<string> := ["Economy", "Business"]
  const DayNames: seq<string> := ["Monday", "Tuesday", "Wednesday", "Thursday", "Friday", "Saturday", "Sunday"]

  function Labels(f: Field): seq<string>
    requires IsCoded(f)
  {
    match f
    case DepartureTime | ArrivalTime => TimeNames
    case Stops => StopsNames
    case Class => ClassNames
    case Day => DayNames
  }

  /** Every name of `table` has a code `c` with `names[c]` the name again. */
  ghost predicate Decodes(table: map<string, int>, names: seq<string>) {
    forall name :: name in table ==> 0 <= table[name] < |names| && names[table[name]] == name
  }

  /** Every entry of `names` is in `table` with its position as code. */
  ghost predicate Encodes(table: map<string, int>, names: seq<string>) {
    forall i :: 0 <= i < |names| ==> names[i] in table && table[names[i]] == i
  }

  lemma TimeMappingNumbersTimeNames()
    ensures Decodes(TimeMapping, TimeNames) && Encodes(TimeMapping, TimeNames)
  {
  }

  lemma StopsMappingNumbersStopsNames()
    ensures Decodes(StopsMapping, StopsNames) && Encodes(StopsMapping, StopsNames)
  {
  }

  lemma ClassMappingNumbersClassNames()
    ensures Decodes(ClassMapping, ClassNames) && Encodes(ClassMapping, ClassNames)
  {
  }

  lemma DayMappingNumbersDayNames()
    ensures Decodes(DayMapping, DayNames) && Encodes(DayMapping, DayNames)
  {
  }

  /** The table of every coded field numbers its label list 0, 1, 2, ... in order. */
  lemma TableNumbering(f: Field)
    requires IsCoded(f)
    ensures Decodes(Table(f), Labels(f)) && Encodes(Table(f), Labels(f))
  {
    match f
    case DepartureTime => TimeMappingNumbersTimeNames();
    case ArrivalTime => TimeMappingNumbersTimeNames();
    case Stops => StopsMappingNumbersStopsNames();
    case Class => ClassMappingNumbersClassNames();
    case Day => DayMappingNumbersDayNames();
  }

  /** A table that decodes is injective: no two names share a code. */
  lemma {:induction false} DecodingTableInjective(table: map<string, int>, names: seq<string>, a: string, b: string)
    requires Decodes(table, names)
    requires a in table && b in table && table[a] == table[b]
    ensures a == b
  {
    assert names[table[a]] == a && names[table[b]] == b;
  }

  /** Slot `i` of a successful encoding, for `i` below 7, is what ordinal field `i` contributes. */
  lemma OrdinalSlot(data: Request, parse: Parsers, i: nat)
    requires Encode(data, parse).Ok? && i < AirlineBlock
    ensures Encode(data, parse).value[i] == OrdinalValue(data, parse, OrdinalFields[i])
  {
    assert Encode(data, parse).value[i] == Slot(data, parse, i);
  }

  /** A coded slot (departure_time, stops, arrival_time, class, day at slots
      0, 1, 2, 3, 6) holds the table code of the given name, a number from 0
      to the table size less one. */
  lemma CodedSlot(data: Request, parse: Parsers, i: nat)
    requires Encode(data, parse).Ok? && i < AirlineBlock && IsCoded(OrdinalFields[i])
    ensures var f := OrdinalFields[i];
      && Key(f) in data && InTable(data[Key(f)], Table(f))
      && Encode(data, parse).value[i] == Table(f)[data[Key(f)].s] as real
      && 0.0 <= Encode(data, parse).value[i] < |Labels(f)| as real
      && Labels(f)[Encode(data, parse).value[i].Floor] == data[Key(f)].s
  {
    var f := OrdinalFields[i];
    SucceededFieldAccepted(data, parse, f);
    OrdinalSlot(data, parse, i);
    TableNumbering(f);
  }

  /** Slot 4 holds `float(data["duration"])`. */
  lemma DurationSlot(data: Request, parse: Parsers)
    requires Encode(data, parse).Ok?
    ensures Key(Duration) in data && AsFloat(data[Key(Duration)], parse).Some?
    ensures Encode(data, parse).value[4] == AsFloat(data[Key(Duration)], parse).value
  {
    SucceededFieldAccepted(data, parse, Duration);
    OrdinalSlot(data, parse, 4);
  }

  /** Slot 5 holds `int(data["days_left"])`, a whole number. */
  lemma DaysLeftSlot(data: Request, parse: Parsers)
    requires Encode(data, parse).Ok?
    ensures Key(DaysLeft) in data && AsInt(data[Key(DaysLeft)], parse).Some?
    ensures Encode(data, parse).value[5] == AsInt(data[Key(DaysLeft)], parse).value as real
  {
    SucceededFieldAccepted(data, parse, DaysLeft);
    OrdinalSlot(data, parse, 5);
  }

  /** The coded slots of two successful encodings agree exactly when the two
      requests give that field the same name. */
  lemma CodedSlotsDetermineNames(d1: Request, d2: Request, parse: Parsers, i: nat)
    requires Encode(d1, parse).Ok? && Encode(d2, parse).Ok?
    requires i < AirlineBlock && IsCoded(OrdinalFields[i])
    ensures Encode(d1, parse).value[i] == Encode(d2, parse).value[i] <==>
      d1[Key(OrdinalFields[i])] == d2[Key(OrdinalFields[i])]
  {
    var f := OrdinalFields[i];
    CodedSlot(d1, parse, i);
    CodedSlot(d2, parse, i);
    TableNumbering(f);
    if Encode(d1, parse).value[i] == Encode(d2, parse).value[i] {
      DecodingTableInjective(Table(f), Labels(f), d1[Key(f)].s, d2[Key(f)].s);
    }
  }

  // ---------------------------------------------------------------------------
  // The one-hot blocks

  /** The block of a category field in a successful encoding is the one-hot
      encoding of the value the request gives it. */
  lemma CategoryBlock(data: Request, parse: Parsers, f: Field)
    requires Encode(data, parse).Ok? && IsCategory(f)
    ensures Key(f) in data && BlockStart(f) + |Names(f)| <= VectorLength
    ensures Encode(data, parse).value[BlockStart(f)..BlockStart(f) + |Names(f)|] == OneHot(data[Key(f)], Names(f))
  {
    SucceededFieldAccepted(data, parse, f);
    LayoutBlock(data, parse, f);
  }

  ghost predicate Distinct(names: seq<string>) {
    forall i, j :: 0 <= i < j < |names| ==> names[i] != names[j]
  }

  /** No airline is listed twice. */
  lemma AirlinesDistinct()
    ensures Distinct(Airlines)
  {
  }

  /** No city is listed twice, and both blocks list the same cities in the same order. */
  lemma CitiesDistinct()
    ensures Distinct(SourceCities) && SourceCities == DestCities
  {
  }

  /** The name lists of all three category fields are free of repeats. */
  lemma NamesDistinct(f: Field)
    requires IsCategory(f)
    ensures Distinct(Names(f))
  {
    if f.Airline? { AirlinesDistinct(); } else { CitiesDistinct(); }
  }

  /** A one-hot block holds only 0 and 1, and slot `i` is 1 exactly when the
      value is the string `names[i]`. */
  lemma OneHotIndicates(v: Value, names: seq<string>)
    ensures |OneHot(v, names)| == |names|
    ensures forall i :: 0 <= i < |names| ==> OneHot(v, names)[i] == 0.0 || OneHot(v, names)[i] == 1.0
    ensures forall i :: 0 <= i < |names| ==> (OneHot(v, names)[i] == 1.0 <==> v == Str(names[i]))
  {
  }

  /** Over distinct names at most one slot is lit. */
  lemma OneHotAtMostOne(v: Value, names: seq<string>)
    requires Distinct(names)
    ensures forall i, j ::
      0 <= i < |names| && 0 <= j < |names| && OneHot(v, names)[i] == 1.0 && OneHot(v, names)[j] == 1.0 ==> i == j
  {
  }

  /** A value that is none of the names lights no slot: it is not an error. */
  lemma OneHotUnknownIsZero(v: Value, names: seq<string>)
    requires !(v.Str? && v.s in names)
    ensures forall i :: 0 <= i < |names| ==> OneHot(v, names)[i] == 0.0
  {
  }

  function Sum(s: seq<real>): real {
    if s == [] then 0.0 else s[0] + Sum(s[1..])
  }

  /** A one-hot block over distinct names adds up to 1 for a known name and
      to 0 otherwise. */
  lemma {:induction false} OneHotSum(v: Value, names: seq<string>)
    requires Distinct(names)
    ensures Sum(OneHot(v, names)) == if v.Str? && v.s in names then 1.0 else 0.0
  {
    if names != [] {
      var r := OneHot(v, names);
      assert r[1..] == OneHot(v, names[1..]);
      assert Distinct(names[1..]);
      OneHotSum(v, names[1..]);
      assert v.Str? && v.s in names <==> v == Str(names[0]) || (v.Str? && v.s in names[1..]);
      if v == Str(names[0]) {
        assert names[0] !in names[1..];
      }
    }
  }

  /** Each category block of a successful encoding adds up to 1 when the
      value is one of its names and to 0 otherwise. */
  lemma CategoryBlockSum(data: Request, parse: Parsers, f: Field)
    requires Encode(data, parse).Ok? && IsCategory(f)
    ensures Key(f) in data && BlockStart(f) + |Names(f)| <= VectorLength
    ensures var block := Encode(data, parse).value[BlockStart(f)..BlockStart(f) + |Names(f)|];
      Sum(block) == if data[Key(f)].Str? && data[Key(f)].s in Names(f) then 1.0 else 0.0
  {
    CategoryBlock(data, parse, f);
    NamesDistinct(f);
    OneHotSum(data[Key(f)], Names(f));
  }

  /** "Indigo" lights airline slot 3. */
  lemma IndigoIsAirlineThree()
    ensures OneHot(Str("Indigo"), Airlines) == [0.0, 0.0, 0.0, 1.0, 0.0, 0.0]
  {
  }

  /** The source and destination lists are the same, so one city gives the
      same 12-slot pattern in both blocks. */
  lemma SameCitySamePattern(data: Request, parse: Parsers)
    requires Encode(data, parse).Ok?
    requires data[Key(SourceCity)] == data[Key(DestinationCity)]
    ensures Encode(data, parse).value[SourceBlock..DestBlock] == Encode(data, parse).value[DestBlock..VectorLength]
  {
    CategoryBlock(data, parse, SourceCity);
    CategoryBlock(data, parse, DestinationCity);
    CitiesDistinct();
  }

  /** An airline outside the list is encoded, with an all-zero airline block. */
  lemma UnknownAirlineIsZeroBlock(data: Request, parse: Parsers)
    requires Encode(data, parse).Ok?
    requires !(data[Key(Airline)].Str? && data[Key(Airline)].s in Airlines)
    ensures forall i :: AirlineBlock <= i < SourceBlock ==> Encode(data, parse).value[i] == 0.0
  {
    CategoryBlock(data, parse, Airline);
    OneHotUnknownIsZero(data[Key(Airline)], Airlines);
    var v := Encode(data, parse).value;
    forall i | AirlineBlock <= i < SourceBlock
      ensures v[i] == 0.0
    {
      assert v[i] == v[AirlineBlock..SourceBlock][i - AirlineBlock];
    }
  }
}
