/** The /predict handler: encode the request, rescale the last two slots of
    the feature vector with the fitted scaler, ask the fitted model for a
    fare, and answer 400 when any of it raises. */
module PredictionHandler {
  import opened Wrappers
  import opened FeatureEncoder
  import EncoderProperties

  /** What made a request fail. */
  datatype Failure =
    | NotAnObject                   // the JSON body is not an object, so `data[key]` raises
    | EncodingFailed(cause: EncodeError)
    | ScalerFailed                  // `scaler.transform` raises
    | ModelFailed                   // `model.predict` raises
    | NoPrediction                  // `pred[0]` on an empty prediction

  /** The JSON answer: `{"fare": ...}` or `{"error": ...}`. */
  datatype Response = Fare(fare: real) | Error(failure: Failure) {
    function Status(): int {
      if Fare? then 200 else 400
    }
  }

  /** The fitted scaler and regression model, taken as given; `None` stands
      for an exception. The scaler works on the pair of slots it is handed. */
  datatype Fitted = Fitted(
    transform: (real, real) -> Option<(real, real)>,
    predict: seq<real> -> Option<seq<real>>)

  /** `X[:, -2:]`: the last two slots. */
  function LastTwo(x: seq<real>): (r: (real, real))
    requires |x| >= 2
    ensures x == x[..|x| - 2] + [r.0, r.1]
  {
    (x[|x| - 2], x[|x| - 1])
  }

  /** `X_scaled[:, -2:] = (a, b)` on a copy of `X`. */
  function SpliceLastTwo(x: seq<real>, a: real, b: real): (r: seq<real>)
    requires |x| >= 2
    ensures |r| == |x|
    ensures forall i :: 0 <= i < |x| - 2 ==> r[i] == x[i]
    ensures LastTwo(r) == (a, b)
  {
    x[..|x| - 2] + [a, b]
  }

  /** `X_scaled = X.copy(); X_scaled[:, -2:] = (a, b)`. */
  method CopyWithLastTwo(x: seq<real>, a: real, b: real) returns (r: seq<real>)
    requires |x| >= 2
    ensures r == SpliceLastTwo(x, a, b)
  {
    var n := |x|;
    var xs := new real[n](i requires 0 <= i < n => x[i]);
    xs[n - 2] := a;
    xs[n - 1] := b;
    r := xs[..];
  }

  /** The handler. */
  method Predict(body: Value, parse: Parsers, fitted: Fitted) returns (resp: Response)
    ensures !body.Obj? ==> resp == Error(NotAnObject)
    ensures body.Obj? && Encode(body.members, parse).Err? ==>
      resp == Error(EncodingFailed(Encode(body.members, parse).error))
    ensures body.Obj? && Encode(body.members, parse).Ok? ==>
      var x := Encode(body.members, parse).value;
      var scaled := fitted.transform(LastTwo(x).0, LastTwo(x).1);
      && (scaled.None? ==> resp == Error(ScalerFailed))
      && (scaled.Some? ==>
        var pred := fitted.predict(SpliceLastTwo(x, scaled.value.0, scaled.value.1));
        && (pred.None? ==> resp == Error(ModelFailed))
        && (pred.Some? && pred.value == [] ==> resp == Error(NoPrediction))
        && (pred.Some? && pred.value != [] ==> resp == Fare(pred.value[0])))
  {
    if !body.Obj? {
      return Error(NotAnObject);
    }
    var encoded := EncodeFeatures(body.members, parse);
    if encoded.Err? {
      return Error(EncodingFailed(encoded.error));
    }
    var x := encoded.value;
    var n := |x|;
    var scaled := fitted.transform(x[n - 2], x[n - 1]);
    if scaled.None? {
      return Error(ScalerFailed);
    }
    var xs := CopyWithLastTwo(x, scaled.value.0, scaled.value.1);
    var pred := fitted.predict(xs);
    if pred.None? {
      return Error(ModelFailed);
    }
    if pred.value == [] {
      return Error(NoPrediction);
    }
    return Fare(pred.value[0]);
  }

  /** The scaler is handed the Mumbai and Pune slots of the destination block,
      each 0 or 1, and not the duration and days_left of slots 4 and 5. */
  lemma ScalerSeesDestinationFlags(data: Request, parse: Parsers)
    requires Encode(data, parse).Ok?
    ensures Key(DestinationCity) in data
    ensures var x := Encode(data, parse).value;
      && LastTwo(x).0 == (if data[Key(DestinationCity)] == Str("Mumbai") then 1.0 else 0.0)
      && LastTwo(x).1 == (if data[Key(DestinationCity)] == Str("Pune") then 1.0 else 0.0)
  {
    EncoderProperties.CategoryBlock(data, parse, DestinationCity);
    var x := Encode(data, parse).value;
    assert x[35] == x[DestBlock..VectorLength][10];
    assert x[36] == x[DestBlock..VectorLength][11];
  }

  /** The vector the model sees keeps slots 0 to 34 of the encoding, so
      duration and days_left reach the model unscaled in slots 4 and 5. */
  lemma ModelInputKeepsDurationAndDaysLeft(data: Request, parse: Parsers, a: real, b: real)
    requires Encode(data, parse).Ok?
    ensures Key(Duration) in data && AsFloat(data[Key(Duration)], parse).Some?
    ensures Key(DaysLeft) in data && AsInt(data[Key(DaysLeft)], parse).Some?
    ensures var m := SpliceLastTwo(Encode(data, parse).value, a, b);
      && m[4] == AsFloat(data[Key(Duration)], parse).value
      && m[5] == AsInt(data[Key(DaysLeft)], parse).value as real
  {
    EncoderProperties.DurationSlot(data, parse);
    EncoderProperties.DaysLeftSlot(data, parse);
  }

  /** The model sees destination slots 25 to 34 as encoded: the one-hot
      pattern of the first ten cities. */
  lemma ModelInputKeepsOtherDestinations(data: Request, parse: Parsers, a: real, b: real)
    requires Encode(data, parse).Ok?
    ensures Key(DestinationCity) in data
    ensures SpliceLastTwo(Encode(data, parse).value, a, b)[DestBlock..VectorLength - 2]
      == OneHot(data[Key(DestinationCity)], DestCities[..10])
  {
    EncoderProperties.CategoryBlock(data, parse, DestinationCity);
    var x := Encode(data, parse).value;
    var m := SpliceLastTwo(x, a, b);
    assert m[DestBlock..VectorLength - 2] == x[DestBlock..VectorLength][..10];
  }
}
