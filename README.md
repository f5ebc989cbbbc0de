# Flight fare prediction backend — a verified model of its core

The service answers `POST /predict` with a fare estimated by a pre-trained
regression model. Its core is the feature encoder `encode_features` with its
four mapping tables, and the `/predict` handler around it. The handler does
three things:

- it encodes the JSON itinerary into the fixed 37-slot vector the model was
  trained on;
- it rescales the last two slots with the fitted scaler;
- it asks the model for a fare, and any exception becomes an HTTP 400 answer.

The model has three modules plus two small ones: `Wrappers` (`Option`, and a
`Result` that `:-` can propagate) and `FloatRange`, the float64 overflow
threshold that Python's `float` and `int` conversions hit.

- `FeatureEncoder`:
  - the request as a map from keys to JSON values;
  - the tables, the name lists and the Python operations the encoder performs:
    `table[data[key]]`, `float(v)`, `int(v)` with truncation toward zero, and
    `[int(v == a) for a in names]`;
  - the encoder itself, an imperative method that grows the feature list
    append by append and stops at the first raised error, as the Python
    function does;
  - the independent specification it is proved against: `FieldError` says what
    each field raises, `ErrorFrom` picks the first failing field in reading
    order, and `Slot`/`Layout` say, slot by slot, what the 37 slots hold.
- `EncoderProperties` holds the properties of that specification:
  - exactly when encoding succeeds, and which error a failure reports;
  - the table codes, and that they are injective;
  - the shape of the one-hot blocks and their sums;
  - that source and destination use the same city list, so one city gives
    the same 12-slot pattern in both blocks.
- `PredictionHandler` covers the `/predict` handler. It models these steps:
  - the last-two-slot selection (`X[:, -2:]`);
  - the copy-and-splice of the scaler output into an array (`X_scaled`);
  - the handler, with each failure mapped to its answer.

  The scaler and the model are function parameters returning `None` where the
  Python call would raise.

Two facts about the code are easy to get wrong, and the model states them as
the code has them:

- **Which slots get scaled.** The comment in the code calls the vector's first
  seven slots the numerical features, and duration and days_left sit at slots
  4 and 5. But `X[:, -2:]` selects slots 35 and 36, the Mumbai and Pune flags
  of the destination block, and only those go through the scaler.
  `ScalerSeesDestinationFlags` and `ModelInputKeepsDurationAndDaysLeft` state
  this: the model receives duration and days_left unscaled. Whether the scaler
  was fitted on those two columns depends on the training pipeline, which is
  not part of this model, so this is recorded here and not as a defect.
- **Where Indigo sits.** The airline list (`AirAsia, Air_India, GO_FIRST,
  Indigo, SpiceJet, Vistara`) puts Indigo at index 3, slot 10 of the vector.
  `IndigoIsAirlineThree` states that pattern.

## Model

| member | source | states |
|---|---|---|
| `FeatureEncoder.EncodeFeatures` | app.py:40-66 | The append-by-append encoder returns exactly `Encode(data, parse)`: the error of the first failing field in reading order, or the 37-slot layout. The result depends on the request and the fixed string parsers alone. |
| `FeatureEncoder.Encode` | app.py:40-66 | A successful encoding always has exactly 37 slots. |
| `FeatureEncoder.Truncate` | app.py:49 | `int(x)` of a float truncates toward zero: the result is the largest whole number not above `x` for `x >= 0`, and the smallest not below `x` for `x < 0`. |
| `FloatRange.FloatOverflowIsRoundingMidpoint` | app.py:48-49 | The overflow threshold used by `float()` and `int()` is 2^1024 − 2^970: halfway between the largest float64, (2^53 − 1)·2^971, and the next step up, 2^1024, so half-to-even rounding sends it and everything above it to 2^1024. |
| `FeatureEncoder.AsFloat` | app.py:48 | `float(v)` of a JSON value. Its properties are stated by `HugeDurationFails` (a huge integer raises), `IntIsTruncatedFloat` (agreement with `int()`) and `FloatRange.FloatOverflowIsRoundingMidpoint` (the threshold). |
| `FeatureEncoder.AsInt` | app.py:49 | `int(v)` of a JSON value. Its properties are stated by `Truncate` (truncation toward zero), `HugeDaysLeftFails` (a decimal past the float64 range raises) and `IntIsTruncatedFloat`. |
| `FeatureEncoder.CodeStep` | app.py:44-50 | `table[data[key]]` for departure_time, stops, arrival_time, class or day either raises the error the whole encoding reports, or yields that slot's number with the fields read so far all passing. |
| `FeatureEncoder.FloatStep` | app.py:48 | `float(data["duration"])` raises the encoding's error, or yields slot 4. |
| `FeatureEncoder.IntegerStep` | app.py:49 | `int(data["days_left"])` raises the encoding's error, or yields slot 5. |
| `FeatureEncoder.GetStep` | app.py:52-64 | `data[key]` for airline, source_city or destination_city raises the encoding's `KeyError`, or its one-hot list extends the features to the end of that block. |
| `FeatureEncoder.AppendOrdinal` | app.py:43-50 | Appending ordinal field `k`'s number to the first `k` slots gives the first `k + 1` slots. |
| `FeatureEncoder.AppendCategory` | app.py:52-64 | Extending the slots before a block by the field's one-hot list gives the slots up to the end of that block. |
| `FeatureEncoder.LayoutBlock` | app.py:52-64 | The layout's airline (7-12), source (13-24) and destination (25-36) blocks are the one-hot lists of the given values. |
| `EncoderProperties.FieldOrderComplete` | app.py:44-64 | Every one of the ten fields is read. |
| `EncoderProperties.ErrorFromIsFirst` | app.py:44-64 | `ErrorFrom(k)` is none exactly when no field from position `k` on fails. Otherwise it is the error of a failing field with no failing field before it. |
| `EncoderProperties.NoFieldErrorIff` | app.py:44-64 | A field raises nothing exactly when its key is present, a coded field holds a string of its table, and duration and days_left coerce. |
| `EncoderProperties.EncodeSucceedsIff` | app.py:44-64 | Encoding succeeds if and only if all ten fields are accepted. The values of the one-hot fields play no part. |
| `EncoderProperties.SucceededFieldAccepted` | app.py:44-64 | After a successful encoding, every field held an accepted value. |
| `EncoderProperties.EncodeReportsFirstError` | app.py:44-64 | A failed encoding reports the error of the first failing field in the order departure_time, stops, arrival_time, class, duration, days_left, day, airline, source_city, destination_city. |
| `EncoderProperties.MissingStopsFails` | app.py:44-45 | With a valid departure_time and no `stops`, the encoding fails with the missing-key error for `stops`. |
| `EncoderProperties.HugeDurationFails` | app.py:44-48 | With valid earlier fields, an integer duration too large for a float64 makes the encoding fail with the `float()` error for `duration`. |
| `EncoderProperties.HugeDaysLeftFails` | app.py:44-49 | With valid earlier fields, a decimal days_left beyond the float64 range, which reads as infinity, makes the encoding fail with the `int()` error for `days_left`. |
| `EncoderProperties.IntIsTruncatedFloat` | app.py:48-49 | On a number or boolean both conversions accept, `int(v)` is `float(v)` truncated toward zero, and on integers and booleans `float(v)` is `int(v)` exactly in the model's exact reals (float64 rounding is left out, see the `FeatureEncoder.AsFloat` line). |
| `EncoderProperties.KeysDistinct` | app.py:44-64 | The ten JSON keys are pairwise different. |
| `EncoderProperties.CategoryValueIsNeverAnError` | app.py:52-64 | Replacing the airline, source_city or destination_city value of a successful request by any JSON value keeps it successful. |
| `EncoderProperties.TimeMappingNumbersTimeNames` | app.py:21-24 | `time_mapping` numbers Early_Morning … Late_Night as 0 … 5, one to one. |
| `EncoderProperties.DayMappingNumbersDayNames` | app.py:26-29 | `day_mapping` numbers Monday … Sunday as 0 … 6, one to one. |
| `EncoderProperties.StopsMappingNumbersStopsNames` | app.py:31-33 | `stops_mapping` numbers zero, one, two_or_more as 0, 1, 2, one to one. |
| `EncoderProperties.ClassMappingNumbersClassNames` | app.py:35-37 | `class_mapping` numbers Economy, Business as 0, 1, one to one. |
| `EncoderProperties.TableNumbering` | app.py:21-37 | The table of every coded field maps its names onto 0 … size−1, and each code leads back to its name. |
| `EncoderProperties.DecodingTableInjective` | app.py:21-37 | No two names of such a table share a code. |
| `EncoderProperties.OrdinalSlot` | app.py:43-50 | Slot `i` below 7 of a successful encoding is what the `i`-th ordinal field contributes. |
| `EncoderProperties.CodedSlot` | app.py:44-50 | Slots 0, 1, 2, 3 and 6 hold the table code of the given name. The code lies between 0 and the table size less one, and names that name. |
| `EncoderProperties.DurationSlot` | app.py:48 | Slot 4 holds `float(data["duration"])`. |
| `EncoderProperties.DaysLeftSlot` | app.py:49 | Slot 5 holds `int(data["days_left"])`. |
| `EncoderProperties.CodedSlotsDetermineNames` | app.py:44-50 | Two successful encodings agree on a coded slot if and only if the requests give that field the same value. |
| `EncoderProperties.CategoryBlock` | app.py:52-64 | Each one-hot block of a successful encoding is the one-hot list of the value the request gives that field. |
| `EncoderProperties.AirlinesDistinct` | app.py:53 | No airline is listed twice. |
| `EncoderProperties.CitiesDistinct` | app.py:57-63 | No city is listed twice, and the source and destination lists are identical. |
| `EncoderProperties.NamesDistinct` | app.py:53-63 | Every name list is free of repeats. |
| `EncoderProperties.OneHotIndicates` | app.py:54 | A one-hot list has one slot per name. Each slot is 0 or 1, and slot `i` is 1 if and only if the value is the string `names[i]`. |
| `EncoderProperties.OneHotAtMostOne` | app.py:54 | Over distinct names, at most one slot is 1. |
| `EncoderProperties.OneHotUnknownIsZero` | app.py:54 | A value that is none of the names gives all zeros instead of an error. |
| `EncoderProperties.OneHotSum` | app.py:54 | Over distinct names, the slots add up to 1 for a listed name and to 0 otherwise. |
| `EncoderProperties.CategoryBlockSum` | app.py:52-64 | Each block of a successful encoding adds up to 1 when its value is a listed name, and to 0 otherwise. |
| `EncoderProperties.IndigoIsAirlineThree` | app.py:53-54 | "Indigo" gives the airline pattern `[0, 0, 0, 1, 0, 0]`. |
| `EncoderProperties.SameCitySamePattern` | app.py:57-64 | When source and destination are the same value, the two 12-slot blocks are identical. |
| `EncoderProperties.UnknownAirlineIsZeroBlock` | app.py:53-54 | An airline outside the list still encodes, with slots 7-12 all zero. |
| `PredictionHandler.LastTwo` | app.py:84 | `X[:, -2:]` picks the last two slots, and the vector is the rest followed by them. |
| `PredictionHandler.SpliceLastTwo` | app.py:86-87 | The new vector has the same length and the same slots except the last two, which are the scaler output. |
| `PredictionHandler.CopyWithLastTwo` | app.py:86-87 | Copying the vector into an array and overwriting its last two cells gives `SpliceLastTwo`. |
| `PredictionHandler.Predict` | app.py:79-91 | The handler's answer for each case. A body that is not a JSON object, an encoding error, a raising scaler, a raising model or an empty prediction each give their `Error` (status 400). Otherwise the fare is the first model output for the spliced vector. |
| `PredictionHandler.ScalerSeesDestinationFlags` | app.py:84-85 | The scaler is handed the Mumbai and Pune destination flags, each 0 or 1. |
| `PredictionHandler.ModelInputKeepsDurationAndDaysLeft` | app.py:86-88 | The model sees slots 4 and 5 as `float(duration)` and `int(days_left)`, unscaled. |
| `PredictionHandler.ModelInputKeepsOtherDestinations` | app.py:86-88 | The model sees destination slots 25-34 as the one-hot pattern of the first ten cities. |

## Left out

- The Flask application, its CORS settings, the `/` and `/ping` routes, the ping log line and `app.run`. These are framework and I/O, not logic.
- Loading `model.pkl` and `scaler.pkl` with joblib. The fitted scaler and model are the `Fitted` parameter of `Predict`. Their internals are not modelled.
- `request.get_json()` runs outside the `try`. A body that is not JSON at all is answered by the framework, not by the handler. `Predict` starts from the decoded JSON value.
- Python's `float(str)` and `int(str)` string parsing. It is taken as the function fields of `Parsers`.
- `FeatureEncoder.AsInt`: the JSON literals `NaN` and `Infinity` are not representable as `real`, so the `ValueError` and `OverflowError` that `int()` raises on them are not modelled. A decimal past the float64 range, which Python reads as infinity, is modelled as raising.
- `FeatureEncoder.AsInt`: Python rounds a decimal to float64 before `int()` truncates it, so `2.99999999999999999` gives 3. The model truncates the exact decimal and gives 2; rounding to 53 bits is not modelled.
- `FeatureEncoder.AsFloat`: same limit for `NaN` and `Infinity`. Float64 rounding of an accepted number is not modelled; numbers are exact reals. A decimal past the float64 range is accepted as that exact real where Python has infinity, which `float()` accepts too. The `OverflowError` that `float()` raises on a huge JSON integer is modelled.
- `FeatureEncoder.Code`: a list or object used as a table key raises `TypeError` in Python, not `KeyError`. The model reports `UnknownCode` for it. Both end in the same 400 answer.
- The error message text `str(e)` of the 400 answer. The model reports which failure occurred (`Failure`), not the text.
- numpy: `np.array(...).reshape(1, -1)`, the 2-D shape and the float64 dtype. The vector is a sequence of reals.
- `PredictionHandler.Predict`: the scaler is modelled as returning a pair. Other output shapes, which numpy would broadcast or reject, are not modelled.
- `PredictionHandler.Predict`: the model output is a sequence of reals. The `float(pred[0])` conversion of other element types is not modelled.
- Concurrency of simultaneous requests. The handler shares only the read-only fitted artifacts.
