# Sensor series pipeline of the delirium-risk dashboard

This project models the data path of the Delirium-Detection browser dashboard
(`app_firestore.js`). Each realtime update delivers a batch of packet documents
from the `SensorData` collection. Every document holds an `IR` array of raw
readings. The pipeline turns the batch into one capped time series of scored
points.

- **Numeric coercion** (`Coercion.ToNumArr`). A field that is not an array
  becomes `[]`. Otherwise each element that `Number(v)` makes finite is kept,
  and every other element becomes 0.
- **Normalisation** (`Scoring.Normalize`). A reading is mapped affinely from
  the configured range 2600..3200 onto [0, 1] and clamped. The width of the
  range has a floor of 1e-9.
- **Risk classification** (`Scoring.RiskFromScore`). A score of 0.6 or more is
  `High`, 0.3 or more is `Moderate`, anything lower is `Low`.
- **Flattening** (`Flattener.FlattenPacketDocs`, specified by
  `Series.Flatten`). Documents are visited in batch order and samples in array
  order. Sample `i` of document `dIdx`, in a document of `L` samples, is
  stamped `now - ((docsCount-1-dIdx)*L + (L-1-i)) * 200`. Documents without
  samples are skipped. The last 600 points are kept.
- **Last value of a field** (`Coercion.LastOf`), used for the raw-values panel.

The configuration constants form one immutable value, `SensorConfig.Default`.
The operations take it, or its score range, as a parameter. The reference
instant `now` is a parameter in integer milliseconds. Input elements are
abstracted as `Finite(x)`, `Null`, or `NotFinite` (any other value
whose `Number(v)` is not finite). Readings and scores are `real`.
A document's payload is an optional map from field names to fields. A missing
payload reads as the empty record, as `data() || {}` does.

The model is split into one module per component: `Options` (options.dfy:
`Option`), `SensorConfig`
(config.dfy), `Coercion` (coercion.dfy), `Scoring` (scoring.dfy), `Series`
(series.dfy: the series as functions, and the lemmas about it) and
`Flattener` (flattener.dfy: the nested loops, proved equal to `Series.Flatten`).

Behaviour of the code that a reader may not expect:

- Timestamps are guaranteed to strictly increase when every non-empty document
  holds the same number of samples (`Series.FlattenOrderedWhenUniform`). With
  unequal lengths the order can break: `Series.UnequalLengthsCanReorder` shows a batch of a one-sample and a
  three-sample document whose first two points are out of order. The code
  computes each document's offsets from that document's own length, so
  nothing in it prevents this.
- Empty documents are skipped, but they still count in `docsCount`. So they
  still occupy a document slot in the offsets of the documents before them.
  `Series.EmptyPacketIsLocal` states exactly what replacing a document by an
  empty one changes.
- `slice(-MAX_POINTS)` with a cap of 0 would return the whole series, because
  `-0` is `0`. `Series.SliceFromEnd` models this. The cap-related lemmas
  assume a positive cap, which the configured 600 is.

## Model

| member | source | states |
|---|---|---|
| `Coercion.ToNumArr` | app_firestore.js:37-43 | a non-array gives `[]`; an array gives a sequence of the same length in which element i is the i-th input when finite and 0 otherwise |
| `Coercion.LastOf` | app_firestore.js:102-105 | the null marker exactly when the field is not an array, is empty, or ends in null; otherwise the element that ends the array |
| `Coercion.LastOfAppend` | app_firestore.js:102-105 | the element appended last is what is returned, so a present 0 is reported as present, while a trailing null reads the same as absence |
| `Scoring.Clamp01` | app_firestore.js:45-47 | the result lies in [0, 1]; it is the input inside [0, 1], 0 below and 1 above |
| `Scoring.Width` | app_firestore.js:50 | the divisor is at least 1e-9, so it is positive; it is the true width whenever that width reaches the floor, and exactly 1e-9 when it does not |
| `Scoring.Normalize` | app_firestore.js:49-52 | every score lies in [0, 1], for every range and reading |
| `Scoring.NormalizeMonotone` | app_firestore.js:49-52 | a larger reading never gives a smaller score |
| `Scoring.NormalizeInRange` | app_firestore.js:49-52 | inside a proper range the score is (v - min) / (max - min); at or below min it is 0; at or above max it is 1 |
| `Scoring.RiskFromScore` | app_firestore.js:54-58 | High iff score >= 0.6; Moderate iff 0.3 <= score < 0.6; Low iff score < 0.3; lower bounds inclusive |
| `Scoring.RiskMonotone` | app_firestore.js:54-58 | a higher score never gives a lower risk level |
| `Scoring.ConfiguredExamples` | app_firestore.js:24 | with range 2600..3200: 2900 gives 0.5 (Moderate), 3200 gives 1 (High), 2000 gives 0 (Low) |
| `Series.MissingPayloadReadsEmpty` | app_firestore.js:73-74 | a document without payload reads exactly like one whose payload is the empty record: every field is a non-array |
| `Series.NoSamplesIff` | app_firestore.js:73-75 | a document yields no samples if and only if it has no payload, lacks the scored channel, stores a non-array there, or stores an empty array |
| `Series.SamplesFromEnd` | app_firestore.js:84-85 | in the last document the offset of sample i is L-1-i, and the offset is 0 exactly for the last sample of the last document |
| `Series.Flatten` | app_firestore.js:64-99 | an empty batch gives []; the result never exceeds a positive cap and is always a suffix of the untruncated series |
| `Series.SliceFromEnd` | app_firestore.js:99 | `slice(-m)`: the suffix of length min(len, m) for m > 0, the whole sequence for m = 0; always a suffix of the input |
| `Series.SeriesRangeLength` | app_firestore.js:73-97 | the documents in a range contribute exactly as many points as they hold samples |
| `Series.FlattenIsCappedTail` | app_firestore.js:64-99 | the output has min(total samples, maxPoints) points and is the tail of the untruncated series, with order preserved |
| `Series.FlattenZeroCapKeepsAll` | app_firestore.js:99 | a cap of 0 keeps the whole series |
| `Series.FlattenEmptyBatch` | app_firestore.js:65 | an empty batch gives an empty series |
| `Series.FlattenAllEmpty` | app_firestore.js:73-78 | a batch whose documents all have an empty or missing IR array gives an empty series |
| `Series.PointOfSample` | app_firestore.js:80-95 | sample i of document d sits at position (samples before d) + i, with timestamp now - ((docsCount-1-d)*L + (L-1-i)) * interval, score Normalize(sample) and the risk of that score |
| `Series.FlattenWellFormed` | app_firestore.js:80-95 | every output point has a score in [0, 1], the risk of its score, and a timestamp no later than now |
| `Series.LastPointIsNow` | app_firestore.js:84-89 | when the last document has samples, the output ends with its last sample, stamped exactly now |
| `Series.SinglePacketExample` | app_firestore.js:80-95 | one document [a, b] at 200 ms gives the points (now - 200, Normalize(a)) and (now, Normalize(b)), newest last |
| `Series.EmptyPacketIsLocal` | app_firestore.js:76-78 | replacing document j by an empty one removes exactly j's points; the points of the other documents keep their values and timestamps |
| `Series.FlattenOrderedWhenUniform` | app_firestore.js:84-85 | with a positive interval and equal sample counts in all non-empty documents, output timestamps strictly increase |
| `Series.UnequalLengthsCanReorder` | app_firestore.js:84-85 | documents of 1 and 3 samples give a first point at now - 200 followed by one at now - 400 |
| `Flattener.FlattenPacketDocs` | app_firestore.js:64-100 | the nested loops compute `Series.Flatten` of the batch, never exceed the cap, and produce only well-formed points; the batch array is not modified |

## Left out

- Store setup, `onSnapshot`, `query`/`limit(PACKETS_FETCH)`, and `startSensorStream`/`stopSensorStream` with the global `unsubscribe` handle (app_firestore.js:31-33, 109-173). These are foreign SDK calls and callback wiring. `packetsFetch` and `collectionName` are kept as configuration values only.
- The callback body (app_firestore.js:121-156): choosing the last point for the headline, and building the raw-values snapshot from the last document with `lastOf` over eight fields. Only `lastOf` itself is modelled.
- `Date.now()` is a parameter `now`. `toISOString()` is not modelled: timestamps stay integer milliseconds.
- `console.log` and `console.error` output.
- ui.js as a whole (DOM updates, chart configuration, number formatting, and chart pruning by wall-clock time).
- Floating point: readings, scores and the 1e-9 floor are exact reals. NaN and infinities are not represented after coercion, which removes them.
- JavaScript `Number(v)` parsing: each input element is already abstracted as a finite number, null, or not finite. `Coercion.LastOf` returns this abstraction, not the raw JavaScript value. An `undefined` element cannot be stored in a document, so it is not a separate case.
