# Librato client posting protocol, in Dafny

This project models the posting side of the Librato metrics client for
go-metrics (package `librato`, file `client.go`): how a `Batch` of gauge and
counter measurements is sent to the Librato metrics API.

- **Batch stamping.** `PostCounters` and `PostGauges` first write the batch's
  `source` and `measure_time` into every measurement of their collection. A
  measurement is a Go map, which is a reference, so this changes the caller's
  measurements even though the `Batch` is passed by value. The model makes
  `Measurement` a class with a `fields` map and `Stamp` a loop that updates it
  in place. The postcondition is stated per object, so it also holds when the
  same map occurs twice, or in both collections.
- **One post.** After stamping, a post marshals a `CounterBatch` or
  `GaugeBatch` (never both kinds in one body). It then builds the request,
  sends it, reads the body and judges the status. Marshalling, the HTTP
  client and the body read are not code here. What they do for one post is
  one input value, `Exchange`: a marshal failure, a request-construction
  failure, a connection failure, or a response with a status and a body
  that may be unreadable. `Send` follows the source's step-by-step
  reassignment of `err` and `body`. It is proved equal to the declarative
  `PostOnce`, whose decision rule is `ResponseVerdict`. A status-200 response
  whose body cannot be read is still a failure.
- **PostMetrics.** It posts counters only if there are any, then gauges only
  if there are any, whatever the counter post returned. It returns one
  combined error that reports both sub-results, iff either post failed.
  `Flush` states this on batch values. `PostMetrics` is proved to return
  exactly what `Flush` gives for the batch as it was before the call, and to
  leave every measurement stamped.
- **The HTTP client.** `http.DefaultClient` is an `HttpClient` object passed
  to the posts. Its ghost field `sent` records every request handed to it.
  `Send` appends to it at the point where the source calls
  `http.DefaultClient.Do`, and has `modifies http`. So the contracts of
  `PostCounters`, `PostGauges` and `PostMetrics` state everything the HTTP
  client received: how many requests, in what order, and with which bodies.

Errors are records (`PostError`, `MetricsError`), not formatted strings.
`MetricsError` keeps both sub-errors, in the order of the source's message
(gauge error, then counter error).

Two details of the code are worth stating plainly. A marshal or
request-construction failure returns before any request is sent, so such a
post hands nothing to the HTTP client. The two posts run one after the
other, counters first, and the gauge post is attempted whatever the counter
post returned.

## Model

| member | source | states |
|---|---|---|
| `Librato.StampedShape` | client.go:104-107 | one measurement after stamping: keys are the old keys plus `source` and `measure_time`; these hold the batch's source and time; every other key keeps its value |
| `Librato.StampedIdempotent` | client.go:145-148 | stamping twice with the same source and time is the same as stamping once (why shared maps end up stamped once) |
| `Librato.StampedAll` | client.go:104-107 | a whole collection after the stamping loop: same length, and each element is the stamped original |
| `Librato.StampedAllAbsorbs` | client.go:145-148 | a collection whose maps were already partly stamped by the counter loop stamps to the same result as the original |
| `Librato.Stamp` | client.go:104-107 | the in-place loop: every measurement object in the collection ends up as `Stamped` of its old contents, and the collection's contents become `StampedAll` of the old contents |
| `Librato.Placeholder` | client.go:127 | the stand-in body is the fixed prefix `(could not fetch response body for error: `, then the read error's text, then `)` |
| `Librato.ResponseVerdict` | client.go:125-131 | no error iff status is 200 and the body was read; a non-200 status gives a status error with the status, its text and the body or placeholder; status 200 with an unreadable body gives the read error |
| `Librato.Combine` | client.go:91-94 | a combined error iff the counter or the gauge post failed, and it carries both sub-results |
| `Librato.LibratoClient.PostOnce` | client.go:109-131 | a request is sent iff marshalling and request construction succeed; the request is a POST of that body to the metrics URL with JSON content type and the client's credentials; marshal, request and connection failures return their own error; a response is judged by `ResponseVerdict`; success iff status 200 with a readable body |
| `Librato.LibratoClient.RequestFor` | client.go:113-118 | the request is a POST to the metrics URL with content type `application/json`, the client's email and token as Basic Auth, and the given body |
| `Librato.LibratoClient.Send` | client.go:109-135 | the step-by-step marshal, request, send, read and judge sequence returns the error `PostOnce` gives, and hands the HTTP client exactly the request `PostOnce` gives (none when marshalling or request construction fails) |
| `Librato.LibratoClient.PostCounters` | client.go:97-136 | every counter measurement is stamped in place; the HTTP client receives at most one request, a `CounterBatch` holding exactly the stamped counters, and the error is the one `PostOnce` gives |
| `Librato.LibratoClient.PostGauges` | client.go:138-177 | every gauge measurement is stamped in place; the HTTP client receives at most one request, a `GaugeBatch` holding exactly the stamped gauges, and the error is the one `PostOnce` gives |
| `Librato.LibratoClient.Flush` | client.go:80-95 | counter post attempted iff there are counters, gauge post iff there are gauges, each on its own exchange; error iff an attempted post failed, reporting both sub-results; an empty batch sends nothing and returns nil; the requests are exactly those the attempted posts handed over, counters before gauges, at most two; a counter body holds exactly the stamped counters and a gauge body exactly the stamped gauges |
| `Librato.LibratoClient.PostMetrics` | client.go:80-95 | returns the error `Flush` gives for the batch as it was before the call, and the HTTP client receives exactly `Flush`'s requests, in order and nothing else; every measurement in either collection ends up stamped, even when shared |
| `Librato.GaugePostIndependentOfCounters` | client.go:82-90 | the gauge post and its outcome do not depend on the counter exchange, so a failed counter post does not stop it |
| `Librato.EmptyBatchIsNoOp` | client.go:82-94 | a batch with no counters and no gauges attempts no post, sends no request and returns nil |
| `Librato.CounterRejectedGaugesDelivered` | client.go:80-95 | counters answered with status 500 and gauges with 200: the error reports the counter status error and no gauge error, and the gauge request is still sent, second |
| `Librato.RequestsCarryStamp` | client.go:104-108 | every measurement in every request body carries the batch's source and measure time |

## Left out

- HTTP request construction, what `http.DefaultClient.Do` does on the network, the Basic Auth and Content-Type headers as bytes, and `resp.Body.Close`: network I/O. Their effect is the input `Exchange`, and the request is the record `Request`.
- `json.Marshal`: a library serialiser. Whether it fails is part of `Exchange`. The body is the `Payload` value, not its JSON text, and `omitempty` is not modelled.
- `log.Printf` calls and the exact `fmt` text of the error messages: logging and formatting. Errors are records holding the same parts (status, status text, body, sub-errors). The placeholder body text for an unreadable body is kept.
- The display, metric-key and batch-key constants of client.go:13-57: data with no behaviour. Only `source`, `measure_time` and the metrics URL are used.
- `BuildRequest`, `NewReporter`, `EnableRateSet` and the translation of go-metrics values into measurements: this code lives in another file of the package, which is not part of this model.
- librato_test.go: it tests only that translation code, by checking which rate gauges (`.rate.1min`, `.rate.5min`, `.rate.15min`) `BuildRequest` emits for a timer.
- Float64: a measurement value of Go type float64 is kept as its 64 raw bits; no floating-point arithmetic happens in this code.
- Value: an `interface{}` value is a string, int64, float64, bool, nil or an `Opaque` stand-in for anything else (a nested map or slice, another number type). The stamping and posting code never looks inside these values, so the stand-in loses nothing that code uses.
- Librato.Stamp, Librato.LibratoClient.PostCounters, Librato.LibratoClient.PostGauges, Librato.LibratoClient.PostMetrics: a nil map among the measurements is not modelled. A `Measurement` is a non-null reference, while in Go the stamping loops (client.go:105 and client.go:146) panic with "assignment to entry in nil map" on a nil map, after stamping the maps before it. The model does not capture that panic.
