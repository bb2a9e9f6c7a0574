# gorouter varz and connection-error classifiers, in Dafny

This project models two parts of gorouter, the HTTP router of Cloud Foundry.

**The `/varz` metrics of package `router` (src/router/varz.go).** An
`HttpMetric` counts requests, marks a rate meter, counts responses in five
status-class buckets (2xx, 3xx, 4xx, 5xx and "xxx" for everything else,
including a nil response) and records latency samples. A `TaggedHttpMetric`
maps a tag value to the `HttpMetric` of that value and creates a metric the
first time a value is seen. A `Varz` holds:

- the untagged metric `All`;
- three tagged metrics, keyed by the backend's `component`, `framework` and
  `runtime` tags;
- the bad-request count;
- the top-apps list, which `updateTop` rebuilds from the registry's ranking.

**The connection-error classifiers of the proxy
(proxy/error_classifiers/error_classifiers.go).** These are seven predicates over
the error a backend round trip returned, plus `ClassifierFunc.Classify`, which
applies one of them.

The project has three files:

- `router_model.dfy` (module `RouterModel`) is the value-level model. It defines
  what an HttpMetric, a TaggedHttpMetric and a Varz hold, and one function per
  operation saying how that operation changes them. It states the bookkeeping
  invariants and proves that every operation keeps them, and that any run of
  capture calls keeps them. It also proves that no capture is lost over a run.
- `router.dfy` (module `Router`) is the imperative model. The classes
  `HttpMetric`, `TaggedHttpMetric` and `Varz` have fields updated in place, as
  the Go code updates them. Every method is proved to leave its object in the
  state the corresponding `RouterModel` function gives.
  - `TaggedHttpMetric` keeps its metrics as separate objects. `Varz` keeps the
    invariant that no metric object is shared: not between `All` and a
    dimension, not between two dimensions, and not between two tag values. That
    is what makes an update through one of them leave the others alone.
- `error_classifiers.dfy` (module `ErrorClassifiers`) models the classifiers.
  - An error is modelled by its shape: nil, a `tls.RecordHeaderError`, a
    `net.OpError`, an `x509.HostnameError`, an `x509.UnknownAuthorityError`, or
    any other error.
  - The record-header, hostname and unknown-authority shapes record whether
    the error is held by value or by pointer. A `net.OpError` implements
    `error` only through its pointer, so it is always a `*net.OpError`; it
    carries its `Op` and the text of its inner error.
  - Each classifier is proved to hold exactly of the errors of one kind. A
    reference classification (`KindOf`) gives that kind, so no error is
    classified two ways.

Go's integer `/` truncates toward zero. `RouterModel.GoQuotient` models it and is
used for both of the source's divisions: the status class (`StatusCode / 100`)
and requests per second in `updateTop`.

## Model

| member | source | states |
|---|---|---|
| RouterModel.GoQuotient | src/router/varz.go:113 | Go's truncating quotient: the remainder is smaller than the divisor and never of the opposite sign to the dividend; it agrees with Euclidean division on non-negative operands |
| RouterModel.BucketOfStatus | src/router/varz.go:110-127 | a response is counted as 2xx exactly for status 200..299, 3xx for 300..399, 4xx for 400..499, 5xx for 500..599; any other code, negative ones included, and a nil response go to "xxx" |
| RouterModel.NewHttpMetric | src/router/varz.go:67-80 | a new metric has every counter at zero, no rate mark and no latency sample |
| RouterModel.CaptureRequest | src/router/varz.go:105-108 | one more request and one more rate mark; no response counter and no latency sample changes |
| RouterModel.CaptureResponse | src/router/varz.go:110-130 | exactly the response's bucket grows by one, the other four stay, request counts stay, and the duration is appended as the one new latency sample |
| RouterModel.CaptureRequestKeepsConsistent | src/router/varz.go:105-108 | capturing a request keeps a metric consistent: one rate mark per request, counters non-negative, one latency sample per counted response |
| RouterModel.CaptureResponseKeepsConsistent | src/router/varz.go:110-130 | capturing a response keeps a metric consistent |
| RouterModel.GetOrCreate | src/router/varz.go:139-147 | afterwards the tag value is a key; existing entries are untouched, and an absent value gets a new all-zero metric |
| RouterModel.TaggedCaptureRequest | src/router/varz.go:149-151 | the metric under the tag value (new if absent) captures the request; every other tag value's metric is unchanged; no key is lost |
| RouterModel.TaggedCaptureResponse | src/router/varz.go:153-155 | the metric under the tag value (new if absent) captures the response; every other tag value's metric is unchanged; no key is lost |
| RouterModel.NewVarz | src/router/varz.go:157-166 | a new Varz has a zero All, three empty tag maps, no bad requests and no top apps |
| RouterModel.NewVarzInvariant | src/router/varz.go:157-166 | a new Varz satisfies the invariant |
| RouterModel.CaptureBadRequest | src/router/varz.go:198-203 | one more bad request and nothing else changes |
| RouterModel.CaptureBackendRequest | src/router/varz.go:205-228 | All captures the request; each dimension captures it under the backend's tag value exactly when the backend has that tag; bad requests and top apps are unchanged |
| RouterModel.CaptureBackendResponse | src/router/varz.go:230-253 | All captures the response; each dimension captures it under the backend's tag value exactly when the backend has that tag; bad requests and top apps are unchanged |
| RouterModel.TaggedCaptureRequestWithin | src/router/varz.go:214-227 | when a dimension and All capture the same request, every metric of the dimension stays consistent and counted within All |
| RouterModel.TaggedCaptureResponseWithin | src/router/varz.go:239-252 | when a dimension and All capture the same response, every metric of the dimension stays consistent and counted within All |
| RouterModel.CaptureBackendRequestKeepsInvariant | src/router/varz.go:205-228 | CaptureBackendRequest keeps the invariant: All consistent, and no tagged metric has counted more of anything than All |
| RouterModel.CaptureBackendResponseKeepsInvariant | src/router/varz.go:230-253 | CaptureBackendResponse keeps the invariant |
| RouterModel.ReplayKeepsInvariant | src/router/varz.go:198-253 | every sequence of capture calls, from a state satisfying the invariant, keeps it |
| RouterModel.ReplayCounts | src/router/varz.go:198-253 | over any sequence of capture calls, All's requests grow by the number of backend requests, its responses and its latency samples by the number of backend responses, and the bad-request count by the number of bad requests |
| RouterModel.TopApps | src/router/varz.go:188-195 | one entry per ranked application, in ranking order, with the ranked count as requests per minute and that count divided (truncating) by the window length as requests per second |
| RouterModel.UpdateTop | src/router/varz.go:184-196 | the top-apps list is replaced by the one built from the ranking, whatever it held before; nothing else changes |
| RouterModel.PerSecondRate | src/router/varz.go:192 | for a non-negative count over a positive window, requests per second times the window is at most the count, and less than the window away from it |
| RouterModel.TopAppsExample | src/router/varz.go:189-195 | 600 requests over a 60-second window give 10 per second and 600 per minute |
| Router.HttpMetric.constructor | src/router/varz.go:67-80 | NewHttpMetric: every counter is zero and no latency sample is recorded |
| Router.HttpMetric.CaptureRequest | src/router/varz.go:105-108 | the object's new state is RouterModel.CaptureRequest of its old state |
| Router.HttpMetric.CaptureResponse | src/router/varz.go:110-130 | the object's new state is RouterModel.CaptureResponse of its old state, by the same switch on the status class |
| Router.TaggedHttpMetric.constructor | src/router/varz.go:134-137 | NewTaggedHttpMetric: no tag value has a metric |
| Router.TaggedHttpMetric.MetricFor | src/router/varz.go:139-147 | httpMetric: returns the metric stored under the tag value; an existing one is returned as is and the map is unchanged; otherwise a fresh metric is stored under the value and returned; the value becomes RouterModel.GetOrCreate |
| Router.TaggedHttpMetric.CellStep | src/router/varz.go:149-155 | updating the one metric object stored under a tag value changes the map's value at that tag value only |
| Router.TaggedHttpMetric.CaptureRequest | src/router/varz.go:149-151 | the new value is RouterModel.TaggedCaptureRequest of the old one; the only new metric objects are fresh |
| Router.TaggedHttpMetric.CaptureResponse | src/router/varz.go:153-155 | the new value is RouterModel.TaggedCaptureResponse of the old one; the only new metric objects are fresh |
| Router.Varz.constructor | src/router/varz.go:157-166 | NewVarz: the object holds RouterModel.NewVarz; All and the three tag maps are freshly allocated, distinct objects, and no tag map holds a metric object yet |
| Router.Varz.CaptureBadRequest | src/router/varz.go:198-203 | the new state is RouterModel.CaptureBadRequest of the old one |
| Router.Varz.CountersStep | src/router/varz.go:198-203 | changing only the Varz's own counters leaves every metric's value unchanged |
| Router.Varz.TaggedStep | src/router/varz.go:209-225 | updating one dimension's map and metric objects leaves All and the other two dimensions unchanged, because no metric object is shared |
| Router.Varz.AllStep | src/router/varz.go:227 | updating All leaves the three dimensions unchanged |
| Router.Varz.CaptureRequestIfTagged | src/router/varz.go:209-225 | one `if tag, ok` step of CaptureBackendRequest: the dimension captures the request under the backend's tag value if it has one; the rest of the Varz is unchanged; the dimension gains only fresh metric objects |
| Router.Varz.CaptureResponseIfTagged | src/router/varz.go:234-250 | one `if tag, ok` step of CaptureBackendResponse, for the response; the dimension gains only fresh metric objects |
| Router.Varz.CaptureBackendRequest | src/router/varz.go:205-228 | the new state is RouterModel.CaptureBackendRequest of the old one; no metric object becomes shared, and each tag map gains only freshly allocated metric objects, so captures can follow one another |
| Router.Varz.CaptureBackendResponse | src/router/varz.go:230-253 | the new state is RouterModel.CaptureBackendResponse of the old one; no metric object becomes shared, and each tag map gains only freshly allocated metric objects |
| Router.Varz.UpdateTop | src/router/varz.go:184-196 | the append loop leaves the state RouterModel.UpdateTop of the old one |
| ErrorClassifiers.Classify | proxy/error_classifiers/error_classifiers.go:16 | ClassifierFunc.Classify returns the function applied to the error |
| ErrorClassifiers.AttemptedTLSWithNonTLSBackend | proxy/error_classifiers/error_classifiers.go:18-25 | true exactly of a tls.RecordHeaderError, by value or by pointer |
| ErrorClassifiers.Dial | proxy/error_classifiers/error_classifiers.go:27-30 | true exactly of a *net.OpError whose Op is "dial", whatever its inner error |
| ErrorClassifiers.ConnectionResetOnRead | proxy/error_classifiers/error_classifiers.go:32-35 | true exactly of a *net.OpError with Op "read" and inner text "read: connection reset by peer"; defined wherever Go does not panic on a nil inner error |
| ErrorClassifiers.RemoteFailedCertCheck | proxy/error_classifiers/error_classifiers.go:37-40 | true exactly of a *net.OpError with Op "remote error" and inner text "tls: bad certificate" |
| ErrorClassifiers.RemoteHandshakeFailure | proxy/error_classifiers/error_classifiers.go:42-45 | true exactly of a *net.OpError with Op "remote error" and inner text "tls: handshake failure" |
| ErrorClassifiers.HostnameMismatch | proxy/error_classifiers/error_classifiers.go:47-54 | true exactly of an x509.HostnameError, by value or by pointer |
| ErrorClassifiers.UntrustedCert | proxy/error_classifiers/error_classifiers.go:56-63 | true exactly of an x509.UnknownAuthorityError, by value or by pointer |
| ErrorClassifiers.ClassifyMatchesKind | proxy/error_classifiers/error_classifiers.go:14-63 | each classifier, applied through Classify, holds exactly of the errors whose reference kind is its own |
| ErrorClassifiers.ClassifiersExclusive | proxy/error_classifiers/error_classifiers.go:18-63 | no error satisfies two different classifiers |
| ErrorClassifiers.ClassifierDefined | proxy/error_classifiers/error_classifiers.go:32-45 | every classifier is defined on every error except a *net.OpError with a nil inner error under Op "read" or "remote error" |
| ErrorClassifiers.UnrecognisedIsUnclassified | proxy/error_classifiers/error_classifiers.go:18-63 | nil and an unrecognised error satisfy no classifier |
| ErrorClassifiers.OpClassifiersNeedOpError | proxy/error_classifiers/error_classifiers.go:27-45 | the four net.OpError classifiers are false for anything that is not a *net.OpError |
| ErrorClassifiers.FormIsIrrelevant | proxy/error_classifiers/error_classifiers.go:18-63 | the three type-switch classifiers accept their type both by value and by pointer |
| ErrorClassifiers.DialIgnoresInner | proxy/error_classifiers/error_classifiers.go:27-35 | Dial holds of a "dial" *net.OpError whatever its inner error, even nil, and ConnectionResetOnRead does not |
| ErrorClassifiers.RemoteErrorNeedsExactText | proxy/error_classifiers/error_classifiers.go:37-45 | with another Op, or inner text other than the two exact strings, neither remote-error classifier holds |
| ErrorClassifiers.Examples | proxy/error_classifiers/error_classifiers.go:27-63 | concrete errors: a refused dial, a reset read, the same text under "write" or in an error that is not a *net.OpError, a bad certificate against a handshake failure, an unknown authority against a hostname mismatch |

## Left out

- The go-metrics internals. Counters are unbounded integers. The rate meter is
  modelled by the number of marks it has received; its exponentially weighted
  averages (floating point, clock-driven) are not modelled. The latency
  histogram is modelled by the sequence of samples recorded into it; the
  bounded, decaying reservoir (1028 samples, alpha 0.015) and the percentiles
  are not modelled.
- `HttpMetric.MarshalJSON` and `Varz.MarshalJSON`: JSON encoding and floating
  point. The fields they alone fill are not part of the modelled state: `Urls`,
  `Droplets` and `RequestsPerSec`.
- The `sync.Mutex` of `Varz`: each method is modelled as one atomic step.
- The `Registry` and the clock. `updateTop`'s ranking (`TopSince` of the last
  minute, at most 10 applications) is a parameter of `Router.Varz.UpdateTop`.
  So is the window length `stats.TopAppsEntryLifetime` in whole seconds, which
  must be non-zero because Go would panic dividing by zero.
- Router.HttpMetric.CaptureRequest: does not model the 64-bit wrap-around of the
  go-metrics counters, because the counters are unbounded integers here. The
  same holds for every other counter and for `BadRequests` (a Go `int`).
- The `*http.Request` arguments of `CaptureBadRequest` and
  `CaptureBackendRequest`: the source does not use them. The backend is
  represented by its tag map alone.
- A `TaggedHttpMetric` entry that explicitly holds a nil `*HttpMetric`. The
  source treats it as absent and replaces it. In the model, no key ever maps
  to nil.
- ErrorClassifiers.ConnectionResetOnRead: not total. Go calls `ne.Err.Error()`
  without a nil check once Op is "read" and would panic on a nil inner error, so
  the precondition excludes that error.
- ErrorClassifiers.RemoteFailedCertCheck: not total, for the same reason, once Op
  is "remote error".
- ErrorClassifiers.RemoteHandshakeFailure: not total, for the same reason, once
  Op is "remote error".
- Typed-nil pointers (a nil `*net.OpError` or `*x509.HostnameError` stored in a
  non-nil `error`). The crypto/tls, crypto/x509 and net types are modelled only
  by the shape the classifiers inspect.
- The `Classifier` interface's generated fake (counterfeiter): test tooling.
