/** Value-level model of the metrics bookkeeping of package router (src/router/varz.go):
    what one HttpMetric, one TaggedHttpMetric and the whole Varz hold, how every
    capture operation changes them, and the invariants those operations keep.
    The classes of module Router are proved against these functions. */
module RouterModel {

  function Abs(x: int): nat { if x < 0 then -x else x }

  /** Go's integer `/`: the quotient truncated toward zero (Dafny's `/` is Euclidean).
      The first two ensures determine the quotient uniquely: the remainder is smaller
      than the divisor and never has the opposite sign of the dividend. */
  function GoQuotient(a: int, b: int): (q: int)
    requires b != 0
    ensures Abs(a - q * b) < Abs(b)
    ensures (a >= 0 ==> a - q * b >= 0) && (a <= 0 ==> a - q * b <= 0)
    ensures a >= 0 && b > 0 ==> q == a / b
  {
    var u := Abs(a) / Abs(b);
    var q := if (a >= 0) == (b > 0) then u else -u;
    DivisionRemainder(Abs(a), Abs(b));
    assert q * b == (if a >= 0 then u * Abs(b) else -(u * Abs(b))) by {
      SignedProduct(u, Abs(b));
    }
    q
  }

  /** Multiplication distributes over negation on either side. */
  lemma SignedProduct(u: int, d: int)
    ensures (-u) * (-d) == u * d && (-u) * d == -(u * d) && u * (-d) == -(u * d)
  {
  }

  /** The remainder left by natural-number division lies in [0, d). */
  lemma DivisionRemainder(n: nat, d: nat)
    requires 0 < d
    ensures 0 <= n - (n / d) * d < d
  {
    assert n == d * (n / d) + n % d;
  }

  // ---------------------------------------------------------------------------
  // HttpMetric

  /** The *http.Response handed to CaptureResponse: nil, or one with a status code. */
  datatype Response = NilResponse | Response(statusCode: int)

  /** The five response counters of an HttpMetric. */
  datatype Bucket = Responses2xx | Responses3xx | Responses4xx | Responses5xx | ResponsesXxx

  /** The value `s` that CaptureResponse switches on: 0 for a nil response,
      otherwise the status code divided by 100 as Go divides. */
  function StatusClass(res: Response): int
  {
    match res
    case NilResponse => 0
    case Response(code) => GoQuotient(code, 100)
  }

  /** The bucket CaptureResponse increments: 2xx..5xx for the status classes 2..5,
      "xxx" for every other status code and for a nil response. */
  function BucketOf(res: Response): Bucket
  {
    var s := StatusClass(res);
    if s == 2 then Responses2xx
    else if s == 3 then Responses3xx
    else if s == 4 then Responses4xx
    else if s == 5 then Responses5xx
    else ResponsesXxx
  }

  /** The bucket of a response by its status code: 2xx for 200..299, 3xx for
      300..399, 4xx for 400..499, 5xx for 500..599, "xxx" for every other code,
      negative ones included, and for a nil response. */
  lemma BucketOfStatus(res: Response)
    ensures res.NilResponse? ==> BucketOf(res) == ResponsesXxx
    ensures res.Response? ==> (BucketOf(res) == Responses2xx <==> 200 <= res.statusCode < 300)
    ensures res.Response? ==> (BucketOf(res) == Responses3xx <==> 300 <= res.statusCode < 400)
    ensures res.Response? ==> (BucketOf(res) == Responses4xx <==> 400 <= res.statusCode < 500)
    ensures res.Response? ==> (BucketOf(res) == Responses5xx <==> 500 <= res.statusCode < 600)
    ensures res.Response? ==> (BucketOf(res) == ResponsesXxx <==> res.statusCode < 200 || 600 <= res.statusCode)
  {
  }

  /** What an HttpMetric holds: its request counter, the number of events marked on
      its rate meter, its five response counters and the latency samples recorded
      into its histogram (nanoseconds, oldest first). */
  datatype Metric = Metric(
    requests: int,
    rateMarks: int,
    responses2xx: int,
    responses3xx: int,
    responses4xx: int,
    responses5xx: int,
    responsesXxx: int,
    latency: seq<int>)

  /** The state NewHttpMetric starts an HttpMetric in: every counter zero and no
      latency sample recorded. */
  predicate IsNewHttpMetric(m: Metric)
  {
    && m.requests == 0 && m.rateMarks == 0
    && m.responses2xx == 0 && m.responses3xx == 0 && m.responses4xx == 0
    && m.responses5xx == 0 && m.responsesXxx == 0
    && m.latency == []
  }

  /** NewHttpMetric: a metric that has counted nothing. */
  function NewHttpMetric(): (m: Metric)
    ensures IsNewHttpMetric(m)
  {
    Metric(0, 0, 0, 0, 0, 0, 0, [])
  }

  /** The value of one response counter. */
  function Count(m: Metric, b: Bucket): int
  {
    match b
    case Responses2xx => m.responses2xx
    case Responses3xx => m.responses3xx
    case Responses4xx => m.responses4xx
    case Responses5xx => m.responses5xx
    case ResponsesXxx => m.responsesXxx
  }

  /** The number of responses counted over all five buckets. */
  function ResponsesTotal(m: Metric): int
  {
    Count(m, Responses2xx) + Count(m, Responses3xx) + Count(m, Responses4xx)
      + Count(m, Responses5xx) + Count(m, ResponsesXxx)
  }

  /** HttpMetric.CaptureRequest: one more request, one more mark on the rate meter,
      and no response counter or latency sample changes. */
  function CaptureRequest(m: Metric): (r: Metric)
    ensures r.requests == m.requests + 1 && r.rateMarks == m.rateMarks + 1
    ensures forall b :: Count(r, b) == Count(m, b)
    ensures r.latency == m.latency
  {
    m.(requests := m.requests + 1, rateMarks := m.rateMarks + 1)
  }

  /** HttpMetric.CaptureResponse: exactly the bucket of the response goes up by one,
      the other four stay, and exactly one latency sample is recorded. */
  function CaptureResponse(m: Metric, res: Response, nanos: int): (r: Metric)
    ensures forall b :: Count(r, b) == Count(m, b) + (if b == BucketOf(res) then 1 else 0)
    ensures r.requests == m.requests && r.rateMarks == m.rateMarks
    ensures r.latency == m.latency + [nanos]
  {
    var counted :=
      match BucketOf(res)
      case Responses2xx => m.(responses2xx := m.responses2xx + 1)
      case Responses3xx => m.(responses3xx := m.responses3xx + 1)
      case Responses4xx => m.(responses4xx := m.responses4xx + 1)
      case Responses5xx => m.(responses5xx := m.responses5xx + 1)
      case ResponsesXxx => m.(responsesXxx := m.responsesXxx + 1);
    counted.(latency := m.latency + [nanos])
  }

  /** The bookkeeping an HttpMetric keeps consistent: one rate mark per request,
      one latency sample per counted response, and no counter below zero. */
  ghost predicate Consistent(m: Metric)
  {
    && 0 <= m.requests
    && m.rateMarks == m.requests
    && 0 <= Count(m, Responses2xx) && 0 <= Count(m, Responses3xx) && 0 <= Count(m, Responses4xx)
    && 0 <= Count(m, Responses5xx) && 0 <= Count(m, ResponsesXxx)
    && ResponsesTotal(m) == |m.latency|
  }

  /** `small` has counted no more requests, no more responses of any bucket and no
      more latency samples than `big`. */
  ghost predicate CountedWithin(small: Metric, big: Metric)
  {
    && small.requests <= big.requests
    && Count(small, Responses2xx) <= Count(big, Responses2xx)
    && Count(small, Responses3xx) <= Count(big, Responses3xx)
    && Count(small, Responses4xx) <= Count(big, Responses4xx)
    && Count(small, Responses5xx) <= Count(big, Responses5xx)
    && Count(small, ResponsesXxx) <= Count(big, ResponsesXxx)
    && |small.latency| <= |big.latency|
  }

  lemma CaptureRequestKeepsConsistent(m: Metric)
    requires Consistent(m)
    ensures Consistent(CaptureRequest(m))
  {
  }

  lemma CaptureResponseKeepsConsistent(m: Metric, res: Response, nanos: int)
    requires Consistent(m)
    ensures Consistent(CaptureResponse(m, res, nanos))
  {
  }

  // ---------------------------------------------------------------------------
  // TaggedHttpMetric

  /** TaggedHttpMetric.httpMetric as a map update: afterwards `t` is a key; an
      existing entry and every other key are left as they were, and a missing `t`
      gets a fresh all-zero metric. */
  function GetOrCreate(tagged: map<string, Metric>, t: string): (r: map<string, Metric>)
    ensures r.Keys == tagged.Keys + {t}
    ensures forall k :: k in tagged ==> r[k] == tagged[k]
    ensures t !in tagged ==> r[t] == NewHttpMetric()
  {
    if t in tagged then tagged else tagged[t := NewHttpMetric()]
  }

  /** TaggedHttpMetric.CaptureRequest: the metric under `t` (created if absent)
      captures a request; the metrics under other keys do not change. */
  function TaggedCaptureRequest(tagged: map<string, Metric>, t: string): (r: map<string, Metric>)
    ensures r.Keys == tagged.Keys + {t}
    ensures r[t] == CaptureRequest(if t in tagged then tagged[t] else NewHttpMetric())
    ensures forall k :: k in tagged && k != t ==> r[k] == tagged[k]
  {
    var cells := GetOrCreate(tagged, t);
    cells[t := CaptureRequest(cells[t])]
  }

  /** TaggedHttpMetric.CaptureResponse: the metric under `t` (created if absent)
      captures the response; the metrics under other keys do not change. */
  function TaggedCaptureResponse(tagged: map<string, Metric>, t: string, res: Response, nanos: int): (r: map<string, Metric>)
    ensures r.Keys == tagged.Keys + {t}
    ensures r[t] == CaptureResponse(if t in tagged then tagged[t] else NewHttpMetric(), res, nanos)
    ensures forall k :: k in tagged && k != t ==> r[k] == tagged[k]
  {
    var cells := GetOrCreate(tagged, t);
    cells[t := CaptureResponse(cells[t], res, nanos)]
  }

  // ---------------------------------------------------------------------------
  // Varz

  /** The three tag dimensions of a Varz and the backend tag each one is keyed by. */
  datatype Dimension = Component | Framework | Runtime

  function TagName(d: Dimension): string
  {
    match d
    case Component => "component"
    case Framework => "framework"
    case Runtime => "runtime"
  }

  /** One element of the registry's ranking of the most active applications. */
  datatype RankedApp = RankedApp(applicationId: string, requests: int)

  /** topAppsEntry: an application with its requests per second and per minute. */
  datatype TopAppsEntry = TopAppsEntry(applicationId: string, requestsPerSecond: int, requestsPerMinute: int)

  /** What a Varz holds: the untagged metric All, the component, framework and
      runtime tagged metrics, the bad-request count and the last top-apps list. */
  datatype VarzState = VarzState(
    all: Metric,
    component: map<string, Metric>,
    framework: map<string, Metric>,
    runtime: map<string, Metric>,
    badRequests: int,
    topApps: seq<TopAppsEntry>)
  {
    function Tagged(d: Dimension): map<string, Metric>
    {
      match d
      case Component => component
      case Framework => framework
      case Runtime => runtime
    }

    /** This state with the metrics of dimension `d` replaced by `tagged`. */
    function WithTagged(d: Dimension, tagged: map<string, Metric>): (r: VarzState)
      ensures r.Tagged(d) == tagged
      ensures forall e :: e != d ==> r.Tagged(e) == Tagged(e)
      ensures r.all == all && r.badRequests == badRequests && r.topApps == topApps
    {
      match d
      case Component => this.(component := tagged)
      case Framework => this.(framework := tagged)
      case Runtime => this.(runtime := tagged)
    }
  }

  /** Every metric counts consistently, and no tagged metric has counted more of
      anything than All, which sees every backend request and response. */
  ghost predicate Invariant(v: VarzState)
  {
    && Consistent(v.all)
    && 0 <= v.badRequests
    && TaggedWithin(v.component, v.all)
    && TaggedWithin(v.framework, v.all)
    && TaggedWithin(v.runtime, v.all)
  }

  /** Every metric of one tag dimension counts consistently and within `all`. */
  ghost predicate TaggedWithin(tagged: map<string, Metric>, all: Metric)
  {
    forall t :: t in tagged ==> Consistent(tagged[t]) && CountedWithin(tagged[t], all)
  }

  /** NewVarz: a zero All, three empty tag maps, no bad requests, no top apps. */
  function NewVarz(): (v: VarzState)
    ensures v.all == NewHttpMetric() && v.badRequests == 0 && v.topApps == []
    ensures forall d :: v.Tagged(d) == map[]
  {
    VarzState(NewHttpMetric(), map[], map[], map[], 0, [])
  }

  /** Varz.CaptureBadRequest: one more bad request and nothing else changes. */
  function CaptureBadRequest(v: VarzState): (r: VarzState)
    ensures r.badRequests == v.badRequests + 1
    ensures r.(badRequests := v.badRequests) == v
  {
    v.(badRequests := v.badRequests + 1)
  }

  /** Varz.CaptureBackendRequest: All captures the request exactly once; each
      dimension whose tag the backend carries captures it under that tag's value;
      a dimension whose tag is absent, the bad-request count and the top-apps list
      are left unchanged. */
  function CaptureBackendRequest(v: VarzState, backendTags: map<string, string>): (r: VarzState)
    ensures r.all == CaptureRequest(v.all)
    ensures forall d :: r.Tagged(d) == TaggedRequestIfTagged(v.Tagged(d), backendTags, d)
    ensures r.badRequests == v.badRequests && r.topApps == v.topApps
  {
    v.(all := CaptureRequest(v.all),
       component := TaggedRequestIfTagged(v.component, backendTags, Component),
       framework := TaggedRequestIfTagged(v.framework, backendTags, Framework),
       runtime := TaggedRequestIfTagged(v.runtime, backendTags, Runtime))
  }

  /** One dimension's part of CaptureBackendRequest: a capture under the backend's
      tag for that dimension when it has one, no change otherwise. */
  function TaggedRequestIfTagged(tagged: map<string, Metric>, backendTags: map<string, string>, d: Dimension): map<string, Metric>
  {
    if TagName(d) in backendTags then TaggedCaptureRequest(tagged, backendTags[TagName(d)]) else tagged
  }

  /** Varz.CaptureBackendResponse: as CaptureBackendRequest, with the response and
      its duration captured instead of a request. */
  function CaptureBackendResponse(v: VarzState, backendTags: map<string, string>, res: Response, nanos: int): (r: VarzState)
    ensures r.all == CaptureResponse(v.all, res, nanos)
    ensures forall d :: r.Tagged(d) == TaggedResponseIfTagged(v.Tagged(d), backendTags, d, res, nanos)
    ensures r.badRequests == v.badRequests && r.topApps == v.topApps
  {
    v.(all := CaptureResponse(v.all, res, nanos),
       component := TaggedResponseIfTagged(v.component, backendTags, Component, res, nanos),
       framework := TaggedResponseIfTagged(v.framework, backendTags, Framework, res, nanos),
       runtime := TaggedResponseIfTagged(v.runtime, backendTags, Runtime, res, nanos))
  }

  /** One dimension's part of CaptureBackendResponse. */
  function TaggedResponseIfTagged(tagged: map<string, Metric>, backendTags: map<string, string>, d: Dimension, res: Response, nanos: int): map<string, Metric>
  {
    if TagName(d) in backendTags then TaggedCaptureResponse(tagged, backendTags[TagName(d)], res, nanos) else tagged
  }

  lemma NewVarzInvariant()
    ensures Invariant(NewVarz())
  {
  }

  /** Once `all` has grown, what counted within it still does. */
  lemma TaggedWithinGrows(tagged: map<string, Metric>, all: Metric, all': Metric)
    requires TaggedWithin(tagged, all) && CountedWithin(all, all')
    ensures TaggedWithin(tagged, all')
  {
    forall t | t in tagged
      ensures CountedWithin(tagged[t], all')
    {
      assert CountedWithin(tagged[t], all);
    }
  }

  lemma TaggedCaptureRequestWithin(tagged: map<string, Metric>, all: Metric, t: string)
    requires TaggedWithin(tagged, all) && Consistent(all)
    ensures TaggedWithin(TaggedCaptureRequest(tagged, t), CaptureRequest(all))
  {
    forall k | k in TaggedCaptureRequest(tagged, t)
      ensures Consistent(TaggedCaptureRequest(tagged, t)[k])
      ensures CountedWithin(TaggedCaptureRequest(tagged, t)[k], CaptureRequest(all))
    {
      if k == t {
        var before := if t in tagged then tagged[t] else NewHttpMetric();
        MetricRequestWithin(before, all);
      } else {
        MetricGrowsWithin(tagged[k], all, CaptureRequest(all));
      }
    }
  }

  /** A metric counted within `all` stays so when both capture the same request. */
  lemma MetricRequestWithin(m: Metric, all: Metric)
    requires Consistent(m) && CountedWithin(m, all)
    ensures Consistent(CaptureRequest(m)) && CountedWithin(CaptureRequest(m), CaptureRequest(all))
  {
  }

  lemma TaggedCaptureResponseWithin(tagged: map<string, Metric>, all: Metric, t: string, res: Response, nanos: int)
    requires TaggedWithin(tagged, all) && Consistent(all)
    ensures TaggedWithin(TaggedCaptureResponse(tagged, t, res, nanos), CaptureResponse(all, res, nanos))
  {
    forall k | k in TaggedCaptureResponse(tagged, t, res, nanos)
      ensures Consistent(TaggedCaptureResponse(tagged, t, res, nanos)[k])
      ensures CountedWithin(TaggedCaptureResponse(tagged, t, res, nanos)[k], CaptureResponse(all, res, nanos))
    {
      if k == t {
        var before := if t in tagged then tagged[t] else NewHttpMetric();
        MetricResponseWithin(before, all, res, nanos);
      } else {
        MetricGrowsWithin(tagged[k], all, CaptureResponse(all, res, nanos));
      }
    }
  }

  /** A metric counted within `all` stays so when both capture the same response. */
  lemma MetricResponseWithin(m: Metric, all: Metric, res: Response, nanos: int)
    requires Consistent(m) && CountedWithin(m, all)
    ensures Consistent(CaptureResponse(m, res, nanos))
    ensures CountedWithin(CaptureResponse(m, res, nanos), CaptureResponse(all, res, nanos))
  {
  }

  lemma MetricGrowsWithin(m: Metric, all: Metric, all': Metric)
    requires CountedWithin(m, all) && CountedWithin(all, all')
    ensures CountedWithin(m, all')
  {
  }

  lemma CaptureBackendRequestKeepsInvariant(v: VarzState, backendTags: map<string, string>)
    requires Invariant(v)
    ensures Invariant(CaptureBackendRequest(v, backendTags))
  {
    var r := CaptureBackendRequest(v, backendTags);
    CaptureRequestKeepsConsistent(v.all);
    forall d ensures TaggedWithin(r.Tagged(d), r.all) {
      assert TaggedWithin(v.Tagged(d), v.all);
      if TagName(d) in backendTags {
        TaggedCaptureRequestWithin(v.Tagged(d), v.all, backendTags[TagName(d)]);
      } else {
        TaggedWithinGrows(v.Tagged(d), v.all, r.all);
      }
    }
    assert TaggedWithin(r.Tagged(Component), r.all);
    assert TaggedWithin(r.Tagged(Framework), r.all);
    assert TaggedWithin(r.Tagged(Runtime), r.all);
  }

  lemma CaptureBackendResponseKeepsInvariant(v: VarzState, backendTags: map<string, string>, res: Response, nanos: int)
    requires Invariant(v)
    ensures Invariant(CaptureBackendResponse(v, backendTags, res, nanos))
  {
    var r := CaptureBackendResponse(v, backendTags, res, nanos);
    CaptureResponseKeepsConsistent(v.all, res, nanos);
    forall d ensures TaggedWithin(r.Tagged(d), r.all) {
      assert TaggedWithin(v.Tagged(d), v.all);
      if TagName(d) in backendTags {
        TaggedCaptureResponseWithin(v.Tagged(d), v.all, backendTags[TagName(d)], res, nanos);
      } else {
        TaggedWithinGrows(v.Tagged(d), v.all, r.all);
      }
    }
    assert TaggedWithin(r.Tagged(Component), r.all);
    assert TaggedWithin(r.Tagged(Framework), r.all);
    assert TaggedWithin(r.Tagged(Runtime), r.all);
  }

  // ---------------------------------------------------------------------------
  // A run of capture calls

  /** One call into a Varz from the proxy, each taken as one atomic step. */
  datatype Event =
    | BadRequest
    | BackendRequest(backendTags: map<string, string>)
    | BackendResponse(backendTags: map<string, string>, res: Response, nanos: int)

  function Apply(v: VarzState, e: Event): VarzState
  {
    match e
    case BadRequest => CaptureBadRequest(v)
    case BackendRequest(tags) => CaptureBackendRequest(v, tags)
    case BackendResponse(tags, res, nanos) => CaptureBackendResponse(v, tags, res, nanos)
  }

  /** The state after the events, applied first to last. */
  function Replay(v: VarzState, events: seq<Event>): VarzState
    decreases |events|
  {
    if events == [] then v else Replay(Apply(v, events[0]), events[1..])
  }

  function CountBadRequests(events: seq<Event>): nat
  {
    if events == [] then 0 else (if events[0].BadRequest? then 1 else 0) + CountBadRequests(events[1..])
  }

  function CountBackendRequests(events: seq<Event>): nat
  {
    if events == [] then 0 else (if events[0].BackendRequest? then 1 else 0) + CountBackendRequests(events[1..])
  }

  function CountBackendResponses(events: seq<Event>): nat
  {
    if events == [] then 0 else (if events[0].BackendResponse? then 1 else 0) + CountBackendResponses(events[1..])
  }

  /** Every run of capture calls keeps the invariant. */
  lemma {:induction false} ReplayKeepsInvariant(v: VarzState, events: seq<Event>)
    requires Invariant(v)
    ensures Invariant(Replay(v, events))
    decreases |events|
  {
    if events != [] {
      match events[0] {
        case BadRequest =>
        case BackendRequest(tags) => CaptureBackendRequestKeepsInvariant(v, tags);
        case BackendResponse(tags, res, nanos) => CaptureBackendResponseKeepsInvariant(v, tags, res, nanos);
      }
      ReplayKeepsInvariant(Apply(v, events[0]), events[1..]);
    }
  }

  /** No update is lost: after any run, All has counted exactly one request per
      backend request, one response and one latency sample per backend response,
      and the bad-request count has grown by the number of bad requests. */
  lemma {:induction false} ReplayCounts(v: VarzState, events: seq<Event>)
    ensures Replay(v, events).all.requests == v.all.requests + CountBackendRequests(events)
    ensures ResponsesTotal(Replay(v, events).all) == ResponsesTotal(v.all) + CountBackendResponses(events)
    ensures |Replay(v, events).all.latency| == |v.all.latency| + CountBackendResponses(events)
    ensures Replay(v, events).badRequests == v.badRequests + CountBadRequests(events)
    decreases |events|
  {
    if events != [] {
      ReplayCounts(Apply(v, events[0]), events[1..]);
    }
  }

  // ---------------------------------------------------------------------------
  // updateTop

  /** One entry of the rebuilt top-apps list: requests per minute is the ranked
      count, requests per second that count divided, as Go divides, by the length
      of the ranking window in seconds. */
  function TopAppsEntryOf(z: RankedApp, lifetimeSeconds: int): TopAppsEntry
    requires lifetimeSeconds != 0
  {
    TopAppsEntry(z.applicationId, GoQuotient(z.requests, lifetimeSeconds), z.requests)
  }

  /** The list updateTop builds: one entry per ranked application, in ranking order. */
  function TopApps(ranking: seq<RankedApp>, lifetimeSeconds: int): (r: seq<TopAppsEntry>)
    requires lifetimeSeconds != 0
    ensures |r| == |ranking|
    ensures forall i :: 0 <= i < |r| ==>
      && r[i].applicationId == ranking[i].applicationId
      && r[i].requestsPerMinute == ranking[i].requests
      && r[i].requestsPerSecond == GoQuotient(ranking[i].requests, lifetimeSeconds)
  {
    if ranking == [] then []
    else [TopAppsEntryOf(ranking[0], lifetimeSeconds)] + TopApps(ranking[1..], lifetimeSeconds)
  }

  /** Varz.updateTop: the top-apps list is replaced by the one built from the
      ranking, whatever it held before; nothing else changes. */
  function UpdateTop(v: VarzState, ranking: seq<RankedApp>, lifetimeSeconds: int): (r: VarzState)
    requires lifetimeSeconds != 0
    ensures r.topApps == TopApps(ranking, lifetimeSeconds)
    ensures r.(topApps := v.topApps) == v
  {
    v.(topApps := TopApps(ranking, lifetimeSeconds))
  }

  /** For a non-negative count over a positive window, requests per second is the
      per-minute count spread evenly over the window, rounded down. */
  lemma PerSecondRate(z: RankedApp, lifetimeSeconds: int)
    requires 0 <= z.requests && 0 < lifetimeSeconds
    ensures var e := TopAppsEntryOf(z, lifetimeSeconds);
      e.requestsPerSecond * lifetimeSeconds <= e.requestsPerMinute < (e.requestsPerSecond + 1) * lifetimeSeconds
  {
  }

  /** 600 requests over a 60-second window are 10 per second and 600 per minute. */
  lemma TopAppsExample(id: string)
    ensures TopApps([RankedApp(id, 600)], 60) == [TopAppsEntry(id, 10, 600)]
  {
  }
}
