/** The metrics objects of package router (src/router/varz.go) as the proxy
    updates them in place: an HttpMetric's counters, a TaggedHttpMetric's map from
    tag value to HttpMetric, and the Varz that holds All and the three tagged
    dimensions. Every method is proved against the value-level functions of
    module RouterModel, and keeps the objects valid while growing them only by
    fresh metric objects, so calls compose: what is proved there about a run of
    captures holds of these objects. */
module Router {
  import RouterModel

  /** HttpMetric: a request counter, a rate meter (modelled by the number of marks
      it has received), five response counters and a latency histogram (modelled
      by the samples recorded into it). */
  class HttpMetric {
    var requests: int
    var rateMarks: int
    var responses2xx: int
    var responses3xx: int
    var responses4xx: int
    var responses5xx: int
    var responsesXxx: int
    var latency: seq<int>

    ghost function Value(): RouterModel.Metric
      reads this
    {
      RouterModel.Metric(requests, rateMarks, responses2xx, responses3xx, responses4xx,
        responses5xx, responsesXxx, latency)
    }

    /** NewHttpMetric. */
    constructor ()
      ensures Value() == RouterModel.NewHttpMetric()
    {
      requests, rateMarks := 0, 0;
      responses2xx, responses3xx, responses4xx, responses5xx, responsesXxx := 0, 0, 0, 0, 0;
      latency := [];
    }

    method CaptureRequest()
      modifies this
      ensures Value() == RouterModel.CaptureRequest(old(Value()))
    {
      requests := requests + 1;
      rateMarks := rateMarks + 1;
    }

    /** Counts the response in the counter of its status class (status code / 100,
        0 for a nil response) and records the latency in nanoseconds. */
    method CaptureResponse(res: RouterModel.Response, nanos: int)
      modifies this
      ensures Value() == RouterModel.CaptureResponse(old(Value()), res, nanos)
    {
      var s := 0;
      if res.Response? {
        s := RouterModel.GoQuotient(res.statusCode, 100);
      }
      if s == 2 {
        responses2xx := responses2xx + 1;
      } else if s == 3 {
        responses3xx := responses3xx + 1;
      } else if s == 4 {
        responses4xx := responses4xx + 1;
      } else if s == 5 {
        responses5xx := responses5xx + 1;
      } else {
        responsesXxx := responsesXxx + 1;
      }
      latency := latency + [nanos];
    }
  }

  /** TaggedHttpMetric: a map from tag value to the HttpMetric of that value.
      Repr is the set of metric objects and tagOf maps each back to its tag
      value, so no two tag values share a metric object. */
  class TaggedHttpMetric {
    var cells: map<string, HttpMetric>
    ghost var Repr: set<HttpMetric>
    ghost var tagOf: map<HttpMetric, string>

    ghost predicate Valid()
      reads this
    {
      && Repr == tagOf.Keys
      && forall t :: t in cells ==> cells[t] in tagOf && tagOf[cells[t]] == t
    }

    ghost function Value(): map<string, RouterModel.Metric>
      requires Valid()
      reads this, Repr
    {
      map t | t in cells :: cells[t].Value()
    }

    /** NewTaggedHttpMetric: no tag value has a metric yet. */
    constructor ()
      ensures Valid() && cells == map[] && Repr == {}
    {
      cells := map[];
      Repr, tagOf := {}, map[];
    }

    /** httpMetric: the metric of tag value `t`, created and stored first if `t`
        has none. Existing entries keep their objects; a created one is fresh. */
    method MetricFor(t: string) returns (m: HttpMetric)
      requires Valid()
      modifies this
      ensures Valid()
      ensures t in cells && m == cells[t]
      ensures t in old(cells) ==> cells == old(cells)
      ensures t !in old(cells) ==> fresh(m) && cells == old(cells)[t := m]
      ensures Repr == old(Repr) + {m}
      ensures Value() == RouterModel.GetOrCreate(old(Value()), t)
    {
      if t in cells {
        m := cells[t];
      } else {
        m := new HttpMetric();
        cells := cells[t := m];
        Repr, tagOf := Repr + {m}, tagOf[m := t];
        assert Value() == old(Value())[t := RouterModel.NewHttpMetric()];
      }
    }

    /** Only the metric object of `t` changed: the value changes at `t` alone. */
    twostate lemma CellStep(t: string)
      requires old(Valid()) && t in old(cells)
      requires unchanged(this)
      requires unchanged(old(Repr) - {old(cells[t])})
      ensures Valid()
      ensures Value() == old(Value())[t := cells[t].Value()]
    {
    }

    /** The metric of `t` (created if need be) captures a request. */
    method CaptureRequest(t: string)
      requires Valid()
      modifies this, Repr
      ensures Valid()
      ensures old(Repr) <= Repr && fresh(Repr - old(Repr))
      ensures Value() == RouterModel.TaggedCaptureRequest(old(Value()), t)
    {
      var m := MetricFor(t);
      label Created:
      m.CaptureRequest();
      CellStep@Created(t);
    }

    /** The metric of `t` (created if need be) captures a response and its latency. */
    method CaptureResponse(t: string, res: RouterModel.Response, nanos: int)
      requires Valid()
      modifies this, Repr
      ensures Valid()
      ensures old(Repr) <= Repr && fresh(Repr - old(Repr))
      ensures Value() == RouterModel.TaggedCaptureResponse(old(Value()), t, res, nanos)
    {
      var m := MetricFor(t);
      label Created:
      m.CaptureResponse(res, nanos);
      CellStep@Created(t);
    }
  }

  /** Varz: the untagged metric All, the metrics tagged by component, framework
      and runtime, the bad-request count and the last top-apps list. The four
      metric holders are set once, by NewVarz; no metric object is shared between
      All and a dimension or between two dimensions. */
  class Varz {
    const all: HttpMetric
    const component: TaggedHttpMetric
    const framework: TaggedHttpMetric
    const runtime: TaggedHttpMetric
    var badRequests: int
    var topApps: seq<RouterModel.TopAppsEntry>

    ghost predicate Valid()
      reads this, component, framework, runtime
    {
      && component != framework && component != runtime && framework != runtime
      && component.Valid() && framework.Valid() && runtime.Valid()
      && all !in component.Repr && all !in framework.Repr && all !in runtime.Repr
      && component.Repr !! framework.Repr
      && component.Repr !! runtime.Repr
      && framework.Repr !! runtime.Repr
    }

    ghost function Value(): RouterModel.VarzState
      requires Valid()
      reads this, all, component, framework, runtime, component.Repr, framework.Repr, runtime.Repr
    {
      RouterModel.VarzState(all.Value(), component.Value(), framework.Value(), runtime.Value(),
        badRequests, topApps)
    }

    /** NewVarz: All and the three tag maps are new objects, and no metric is
        held in a tag map yet. */
    constructor ()
      ensures Valid() && Value() == RouterModel.NewVarz()
      ensures fresh(all) && fresh(component) && fresh(framework) && fresh(runtime)
      ensures component.Repr == {} && framework.Repr == {} && runtime.Repr == {}
    {
      all := new HttpMetric();
      component := new TaggedHttpMetric();
      framework := new TaggedHttpMetric();
      runtime := new TaggedHttpMetric();
      badRequests := 0;
      topApps := [];
    }

    method CaptureBadRequest()
      requires Valid()
      modifies this
      ensures Valid()
      ensures Value() == RouterModel.CaptureBadRequest(old(Value()))
    {
      badRequests := badRequests + 1;
      CountersStep();
    }

    /** Frame: when only the counters held in Varz itself changed, no metric did. */
    twostate lemma CountersStep()
      requires old(Valid())
      requires unchanged(all, component, framework, runtime)
      requires unchanged(old(component.Repr), old(framework.Repr), old(runtime.Repr))
      ensures Valid()
      ensures Value() == old(Value()).(badRequests := badRequests, topApps := topApps)
    {
    }

    /** The tagged metric of dimension `d`. */
    function Tagged(d: RouterModel.Dimension): TaggedHttpMetric
    {
      match d
      case Component => component
      case Framework => framework
      case Runtime => runtime
    }

    /** Frame: when only dimension `d` (its map and its metric objects, old or
        fresh) changed, All and the other dimensions kept their values. */
    twostate lemma TaggedStep(d: RouterModel.Dimension)
      requires old(Valid())
      requires unchanged(this, all)
      requires d != RouterModel.Component ==> unchanged(component) && unchanged(old(component.Repr))
      requires d != RouterModel.Framework ==> unchanged(framework) && unchanged(old(framework.Repr))
      requires d != RouterModel.Runtime ==> unchanged(runtime) && unchanged(old(runtime.Repr))
      requires Tagged(d).Valid()
      requires old(Tagged(d).Repr) <= Tagged(d).Repr && fresh(Tagged(d).Repr - old(Tagged(d).Repr))
      ensures Valid()
      ensures Value() == old(Value()).WithTagged(d, Tagged(d).Value())
    {
    }

    /** Frame: when only All changed, the dimensions kept their values. */
    twostate lemma AllStep()
      requires old(Valid())
      requires unchanged(this, component, framework, runtime)
      requires unchanged(old(component.Repr), old(framework.Repr), old(runtime.Repr))
      ensures Valid()
      ensures Value() == old(Value()).(all := all.Value())
    {
    }

    /** One step of CaptureBackendRequest: if the backend carries the tag of
        dimension `d`, that dimension captures the request under the tag's value. */
    method CaptureRequestIfTagged(backendTags: map<string, string>, d: RouterModel.Dimension)
      requires Valid()
      modifies Tagged(d), Tagged(d).Repr
      ensures Valid()
      ensures old(Tagged(d).Repr) <= Tagged(d).Repr && fresh(Tagged(d).Repr - old(Tagged(d).Repr))
      ensures Value() == old(Value()).WithTagged(d, RouterModel.TaggedRequestIfTagged(old(Value()).Tagged(d), backendTags, d))
    {
      var name := RouterModel.TagName(d);
      var tagged := Tagged(d);
      if name in backendTags {
        tagged.CaptureRequest(backendTags[name]);
      }
      TaggedStep(d);
    }

    /** One step of CaptureBackendResponse: if the backend carries the tag of
        dimension `d`, that dimension captures the response under the tag's value. */
    method CaptureResponseIfTagged(backendTags: map<string, string>, d: RouterModel.Dimension,
                                   res: RouterModel.Response, nanos: int)
      requires Valid()
      modifies Tagged(d), Tagged(d).Repr
      ensures Valid()
      ensures old(Tagged(d).Repr) <= Tagged(d).Repr && fresh(Tagged(d).Repr - old(Tagged(d).Repr))
      ensures Value() == old(Value()).WithTagged(d,
        RouterModel.TaggedResponseIfTagged(old(Value()).Tagged(d), backendTags, d, res, nanos))
    {
      var name := RouterModel.TagName(d);
      var tagged := Tagged(d);
      if name in backendTags {
        tagged.CaptureResponse(backendTags[name], res, nanos);
      }
      TaggedStep(d);
    }

    /** Each dimension whose tag the backend carries captures the request under
        the backend's tag value; then All captures it. */
    method CaptureBackendRequest(backendTags: map<string, string>)
      requires Valid()
      modifies all, component, framework, runtime, component.Repr, framework.Repr, runtime.Repr
      ensures Valid()
      ensures old(component.Repr) <= component.Repr && fresh(component.Repr - old(component.Repr))
      ensures old(framework.Repr) <= framework.Repr && fresh(framework.Repr - old(framework.Repr))
      ensures old(runtime.Repr) <= runtime.Repr && fresh(runtime.Repr - old(runtime.Repr))
      ensures Value() == RouterModel.CaptureBackendRequest(old(Value()), backendTags)
    {
      CaptureRequestIfTagged(backendTags, RouterModel.Component);
      CaptureRequestIfTagged(backendTags, RouterModel.Framework);
      CaptureRequestIfTagged(backendTags, RouterModel.Runtime);
      label Tagged:
      all.CaptureRequest();
      AllStep@Tagged();
    }

    /** Each dimension whose tag the backend carries captures the response under
        the backend's tag value; then All captures it. */
    method CaptureBackendResponse(backendTags: map<string, string>, res: RouterModel.Response, nanos: int)
      requires Valid()
      modifies all, component, framework, runtime, component.Repr, framework.Repr, runtime.Repr
      ensures Valid()
      ensures old(component.Repr) <= component.Repr && fresh(component.Repr - old(component.Repr))
      ensures old(framework.Repr) <= framework.Repr && fresh(framework.Repr - old(framework.Repr))
      ensures old(runtime.Repr) <= runtime.Repr && fresh(runtime.Repr - old(runtime.Repr))
      ensures Value() == RouterModel.CaptureBackendResponse(old(Value()), backendTags, res, nanos)
    {
      CaptureResponseIfTagged(backendTags, RouterModel.Component, res, nanos);
      CaptureResponseIfTagged(backendTags, RouterModel.Framework, res, nanos);
      CaptureResponseIfTagged(backendTags, RouterModel.Runtime, res, nanos);
      label Tagged:
      all.CaptureResponse(res, nanos);
      AllStep@Tagged();
    }

    /** updateTop: the top-apps list is rebuilt from the registry's ranking, one
        entry per ranked application in ranking order. */
    method UpdateTop(ranking: seq<RouterModel.RankedApp>, lifetimeSeconds: int)
      requires lifetimeSeconds != 0
      requires Valid()
      modifies this
      ensures Valid()
      ensures Value() == RouterModel.UpdateTop(old(Value()), ranking, lifetimeSeconds)
    {
      topApps := [];
      for i := 0 to |ranking|
        invariant badRequests == old(badRequests)
        invariant |topApps| == i
        invariant forall k :: 0 <= k < i ==> topApps[k] == RouterModel.TopAppsEntryOf(ranking[k], lifetimeSeconds)
      {
        topApps := topApps + [RouterModel.TopAppsEntryOf(ranking[i], lifetimeSeconds)];
      }
      assert topApps == RouterModel.TopApps(ranking, lifetimeSeconds);
      CountersStep();
    }
  }
}
