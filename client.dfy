/**
 * The posting protocol of the Librato metrics client (package librato,
 * client.go).
 *
 * A Batch holds two collections of measurements, gauges and counters, plus
 * one shared source tag and one shared measure time. PostMetrics posts each
 * non-empty collection in a request body of its own (counters first), and
 * folds the two outcomes into one error. Each post first stamps the shared
 * source and measure time into every measurement of its collection, in
 * place: a measurement is a Go map, so the caller's measurements change too.
 *
 * JSON encoding, request construction, the HTTP exchange and reading the
 * response body are not modelled as code: what each of them does for one post
 * is one input value of type Exchange.
 */
module Librato {

  datatype Option<+T> = None | Some(value: T)

  /** Go's int64, the type of Batch.MeasureTime. */
  newtype int64 = x: int | -0x8000_0000_0000_0000 <= x < 0x8000_0000_0000_0000

  /**
   * One value stored in a measurement (an interface{} in Go): a string, an
   * int64, a float64 as its raw bits, a bool, nil, or any other Go value,
   * which the stamping and posting code never inspects.
   */
  datatype Value = Str(s: string) | Int64(n: int64) | Float64(bits: bv64) | Bool(b: bool) | Nil | Opaque(tag: string)

  /** The contents of one measurement map. */
  type Fields = map<string, Value>

  const SourceKey: string := "source"
  const MeasureTimeKey: string := "measure_time"
  const MetricsPostUrl: string := "https://metrics-api.librato.com/v1/metrics"
  const StatusOK: int := 200

  /** A Measurement is a Go map, so it is shared by reference and updated in place. */
  class Measurement {
    var fields: Fields

    constructor (fields: Fields)
      ensures this.fields == fields
    {
      this.fields := fields;
    }
  }

  /** Batch is passed by value, but its slices hold references to the measurements. */
  datatype Batch = Batch(gauges: seq<Measurement>, counters: seq<Measurement>, measureTime: int64, source: string)

  /** The value a Batch denotes in a given heap. */
  datatype BatchView = BatchView(gauges: seq<Fields>, counters: seq<Fields>, measureTime: int64, source: string)

  function Snapshot(ms: seq<Measurement>): seq<Fields>
    reads ms
  {
    seq(|ms|, i requires 0 <= i < |ms| reads ms => ms[i].fields)
  }

  function View(b: Batch): BatchView
    reads b.gauges, b.counters
  {
    BatchView(Snapshot(b.gauges), Snapshot(b.counters), b.measureTime, b.source)
  }

  // ---------------------------------------------------------------------------
  // Stamping the batch-wide source and measure time
  // ---------------------------------------------------------------------------

  /** A measurement after the two assignments of the stamping loop. */
  function Stamped(f: Fields, source: string, measureTime: int64): Fields
  {
    f[SourceKey := Str(source)][MeasureTimeKey := Int64(measureTime)]
  }

  /**
   * A stamped measurement has the old keys plus "source" and "measure_time",
   * holding the batch's source and time; every other key keeps its value.
   */
  lemma StampedShape(f: Fields, source: string, measureTime: int64)
    ensures var r := Stamped(f, source, measureTime);
      && r.Keys == f.Keys + {SourceKey, MeasureTimeKey}
      && r[SourceKey] == Str(source) && r[MeasureTimeKey] == Int64(measureTime)
      && forall k :: k in f && k != SourceKey && k != MeasureTimeKey ==> r[k] == f[k]
  {
  }

  /** Stamping twice with the same source and time is stamping once. */
  lemma StampedIdempotent(f: Fields, source: string, measureTime: int64)
    ensures Stamped(Stamped(f, source, measureTime), source, measureTime) == Stamped(f, source, measureTime)
  {
  }

  /** A whole collection after the stamping loop. */
  function StampedAll(fs: seq<Fields>, source: string, measureTime: int64): (r: seq<Fields>)
    ensures |r| == |fs|
    ensures forall i :: 0 <= i < |fs| ==> r[i] == Stamped(fs[i], source, measureTime)
  {
    if fs == [] then [] else [Stamped(fs[0], source, measureTime)] + StampedAll(fs[1..], source, measureTime)
  }

  /**
   * A collection some of whose measurements are already stamped stamps to the
   * same result as the unstamped original.
   */
  lemma StampedAllAbsorbs(fs: seq<Fields>, gs: seq<Fields>, source: string, measureTime: int64)
    requires |gs| == |fs|
    requires forall i :: 0 <= i < |fs| ==> gs[i] == fs[i] || gs[i] == Stamped(fs[i], source, measureTime)
    ensures StampedAll(gs, source, measureTime) == StampedAll(fs, source, measureTime)
  {
    forall i | 0 <= i < |fs|
      ensures StampedAll(gs, source, measureTime)[i] == StampedAll(fs, source, measureTime)[i]
    {
      StampedIdempotent(fs[i], source, measureTime);
    }
  }

  /**
   * The stamping loop of PostCounters and PostGauges: writes "source" and then
   * "measure_time" into every measurement of the collection, in place. The
   * same map may occur more than once; the postcondition holds regardless.
   */
  method Stamp(ms: seq<Measurement>, source: string, measureTime: int64)
    modifies ms
    ensures forall m :: m in ms ==> m.fields == Stamped(old(m.fields), source, measureTime)
    ensures Snapshot(ms) == StampedAll(old(Snapshot(ms)), source, measureTime)
  {
    var i := 0;
    while i < |ms|
      invariant 0 <= i <= |ms|
      invariant forall m :: m in ms[..i] ==> m.fields == Stamped(old(m.fields), source, measureTime)
      invariant forall m :: m in ms && m !in ms[..i] ==> m.fields == old(m.fields)
    {
      ms[i].fields := ms[i].fields[SourceKey := Str(source)];
      ms[i].fields := ms[i].fields[MeasureTimeKey := Int64(measureTime)];
      i := i + 1;
    }
  }

  // ---------------------------------------------------------------------------
  // One post: outcomes, errors and the request handed to the HTTP client
  // ---------------------------------------------------------------------------

  /** What ioutil.ReadAll(resp.Body) produced. */
  datatype BodyRead = Read(text: string) | ReadFailed(cause: string)

  /**
   * What the environment does for one post: json.Marshal fails, or
   * http.NewRequest fails, or http.DefaultClient.Do fails, or a response
   * arrives whose body may or may not be readable.
   */
  datatype Exchange =
    | MarshalFailed(cause: string)
    | RequestFailed(cause: string)
    | ConnectionFailed(cause: string)
    | Responded(status: int, statusText: string, read: BodyRead)

  /** The error a post returns. */
  datatype PostError =
    | MarshalError(cause: string)
    | RequestError(cause: string)
    | ConnectionError(cause: string)
    | ReadError(cause: string)
    | StatusError(status: int, statusText: string, body: string)

  /** The combined error of PostMetrics, reporting both sub-results. */
  datatype MetricsError = MetricsError(gaugeErr: Option<PostError>, counterErr: Option<PostError>)

  /** A request body: CounterBatch and GaugeBatch each hold one kind only. */
  datatype Payload = CounterBatch(counters: seq<Fields>) | GaugeBatch(gauges: seq<Fields>)

  datatype Request = Request(httpMethod: string, url: string, contentType: string, email: string, token: string, body: Payload)

  /** The error of one post and the request it handed to the HTTP client, if any. */
  datatype PostOutcome = PostOutcome(err: Option<PostError>, request: Option<Request>)

  const PlaceholderPrefix: string := "(could not fetch response body for error: "

  /** The stand-in body used when the response body could not be read; it embeds the read error. */
  function Placeholder(cause: string): (r: string)
    ensures |r| == |PlaceholderPrefix| + |cause| + 1
    ensures r[..|PlaceholderPrefix|] == PlaceholderPrefix && r[|r| - 1] == ')'
    ensures r[|PlaceholderPrefix|..|r| - 1] == cause
  {
    PlaceholderPrefix + cause + ")"
  }

  /** The body text that a status error reports. */
  function ShownBody(read: BodyRead): string
  {
    match read
    case Read(text) => text
    case ReadFailed(cause) => Placeholder(cause)
  }

  /**
   * How a post judges a response. A non-200 status is an error carrying the
   * status and the best-effort body; with status 200 an unreadable body is
   * still an error: the read error.
   */
  function ResponseVerdict(status: int, statusText: string, read: BodyRead): (r: Option<PostError>)
    ensures r.None? <==> status == StatusOK && read.Read?
    ensures status != StatusOK ==> r == Some(StatusError(status, statusText, ShownBody(read)))
    ensures status == StatusOK && read.ReadFailed? ==> r == Some(ReadError(read.cause))
  {
    match read
    case Read(text) =>
      if status == StatusOK then None else Some(StatusError(status, statusText, text))
    case ReadFailed(cause) =>
      if status == StatusOK then Some(ReadError(cause)) else Some(StatusError(status, statusText, Placeholder(cause)))
  }

  /** Whether a post that may not have been attempted failed. */
  predicate Failed(p: Option<PostOutcome>)
  {
    p.Some? && p.value.err.Some?
  }

  /** The error of a post that may not have been attempted (nil when it was not). */
  function ErrorOf(p: Option<PostOutcome>): Option<PostError>
  {
    if p.Some? then p.value.err else None
  }

  /** The requests a post that may not have been attempted handed to the HTTP client. */
  function SentBy(p: Option<PostOutcome>): seq<Request>
  {
    if p.Some? && p.value.request.Some? then [p.value.request.value] else []
  }

  /**
   * The rule at the end of PostMetrics: an error iff either post failed, and
   * that error reports both sub-results.
   */
  function Combine(counterErr: Option<PostError>, gaugeErr: Option<PostError>): (r: Option<MetricsError>)
    ensures r.Some? <==> counterErr.Some? || gaugeErr.Some?
    ensures r.Some? ==> r.value.counterErr == counterErr && r.value.gaugeErr == gaugeErr
  {
    if counterErr.Some? || gaugeErr.Some? then Some(MetricsError(gaugeErr, counterErr)) else None
  }

  /**
   * The HTTP client (http.DefaultClient in the source). Its ghost trace
   * records every request handed to it, in order.
   */
  class HttpClient {
    ghost var sent: seq<Request>

    constructor ()
      ensures sent == []
    {
      sent := [];
    }
  }

  /** The result of PostMetrics on a batch value; a post that was not attempted is None. */
  datatype FlushOutcome = FlushOutcome(
    counterPost: Option<PostOutcome>,
    gaugePost: Option<PostOutcome>,
    err: Option<MetricsError>,
    requests: seq<Request>)

  datatype LibratoClient = LibratoClient(email: string, token: string) {

    /** A POST of a JSON body to the metrics endpoint with Basic Auth. */
    function RequestFor(payload: Payload): (r: Request)
      ensures r.httpMethod == "POST" && r.url == MetricsPostUrl && r.contentType == "application/json"
      ensures r.email == email && r.token == token && r.body == payload
    {
      Request("POST", MetricsPostUrl, "application/json", email, token, payload)
    }

    /**
     * One post of an already stamped body. A marshal or request-construction
     * failure returns its error before any request is sent; a connection
     * failure returns its error before any response is judged.
     */
    function PostOnce(payload: Payload, net: Exchange): (r: PostOutcome)
      ensures r.request.Some? <==> net.ConnectionFailed? || net.Responded?
      ensures r.request.Some? ==> r.request.value == RequestFor(payload)
      ensures r.err.None? <==> net.Responded? && net.status == StatusOK && net.read.Read?
      ensures net.MarshalFailed? ==> r.err == Some(MarshalError(net.cause))
      ensures net.RequestFailed? ==> r.err == Some(RequestError(net.cause))
      ensures net.ConnectionFailed? ==> r.err == Some(ConnectionError(net.cause))
      ensures net.Responded? ==> r.err == ResponseVerdict(net.status, net.statusText, net.read)
    {
      match net
      case MarshalFailed(cause) => PostOutcome(Some(MarshalError(cause)), None)
      case RequestFailed(cause) => PostOutcome(Some(RequestError(cause)), None)
      case ConnectionFailed(cause) => PostOutcome(Some(ConnectionError(cause)), Some(RequestFor(payload)))
      case Responded(status, statusText, read) =>
        PostOutcome(ResponseVerdict(status, statusText, read), Some(RequestFor(payload)))
    }

    /**
     * The part of PostCounters and PostGauges after the stamping loop:
     * marshal, build the request, hand it to the HTTP client, read the body,
     * judge the status. `err` and `body` are reassigned step by step as in
     * the source. The request is recorded exactly when it is handed over.
     */
    method Send(payload: Payload, net: Exchange, http: HttpClient) returns (err: Option<PostError>)
      modifies http
      ensures err == PostOnce(payload, net).err
      ensures http.sent == old(http.sent) + SentBy(Some(PostOnce(payload, net)))
    {
      if net.MarshalFailed? {
        err := Some(MarshalError(net.cause));
        return;
      }
      if net.RequestFailed? {
        err := Some(RequestError(net.cause));
        return;
      }
      var req := RequestFor(payload);
      http.sent := http.sent + [req];
      if net.ConnectionFailed? {
        err := Some(ConnectionError(net.cause));
        return;
      }
      var body: string;
      match net.read {
        case Read(text) =>
          err := None;
          body := text;
        case ReadFailed(cause) =>
          err := Some(ReadError(cause));
          body := Placeholder(cause);
      }
      if net.status != StatusOK {
        err := Some(StatusError(net.status, net.statusText, body));
      }
    }

    /** Stamps the counters in place, then posts them, and only them. */
    method PostCounters(batch: Batch, net: Exchange, http: HttpClient) returns (err: Option<PostError>)
      modifies batch.counters, http
      ensures forall m :: m in batch.counters ==> m.fields == Stamped(old(m.fields), batch.source, batch.measureTime)
      ensures var post := PostOnce(CounterBatch(StampedAll(old(Snapshot(batch.counters)), batch.source, batch.measureTime)), net);
        err == post.err && http.sent == old(http.sent) + SentBy(Some(post))
    {
      Stamp(batch.counters, batch.source, batch.measureTime);
      var counterBatch := CounterBatch(Snapshot(batch.counters));
      err := Send(counterBatch, net, http);
    }

    /** Stamps the gauges in place, then posts them, and only them. */
    method PostGauges(batch: Batch, net: Exchange, http: HttpClient) returns (err: Option<PostError>)
      modifies batch.gauges, http
      ensures forall m :: m in batch.gauges ==> m.fields == Stamped(old(m.fields), batch.source, batch.measureTime)
      ensures var post := PostOnce(GaugeBatch(StampedAll(old(Snapshot(batch.gauges)), batch.source, batch.measureTime)), net);
        err == post.err && http.sent == old(http.sent) + SentBy(Some(post))
    {
      Stamp(batch.gauges, batch.source, batch.measureTime);
      var gaugeBatch := GaugeBatch(Snapshot(batch.gauges));
      err := Send(gaugeBatch, net, http);
    }

    /**
     * What PostMetrics does to a batch value: the counter post is attempted
     * iff there are counters, the gauge post iff there are gauges, each on
     * its own exchange and whatever the other's outcome; the combined error
     * reports both.
     */
    function Flush(b: BatchView, counterNet: Exchange, gaugeNet: Exchange): (r: FlushOutcome)
      ensures r.counterPost.Some? <==> |b.counters| > 0
      ensures r.gaugePost.Some? <==> |b.gauges| > 0
      ensures r.counterPost.Some? ==>
        r.counterPost.value == PostOnce(CounterBatch(StampedAll(b.counters, b.source, b.measureTime)), counterNet)
      ensures r.gaugePost.Some? ==>
        r.gaugePost.value == PostOnce(GaugeBatch(StampedAll(b.gauges, b.source, b.measureTime)), gaugeNet)
      ensures r.err.Some? <==> Failed(r.counterPost) || Failed(r.gaugePost)
      ensures r.err.Some? ==> r.err.value == MetricsError(ErrorOf(r.gaugePost), ErrorOf(r.counterPost))
      ensures |b.counters| == 0 && |b.gauges| == 0 ==> r.err.None? && r.requests == []
      ensures r.requests == SentBy(r.counterPost) + SentBy(r.gaugePost)
      ensures |r.requests| <= 2
      ensures forall i, j :: 0 <= i < j < |r.requests| ==> r.requests[i].body.CounterBatch? && r.requests[j].body.GaugeBatch?
      ensures forall q :: q in r.requests && q.body.CounterBatch? ==>
        q.body.counters == StampedAll(b.counters, b.source, b.measureTime)
      ensures forall q :: q in r.requests && q.body.GaugeBatch? ==>
        q.body.gauges == StampedAll(b.gauges, b.source, b.measureTime)
    {
      var counterPost :=
        if |b.counters| > 0
        then Some(PostOnce(CounterBatch(StampedAll(b.counters, b.source, b.measureTime)), counterNet))
        else None;
      var gaugePost :=
        if |b.gauges| > 0
        then Some(PostOnce(GaugeBatch(StampedAll(b.gauges, b.source, b.measureTime)), gaugeNet))
        else None;
      FlushOutcome(counterPost, gaugePost, Combine(ErrorOf(counterPost), ErrorOf(gaugePost)),
                   SentBy(counterPost) + SentBy(gaugePost))
    }


    /**
     * PostMetrics: posts the counters if there are any, then the gauges if
     * there are any, and returns one error iff either post failed. The HTTP
     * client receives exactly the requests of the batch's Flush, in order.
     */
    method PostMetrics(batch: Batch, counterNet: Exchange, gaugeNet: Exchange, http: HttpClient)
      returns (err: Option<MetricsError>)
      modifies batch.counters, batch.gauges, http
      ensures err == Flush(old(View(batch)), counterNet, gaugeNet).err
      ensures http.sent == old(http.sent) + Flush(old(View(batch)), counterNet, gaugeNet).requests
      ensures forall m :: m in batch.counters || m in batch.gauges ==>
        m.fields == Stamped(old(m.fields), batch.source, batch.measureTime)
    {
      ghost var f := Flush(View(batch), counterNet, gaugeNet);
      var counterErr: Option<PostError> := None;
      if |batch.counters| > 0 {
        counterErr := PostCounters(batch, counterNet, http);
      }
      assert counterErr == ErrorOf(f.counterPost);
      assert http.sent == old(http.sent) + SentBy(f.counterPost);

      var gaugeErr: Option<PostError> := None;
      if |batch.gauges| > 0 {
        // The counter post may already have stamped gauges shared with it.
        ghost var original, current := old(Snapshot(batch.gauges)), Snapshot(batch.gauges);
        forall i | 0 <= i < |original|
          ensures current[i] == original[i] || current[i] == Stamped(original[i], batch.source, batch.measureTime)
        {
          if batch.gauges[i] in batch.counters {
            assert current[i] == Stamped(original[i], batch.source, batch.measureTime);
          }
        }
        StampedAllAbsorbs(original, current, batch.source, batch.measureTime);
        gaugeErr := PostGauges(batch, gaugeNet, http);
      }
      assert gaugeErr == ErrorOf(f.gaugePost);
      assert http.sent == old(http.sent) + SentBy(f.counterPost) + SentBy(f.gaugePost);
      err := Combine(counterErr, gaugeErr);
      // A map in both collections was stamped twice; without this step the
      // solver runs out of resource on the stamping postcondition.
      forall m | m in batch.counters && m in batch.gauges
        ensures m.fields == Stamped(old(m.fields), batch.source, batch.measureTime)
      {
        StampedIdempotent(old(m.fields), batch.source, batch.measureTime);
      }
    }
  }

  // ---------------------------------------------------------------------------
  // Properties of PostMetrics that relate several calls or name a scenario
  // ---------------------------------------------------------------------------

  /** The gauge post does not depend on what happened to the counter post. */
  lemma GaugePostIndependentOfCounters(client: LibratoClient, b: BatchView,
                                       counterNet1: Exchange, counterNet2: Exchange, gaugeNet: Exchange)
    ensures client.Flush(b, counterNet1, gaugeNet).gaugePost == client.Flush(b, counterNet2, gaugeNet).gaugePost
  {
  }

  /** An empty batch makes no post and returns nil. */
  lemma EmptyBatchIsNoOp(client: LibratoClient, b: BatchView, counterNet: Exchange, gaugeNet: Exchange)
    requires b.counters == [] && b.gauges == []
    ensures client.Flush(b, counterNet, gaugeNet) == FlushOutcome(None, None, None, [])
  {
  }

  /**
   * Counters rejected with status 500, gauges accepted: the combined error
   * names the counter failure and its status, and the gauge request was sent.
   */
  lemma CounterRejectedGaugesDelivered(client: LibratoClient, b: BatchView, statusText: string, read: BodyRead,
                                       gaugeText: string, gaugeBody: string)
    requires |b.counters| > 0 && |b.gauges| > 0
    ensures var f := client.Flush(b, Responded(500, statusText, read), Responded(StatusOK, gaugeText, Read(gaugeBody)));
      && f.err == Some(MetricsError(None, Some(StatusError(500, statusText, ShownBody(read)))))
      && |f.requests| == 2
      && f.requests[1] == client.RequestFor(GaugeBatch(StampedAll(b.gauges, b.source, b.measureTime)))
  {
  }

  /** Every measurement in every request carries the batch's source and measure time. */
  lemma RequestsCarryStamp(client: LibratoClient, b: BatchView, counterNet: Exchange, gaugeNet: Exchange,
                           q: Request, k: nat)
    requires q in client.Flush(b, counterNet, gaugeNet).requests
    requires k < |if q.body.CounterBatch? then q.body.counters else q.body.gauges|
    ensures var m := if q.body.CounterBatch? then q.body.counters[k] else q.body.gauges[k];
      m[SourceKey] == Str(b.source) && m[MeasureTimeKey] == Int64(b.measureTime)
  {
  }
}
