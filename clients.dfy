/**
 * The resilient provider call: each attempt builds a request, runs the
 * transport inside the client's circuit breaker and checks the status; a
 * retry loop makes at most `maxRetries` attempts and retries every error.
 *
 * The network is an input: for every attempt, an `Exchange` says how much
 * time passed before it and what the network did with the request.
 */
module Clients {
  import opened Types
  import opened Breaker
  import Config

  const StatusOK: int := 200

  /** What happens to one attempt's request. */
  datatype Net =
    | Unbuildable                      // marshalling or building the request fails; nothing is sent
    | TransportError                   // the transport reports an error
    | Response(code: int, body: string)
    | UnreadableBody                   // a 200 response whose body cannot be read

  /** One attempt's environment: time elapsed since the previous one, and the network's behaviour. */
  datatype Exchange = Exchange(wait: nat, net: Net)

  datatype Attempt = Delivered(body: string) | Failed(err: AttemptError)

  /** No error is classified as permanent. */
  function IsPermanentError(e: AttemptError): bool
  {
    false
  }

  /** The retry predicate: retry exactly when the attempt returned an error. */
  function RetryIf(e: Option<AttemptError>): (r: bool)
    ensures r <==> e.Some?
  {
    e.Some? && !IsPermanentError(e.value)
  }

  /** The Authorization header: only when both the key and the scheme are non-empty. */
  function AuthHeader(apiKey: string, authType: string): (r: Option<string>)
    ensures r.Some? <==> apiKey != "" && authType != ""
    ensures r.Some? ==> |r.value| == |authType| + 1 + |apiKey| && r.value[..|authType|] == authType && r.value[|authType| + 1..] == apiKey
    ensures r.Some? ==> r.value[|authType|] == ' '
  {
    if apiKey != "" && authType != "" then Some(authType + " " + apiKey) else None
  }

  /** What an admitted request turns into. */
  function Classify(net: Net): Attempt
  {
    match net
    case TransportError => Failed(HttpFailed)
    case Response(code, body) => if code == StatusOK then Delivered(body) else Failed(BadStatus(code))
    case UnreadableBody => Failed(ReadFailed)
    case Unbuildable => Failed(RequestFailed)
  }

  /**
   * One attempt. The breaker wraps only the transport, so it sees a failure
   * exactly for a transport error; any response, whatever its status, is a
   * breaker success.
   */
  function AttemptOnce(k: nat, b: Snapshot, x: Exchange): (r: (Snapshot, Attempt))
    ensures Inv(b) ==> Inv(r.0)
    ensures r.0.clock == b.clock + x.wait
    ensures r.1.Delivered? <==> x.net.Response? && x.net.code == StatusOK && Step(k, Tick(b, x.wait), false).1 == Pass
    ensures r.1.Delivered? ==> r.1.body == x.net.body
    ensures x.net.Unbuildable? ==> r == (Tick(b, x.wait), Failed(RequestFailed))
    ensures !x.net.Unbuildable? ==> r.0 == Step(k, Tick(b, x.wait), x.net.TransportError?).0
    ensures !x.net.Unbuildable? ==>
      var gate := Step(k, Tick(b, x.wait), x.net.TransportError?).1;
      && (gate == RejectOpen ==> r.1 == Failed(CircuitOpen))
      && (gate == RejectTooMany ==> r.1 == Failed(TooManyRequests))
      && (gate == Pass && x.net.TransportError? ==> r.1 == Failed(HttpFailed))
      && (gate == Pass && x.net.UnreadableBody? ==> r.1 == Failed(ReadFailed))
      && (gate == Pass && x.net.Response? && x.net.code != StatusOK ==> r.1 == Failed(BadStatus(x.net.code)))
  {
    var b := Tick(b, x.wait);
    if x.net.Unbuildable? then (b, Failed(RequestFailed))
    else
      var (b', gate) := Step(k, b, x.net.TransportError?);
      match gate
      case Pass => (b', Classify(x.net))
      case RejectOpen => (b', Failed(CircuitOpen))
      case RejectTooMany => (b', Failed(TooManyRequests))
  }

  /**
   * The breaker's view of an attempt depends only on whether the transport
   * failed: two responses with any status codes leave the same breaker state.
   */
  lemma BreakerSeesOnlyTransport(k: nat, b: Snapshot, w: nat, n1: Net, n2: Net)
    requires !n1.Unbuildable? && !n2.Unbuildable?
    requires n1.TransportError? == n2.TransportError?
    ensures AttemptOnce(k, b, Exchange(w, n1)).0 == AttemptOnce(k, b, Exchange(w, n2)).0
  {
  }

  /** A non-200 status fails the attempt but is recorded as a breaker success. */
  lemma BadStatusIsBreakerSuccess(k: nat, b: Snapshot, w: nat, code: int, body: string)
    requires code != StatusOK
    requires Step(k, Tick(b, w), false).1 == Pass
    ensures AttemptOnce(k, b, Exchange(w, Response(code, body))) == (Step(k, Tick(b, w), false).0, Failed(BadStatus(code)))
  {
  }

  /** Whether the retry loop goes on after attempt `a`. */
  function Continues(a: Attempt): bool
  {
    a.Failed? && RetryIf(Some(a.err))
  }

  /**
   * The retry loop over the planned attempts: stop at the first delivered
   * body; otherwise retry while the retry predicate allows.
   */
  function Retry(k: nat, b: Snapshot, xs: seq<Exchange>): (r: (Snapshot, seq<Attempt>))
    ensures |r.1| <= |xs|
    ensures xs != [] ==> r.1 != []
    ensures forall j :: 0 <= j < |r.1| - 1 ==> r.1[j].Failed?
    ensures |r.1| == |xs| || r.1[|r.1| - 1].Delivered?
    ensures Inv(b) ==> Inv(r.0)
    decreases |xs|
  {
    if xs == [] then (b, [])
    else
      var (b1, a) := AttemptOnce(k, b, xs[0]);
      if !Continues(a) then (b1, [a])
      else
        var (b2, rest) := Retry(k, b1, xs[1..]);
        (b2, [a] + rest)
  }

  /** The errors of the failed attempts, in order. */
  function Errors(trace: seq<Attempt>): (r: seq<AttemptError>)
    ensures (forall j :: 0 <= j < |trace| ==> trace[j].Failed?) ==>
      |r| == |trace| && forall j :: 0 <= j < |trace| ==> trace[j] == Failed(r[j])
    decreases |trace|
  {
    if trace == [] then []
    else (if trace[0].Failed? then [trace[0].err] else []) + Errors(trace[1..])
  }

  /** The response the retry loop reports for the attempts it made. */
  function Outcome(source: string, trace: seq<Attempt>): ApiResponse
  {
    if trace != [] && trace[|trace| - 1].Delivered? then ApiResponse(source, trace[|trace| - 1].body, None)
    else ApiResponse(source, "", Some(RetryExhausted(Errors(trace))))
  }

  /**
   * The whole provider call: at most `maxRetries` attempts; the first 200
   * response's body, or, after every attempt failed, an error listing the
   * `maxRetries` attempt errors. Either way the response names its source.
   */
  function CallSpec(k: nat, b: Snapshot, source: string, maxRetries: nat, xs: seq<Exchange>): (r: (Snapshot, ApiResponse))
    requires 1 <= maxRetries <= |xs|
    ensures var trace := Retry(k, b, xs[..maxRetries]).1;
      && r.0 == Retry(k, b, xs[..maxRetries]).0
      && r.1.source == source
      && 1 <= |trace| <= maxRetries
      && (r.1.error.None? <==> trace[|trace| - 1].Delivered?)
      && (r.1.error.None? ==> r.1.message == trace[|trace| - 1].body)
      && (r.1.error.Some? ==>
            && |trace| == maxRetries
            && r.1.message == ""
            && |r.1.error.value.attempts| == maxRetries
            && forall j :: 0 <= j < maxRetries ==> trace[j] == Failed(r.1.error.value.attempts[j]))
    ensures Inv(b) ==> Inv(r.0)
  {
    var (b', trace) := Retry(k, b, xs[..maxRetries]);
    (b', Outcome(source, trace))
  }

  /** Total time elapsed over a plan of attempts. */
  function Waited(xs: seq<Exchange>): nat
    decreases |xs|
  {
    if xs == [] then 0 else xs[0].wait + Waited(xs[1..])
  }

  /**
   * An Open breaker whose cooldown outlasts the whole plan rejects every
   * attempt that gets as far as the breaker, without consulting the network:
   * the outcome does not depend on what the network would have done.
   */
  lemma {:induction false} OpenShortCircuits(k: nat, b: Snapshot, xs: seq<Exchange>)
    requires b.state == Open
    requires b.clock + Waited(xs) < b.openedAt + Timeout
    requires forall j :: 0 <= j < |xs| ==> !xs[j].net.Unbuildable?
    ensures Retry(k, b, xs) == (b.(clock := b.clock + Waited(xs)), seq(|xs|, j => Failed(CircuitOpen)))
    decreases |xs|
  {
    if xs != [] {
      var b1 := b.(clock := b.clock + xs[0].wait);
      assert AttemptOnce(k, b, xs[0]) == (b1, Failed(CircuitOpen));
      assert forall j :: 0 <= j < |xs[1..]| ==> !xs[1..][j].net.Unbuildable? by {
        forall j | 0 <= j < |xs[1..]| ensures !xs[1..][j].net.Unbuildable? {
          assert xs[1..][j] == xs[j + 1];
        }
      }
      OpenShortCircuits(k, b1, xs[1..]);
      var rest := seq(|xs| - 1, j => Failed(CircuitOpen));
      assert Retry(k, b, xs) == (b1.(clock := b1.clock + Waited(xs[1..])), [Failed(CircuitOpen)] + rest);
      assert [Failed(CircuitOpen)] + rest == seq(|xs|, j => Failed(CircuitOpen));
    } else {
      assert seq(|xs|, j => Failed(CircuitOpen)) == [];
      assert b.(clock := b.clock + Waited(xs)) == b;
    }
  }

  /** The elapsed times of a plan of attempts, in order. */
  function Waits(xs: seq<Exchange>): (r: seq<nat>)
    ensures |r| == |xs| && forall j :: 0 <= j < |xs| ==> r[j] == xs[j].wait
  {
    seq(|xs|, j requires 0 <= j < |xs| => xs[j].wait)
  }

  lemma {:induction false} WaitsSum(xs: seq<Exchange>)
    ensures Sum(Waits(xs)) == Waited(xs)
    decreases |xs|
  {
    if xs != [] {
      assert Waits(xs)[1..] == Waits(xs[1..]);
      WaitsSum(xs[1..]);
    }
  }

  /**
   * A provider outage, every attempt a transport error: each attempt is
   * admitted or rejected by the breaker exactly as a run of consecutive
   * failures, and every planned attempt is made.
   */
  lemma {:induction false} OutageIsFailures(k: nat, b: Snapshot, xs: seq<Exchange>)
    requires forall j :: 0 <= j < |xs| ==> xs[j].net.TransportError?
    ensures Retry(k, b, xs).0 == Failures(k, b, Waits(xs))
    ensures |Retry(k, b, xs).1| == |xs|
    decreases |xs|
  {
    if xs != [] {
      var (b1, a) := AttemptOnce(k, b, xs[0]);
      assert b1 == Step(k, Tick(b, xs[0].wait), true).0;
      assert Continues(a);
      assert Waits(xs)[1..] == Waits(xs[1..]);
      OutageIsFailures(k, b1, xs[1..]);
    }
  }

  /**
   * A Closed breaker inside its count window that meets an outage short of
   * tripping counts every failed attempt.
   */
  lemma OutageCountsFailures(k: nat, b: Snapshot, xs: seq<Exchange>)
    requires forall j :: 0 <= j < |xs| ==> xs[j].net.TransportError?
    requires b.state == Closed && b.consecutiveFailures + |xs| <= TripAbove
    requires b.clock + Waited(xs) < b.windowStart + Interval
    ensures Retry(k, b, xs).0 == b.(consecutiveFailures := b.consecutiveFailures + |xs|, clock := b.clock + Waited(xs))
  {
    OutageIsFailures(k, b, xs);
    WaitsSum(xs);
    FailuresAccumulate(k, b, Waits(xs));
  }

  /** The provider's name, as reported in every response. */
  datatype Provider = OpenAI | HuggingFace | Gemini

  function SourceName(p: Provider): (r: string)
    ensures r != ""
  {
    match p
    case OpenAI => "OpenAI"
    case HuggingFace => "HuggingFace"
    case Gemini => "Gemini"
  }

  /** Each provider reports a name of its own. */
  lemma SourceNamesDistinct(p: Provider, q: Provider)
    ensures SourceName(p) == SourceName(q) <==> p == q
  {
  }

  /** A provider client: its settings never change; only its breaker does. */
  datatype Client = Client(
    provider: Provider,
    apiKey: string,
    url: string,
    maxRetries: nat,
    retryDelay: nat,
    breaker: CircuitBreaker)

  function Source(c: Client): string
  {
    SourceName(c.provider)
  }

  /** Gemini carries its key as a query parameter instead of a header. */
  function GeminiUrl(base: string, key: string): (r: string)
    ensures |r| == |base| + 5 + |key| && r[..|base|] == base && r[|base|..|base| + 5] == "?key=" && r[|base| + 5..] == key
  {
    base + "?key=" + key
  }

  /** The key and scheme each client hands to the call: Gemini passes none. */
  function AuthArgs(c: Client): (string, string)
  {
    if c.provider == Gemini then ("", "") else (c.apiKey, "Bearer")
  }

  /** OpenAI and HuggingFace send a Bearer header when they have a key; Gemini never sends one. */
  lemma RequestAuthorization(c: Client)
    ensures AuthHeader(AuthArgs(c).0, AuthArgs(c).1).Some? <==> c.provider != Gemini && c.apiKey != ""
    ensures AuthHeader(AuthArgs(c).0, AuthArgs(c).1).Some? ==> AuthHeader(AuthArgs(c).0, AuthArgs(c).1).value == "Bearer " + c.apiKey
  {
  }

  /** Builds one provider's client with its own, new breaker. */
  method NewClient(p: Provider, cfg: Config.Config, successesToClose: nat, now: nat) returns (c: Client)
    requires 1 <= successesToClose <= MaxRequests
    ensures c.provider == p && fresh(c.breaker)
    ensures c.breaker.View() == ClosedAt(now) && c.breaker.successesToClose == successesToClose
    ensures c.maxRetries == cfg.maxRetries && c.retryDelay == cfg.retryDelay
    ensures p == OpenAI ==> c.apiKey == cfg.openAIKey && c.url == cfg.openAIURL
    ensures p == HuggingFace ==> c.apiKey == cfg.huggingFaceKey && c.url == cfg.huggingFaceURL
    ensures p == Gemini ==> c.apiKey == cfg.geminiKey && c.url == GeminiUrl(cfg.geminiURL, cfg.geminiKey)
  {
    var cb := new CircuitBreaker(successesToClose, now);
    match p
    case OpenAI => c := Client(p, cfg.openAIKey, cfg.openAIURL, cfg.maxRetries, cfg.retryDelay, cb);
    case HuggingFace => c := Client(p, cfg.huggingFaceKey, cfg.huggingFaceURL, cfg.maxRetries, cfg.retryDelay, cb);
    case Gemini => c := Client(p, cfg.geminiKey, GeminiUrl(cfg.geminiURL, cfg.geminiKey), cfg.maxRetries, cfg.retryDelay, cb);
  }

  /** One attempt against the client's breaker. */
  method RunAttempt(cb: CircuitBreaker, x: Exchange) returns (a: Attempt)
    modifies cb
    ensures (cb.View(), a) == AttemptOnce(cb.successesToClose, old(cb.View()), x)
  {
    cb.Advance(x.wait);
    if x.net.Unbuildable? {
      return Failed(RequestFailed);
    }
    var gate := cb.Execute(x.net.TransportError?);
    match gate
    case Pass => a := Classify(x.net);
    case RejectOpen => a := Failed(CircuitOpen);
    case RejectTooMany => a := Failed(TooManyRequests);
  }

  /** What remains of the retry loop over `plan`, from breaker state `b`. */
  function Remaining(k: nat, b: Snapshot, plan: seq<Exchange>, running: bool): (Snapshot, seq<Attempt>)
  {
    if running then Retry(k, b, plan) else (b, [])
  }

  function Join(trace: seq<Attempt>, rest: (Snapshot, seq<Attempt>)): (Snapshot, seq<Attempt>)
  {
    (rest.0, trace + rest.1)
  }

  /** One turn of the retry loop, in terms of the attempts still planned. */
  lemma RetryStep(k: nat, b: Snapshot, plan: seq<Exchange>, trace: seq<Attempt>)
    requires plan != []
    ensures var (b1, a) := AttemptOnce(k, b, plan[0]);
      Join(trace, Retry(k, b, plan)) == Join(trace + [a], Remaining(k, b1, plan[1..], Continues(a)))
  {
    var (b1, a) := AttemptOnce(k, b, plan[0]);
    if Continues(a) {
      var rest := Retry(k, b1, plan[1..]);
      assert Retry(k, b, plan) == (rest.0, [a] + rest.1);
      assert trace + ([a] + rest.1) == (trace + [a]) + rest.1;
    } else {
      assert Retry(k, b, plan) == (b1, [a]);
      assert trace + [a] + [] == trace + [a];
    }
  }

  lemma CallSpecUnfold(k: nat, b: Snapshot, source: string, maxRetries: nat, xs: seq<Exchange>)
    requires 1 <= maxRetries <= |xs|
    ensures CallSpec(k, b, source, maxRetries, xs) ==
      (Retry(k, b, xs[..maxRetries]).0, Outcome(source, Retry(k, b, xs[..maxRetries]).1))
  {
  }

  /**
   * One provider call: attempts until one delivers a body, the retry
   * predicate refuses, or `maxRetries` attempts have been made; then reports
   * the body or the attempts' errors, tagged with the source.
   */
  method CallAPI(source: string, maxRetries: nat, cb: CircuitBreaker, xs: seq<Exchange>) returns (r: ApiResponse)
    requires 1 <= maxRetries <= |xs|
    modifies cb
    ensures (cb.View(), r) == CallSpec(cb.successesToClose, old(cb.View()), source, maxRetries, xs)
  {
    ghost var k := cb.successesToClose;
    ghost var b0 := cb.View();
    ghost var plan := xs[..maxRetries];
    var attempts: seq<Attempt> := [];
    var running := true;
    var i := 0;
    assert plan[i..] == plan;
    assert [] + Retry(k, b0, plan).1 == Retry(k, b0, plan).1;
    while running && i < maxRetries
      invariant 0 <= i <= maxRetries && |attempts| == i
      invariant Retry(k, b0, plan) == Join(attempts, Remaining(k, cb.View(), plan[i..], running))
    {
      ghost var before := cb.View();
      var a := RunAttempt(cb, xs[i]);
      assert plan[i..][0] == xs[i] && plan[i..][1..] == plan[i + 1..];
      RetryStep(k, before, plan[i..], attempts);
      attempts := attempts + [a];
      i := i + 1;
      running := Continues(a);
    }
    if running {
      assert plan[i..] == [];
    }
    assert attempts + [] == attempts;
    r := Outcome(source, attempts);
    CallSpecUnfold(k, b0, source, maxRetries, xs);
  }

  /** A provider's `Call`: the resilient call, tagged with the provider's name. */
  method Call(c: Client, prompt: string, xs: seq<Exchange>) returns (r: ApiResponse)
    requires 1 <= c.maxRetries <= |xs|
    modifies c.breaker
    ensures (c.breaker.View(), r) == CallSpec(c.breaker.successesToClose, old(c.breaker.View()), Source(c), c.maxRetries, xs)
  {
    r := CallAPI(Source(c), c.maxRetries, c.breaker, xs);
  }
}
