/**
 * The facade: one client per provider, a fan-out/fan-in that collects one
 * response from every client, and the HTTP handler's status decision.
 *
 * The concurrent calls are modelled one after another in completion order,
 * which is an input (`order`): each client's call touches only its own
 * breaker, so the order changes only where each response lands in the
 * collected sequence.
 */
module Facade {
  import opened Types
  import opened Breaker
  import opened Clients
  import Config

  datatype Facade = Facade(clients: seq<Client>)

  /** No two clients share a breaker. */
  ghost predicate Valid(f: Facade)
  {
    forall i, j :: 0 <= i < |f.clients| && 0 <= j < |f.clients| && i != j ==> f.clients[i].breaker != f.clients[j].breaker
  }

  function Breakers(f: Facade): set<CircuitBreaker>
  {
    set i | 0 <= i < |f.clients| :: f.clients[i].breaker
  }

  function Sources(cs: seq<Client>): (r: seq<string>)
    ensures |r| == |cs| && forall i :: 0 <= i < |cs| ==> r[i] == Source(cs[i])
  {
    seq(|cs|, i requires 0 <= i < |cs| => Source(cs[i]))
  }

  function SourcesOf(rs: seq<ApiResponse>): (r: seq<string>)
    ensures |r| == |rs| && forall i :: 0 <= i < |rs| ==> r[i] == rs[i].source
  {
    seq(|rs|, i requires 0 <= i < |rs| => rs[i].source)
  }

  /** The breaker states of the clients, in client order. */
  function Views(cs: seq<Client>): (r: seq<Snapshot>)
    reads set i | 0 <= i < |cs| :: cs[i].breaker
    ensures |r| == |cs| && forall i :: 0 <= i < |cs| ==> r[i] == cs[i].breaker.View()
    decreases |cs|
  {
    if cs == [] then [] else [cs[0].breaker.View()] + Views(cs[1..])
  }

  /** Every client has a plan covering all the attempts it may make. */
  predicate Ready(f: Facade, env: seq<seq<Exchange>>)
  {
    |env| == |f.clients| && forall i :: 0 <= i < |f.clients| ==> 1 <= f.clients[i].maxRetries <= |env[i]|
  }

  /** Client `i`'s call, from breaker state `v`: its new breaker state and its response. */
  function CallOf(f: Facade, i: nat, v: Snapshot, env: seq<seq<Exchange>>): (Snapshot, ApiResponse)
    requires Ready(f, env) && i < |f.clients|
  {
    var c := f.clients[i];
    CallSpec(c.breaker.successesToClose, v, Source(c), c.maxRetries, env[i])
  }

  /** Every client's response, in client order. */
  function Outputs(f: Facade, views: seq<Snapshot>, env: seq<seq<Exchange>>): (r: seq<ApiResponse>)
    requires Ready(f, env) && |views| == |f.clients|
    ensures |r| == |f.clients| && forall i :: 0 <= i < |f.clients| ==> r[i] == CallOf(f, i, views[i], env).1
  {
    seq(|f.clients|, i requires 0 <= i < |f.clients| => CallOf(f, i, views[i], env).1)
  }

  /** Every client's breaker state after its call, in client order. */
  function Finals(f: Facade, views: seq<Snapshot>, env: seq<seq<Exchange>>): (r: seq<Snapshot>)
    requires Ready(f, env) && |views| == |f.clients|
    ensures |r| == |f.clients| && forall i :: 0 <= i < |f.clients| ==> r[i] == CallOf(f, i, views[i], env).0
  {
    seq(|f.clients|, i requires 0 <= i < |f.clients| => CallOf(f, i, views[i], env).0)
  }

  /** The indices lo, lo+1, ..., hi-1. */
  function Range(lo: nat, hi: nat): (r: seq<nat>)
    ensures |r| == if lo <= hi then hi - lo else 0
    decreases hi - lo
  {
    if lo >= hi then [] else [lo] + Range(lo + 1, hi)
  }

  /** `order` lists every one of `n` clients exactly once. */
  ghost predicate IsPermutation(order: seq<nat>, n: nat)
  {
    multiset(order) == multiset(Range(0, n))
  }

  /** Every index in `a` is below `n`. */
  predicate Below(a: seq<nat>, n: nat)
  {
    forall j :: 0 <= j < |a| ==> a[j] < n
  }

  /** The elements of `s` picked in the order the indices `a` give. */
  function Permute<T>(s: seq<T>, a: seq<nat>): (r: seq<T>)
    requires Below(a, |s|)
    ensures |r| == |a|
    decreases |a|
  {
    if a == [] then [] else [s[a[0]]] + Permute(s, a[1..])
  }

  lemma {:induction false} RangeMembers(lo: nat, hi: nat, x: nat)
    ensures x in Range(lo, hi) <==> lo <= x < hi
    decreases hi - lo
  {
    if lo < hi {
      RangeMembers(lo + 1, hi, x);
    }
  }

  lemma {:induction false} RangeOnce(lo: nat, hi: nat, x: nat)
    ensures multiset(Range(lo, hi))[x] <= 1
    decreases hi - lo
  {
    if lo < hi {
      RangeOnce(lo + 1, hi, x);
      RangeMembers(lo + 1, hi, lo);
      assert multiset(Range(lo, hi)) == multiset{lo} + multiset(Range(lo + 1, hi));
    }
  }

  /** A permutation of the client indices names each client once and no other. */
  lemma PermutationFacts(order: seq<nat>, n: nat)
    requires IsPermutation(order, n)
    ensures |order| == n
    ensures Below(order, n)
    ensures forall i :: 0 <= i < n ==> i in order
    ensures forall k :: 0 <= k < |order| ==> order[k] !in order[..k]
  {
    calc {
      |order|;
      |multiset(order)|;
      |multiset(Range(0, n))|;
      |Range(0, n)|;
    }
    forall j | 0 <= j < |order| ensures order[j] < n {
      assert order[j] in multiset(order);
      RangeMembers(0, n, order[j]);
    }
    forall i | 0 <= i < n ensures i in order {
      RangeMembers(0, n, i);
      assert i in multiset(order);
    }
    forall k | 0 <= k < |order| ensures order[k] !in order[..k] {
      var x := order[k];
      if x in order[..k] {
        assert order == order[..k] + order[k..];
        assert x in order[k..];
        assert multiset(order)[x] == multiset(order[..k])[x] + multiset(order[k..])[x];
        RangeOnce(0, n, x);
        assert false;
      }
    }
  }

  lemma {:induction false} PermuteConcat<T>(s: seq<T>, a: seq<nat>, b: seq<nat>)
    requires Below(a, |s|) && Below(b, |s|)
    ensures Below(a + b, |s|)
    ensures Permute(s, a + b) == Permute(s, a) + Permute(s, b)
    decreases |a|
  {
    if a == [] {
      assert a + b == b;
    } else {
      DropFirst(a, |s|);
      PermuteConcat(s, a[1..], b);
      assert (a + b)[0] == a[0] && (a + b)[1..] == a[1..] + b;
      calc {
        Permute(s, a + b);
        [s[a[0]]] + Permute(s, a[1..] + b);
        [s[a[0]]] + (Permute(s, a[1..]) + Permute(s, b));
        ([s[a[0]]] + Permute(s, a[1..])) + Permute(s, b);
      }
    }
  }

  /** Picking by one more index appends one more element. */
  lemma PermuteSnoc<T>(s: seq<T>, a: seq<nat>, k: nat)
    requires Below(a, |s|) && k < |a|
    ensures Below(a[..k], |s|) && Below(a[..k + 1], |s|)
    ensures Permute(s, a[..k + 1]) == Permute(s, a[..k]) + [s[a[k]]]
  {
    assert a[..k + 1] == a[..k] + [a[k]];
    PermuteConcat(s, a[..k], [a[k]]);
  }

  /** Entry `j` of the picked sequence is the element at index `a[j]`. */
  lemma {:induction false} PermuteAt<T>(s: seq<T>, a: seq<nat>, j: nat)
    requires Below(a, |s|) && j < |a|
    ensures Permute(s, a)[j] == s[a[j]]
    decreases j
  {
    if j > 0 {
      PermuteAt(s, a[1..], j - 1);
    }
  }

  lemma {:induction false} PermuteRange<T>(s: seq<T>, lo: nat)
    requires lo <= |s|
    ensures Below(Range(lo, |s|), |s|)
    ensures Permute(s, Range(lo, |s|)) == s[lo..]
    decreases |s| - lo
  {
    if lo < |s| {
      PermuteRange(s, lo + 1);
      assert Range(lo, |s|) == [lo] + Range(lo + 1, |s|);
      assert s[lo..] == [s[lo]] + s[lo + 1..];
    }
  }

  /** Taking out entry `j` of `b` takes one copy of `b[j]` out of its multiset. */
  lemma RemoveAt(b: seq<nat>, j: nat, n: nat)
    requires j < |b| && Below(b, n)
    ensures Below(b[..j], n) && Below(b[j + 1..], n)
    ensures b == b[..j] + [b[j]] + b[j + 1..]
    ensures multiset(b[..j] + b[j + 1..]) == multiset(b) - multiset{b[j]}
  {
    assert b == b[..j] + [b[j]] + b[j + 1..];
    assert multiset(b) == multiset(b[..j] + b[j + 1..]) + multiset{b[j]};
  }

  /** Dropping the first index keeps the rest below the bound and removes one copy of it. */
  lemma DropFirst(a: seq<nat>, n: nat)
    requires a != [] && Below(a, n)
    ensures Below(a[1..], n)
    ensures multiset(a[1..]) == multiset(a) - multiset{a[0]}
  {
    assert a == [a[0]] + a[1..];
  }

  /** Picking by `b1 + [x] + b2` picks `s[x]` once more than picking by `b1 + b2`. */
  lemma Spliced<T>(s: seq<T>, b1: seq<nat>, x: nat, b2: seq<nat>)
    requires Below(b1, |s|) && x < |s| && Below(b2, |s|)
    ensures Below(b1 + [x] + b2, |s|) && Below(b1 + b2, |s|)
    ensures multiset(Permute(s, b1 + [x] + b2)) == multiset(Permute(s, b1 + b2)) + multiset{s[x]}
  {
    PermuteConcat(s, b1, [x]);
    PermuteConcat(s, b1 + [x], b2);
    PermuteConcat(s, b1, b2);
  }

  /**
   * The step of the induction below: `a` starts with `b[j]`, and the rests
   * pick the same multiset.
   */
  lemma PermuteMultisetStep<T>(s: seq<T>, a: seq<nat>, b: seq<nat>, j: nat)
    requires Below(a, |s|) && Below(b, |s|) && a != [] && j < |b| && b[j] == a[0]
    requires Below(a[1..], |s|) && Below(b[..j] + b[j + 1..], |s|)
    requires multiset(Permute(s, a[1..])) == multiset(Permute(s, b[..j] + b[j + 1..]))
    ensures multiset(Permute(s, a)) == multiset(Permute(s, b))
  {
    var x, b1, b2 := a[0], b[..j], b[j + 1..];
    assert Below(b1, |s|) && Below(b2, |s|) by {
      RemoveAt(b, j, |s|);
    }
    calc {
      multiset(Permute(s, a));
      multiset([s[x]] + Permute(s, a[1..]));
      multiset(Permute(s, a[1..])) + multiset{s[x]};
      multiset(Permute(s, b1 + b2)) + multiset{s[x]};
      { Spliced(s, b1, x, b2); }
      multiset(Permute(s, b1 + [x] + b2));
      { RemoveAt(b, j, |s|); }
      multiset(Permute(s, b));
    }
  }

  /** Picking by two index lists with the same multiset gives the same multiset. */
  lemma {:induction false} PermuteMultiset<T>(s: seq<T>, a: seq<nat>, b: seq<nat>)
    requires Below(a, |s|) && Below(b, |s|)
    requires multiset(a) == multiset(b)
    ensures multiset(Permute(s, a)) == multiset(Permute(s, b))
    decreases |a|
  {
    if a == [] {
      assert |b| == |multiset(b)| == 0;
    } else {
      assert a[0] in multiset(b) by {
        assert a[0] in multiset(a);
      }
      var j :| 0 <= j < |b| && b[j] == a[0];
      RemoveAt(b, j, |s|);
      DropFirst(a, |s|);
      assert Below(b[..j] + b[j + 1..], |s|) by {
        PermuteConcat(s, b[..j], b[j + 1..]);
      }
      PermuteMultiset(s, a[1..], b[..j] + b[j + 1..]);
      PermuteMultisetStep(s, a, b, j);
    }
  }

  /** Collecting along a permutation yields every element exactly once. */
  lemma CollectedIsPermutation<T>(s: seq<T>, order: seq<nat>)
    requires IsPermutation(order, |s|)
    ensures Below(order, |s|)
    ensures |Permute(s, order)| == |s|
    ensures multiset(Permute(s, order)) == multiset(s)
  {
    PermutationFacts(order, |s|);
    PermuteRange(s, 0);
    PermuteMultiset(s, order, Range(0, |s|));
  }

  /** Builds the three provider clients, each with its own new breaker. */
  method NewFacade(cfg: Config.Config, successesToClose: nat, now: nat) returns (f: Facade)
    requires 1 <= successesToClose <= MaxRequests
    ensures Valid(f)
    ensures Sources(f.clients) == ["OpenAI", "HuggingFace", "Gemini"]
    ensures forall i :: 0 <= i < |f.clients| ==>
      && fresh(f.clients[i].breaker)
      && f.clients[i].breaker.View() == ClosedAt(now)
      && f.clients[i].breaker.successesToClose == successesToClose
      && f.clients[i].maxRetries == cfg.maxRetries
      && f.clients[i].retryDelay == cfg.retryDelay
    ensures f.clients[0].apiKey == cfg.openAIKey && f.clients[0].url == cfg.openAIURL
    ensures f.clients[1].apiKey == cfg.huggingFaceKey && f.clients[1].url == cfg.huggingFaceURL
    ensures f.clients[2].apiKey == cfg.geminiKey && f.clients[2].url == GeminiUrl(cfg.geminiURL, cfg.geminiKey)
  {
    var openAI := NewClient(OpenAI, cfg, successesToClose, now);
    var huggingFace := NewClient(HuggingFace, cfg, successesToClose, now);
    var gemini := NewClient(Gemini, cfg, successesToClose, now);
    f := Facade([openAI, huggingFace, gemini]);
  }

  /**
   * GetMergedResults: every client is called once and its response
   * collected, in completion order. The result always has one entry per
   * client, whatever failed; each breaker moves only by its own client's
   * call.
   */
  method GetMergedResults(f: Facade, prompt: string, env: seq<seq<Exchange>>, order: seq<nat>)
    returns (m: MergedApiResponse)
    requires Valid(f) && Ready(f, env) && IsPermutation(order, |f.clients|)
    modifies Breakers(f)
    ensures Below(order, |f.clients|)
    ensures m.results == Permute(Outputs(f, old(Views(f.clients)), env), order)
    ensures Views(f.clients) == Finals(f, old(Views(f.clients)), env)
  {
    ghost var views := Views(f.clients);
    ghost var outs := Outputs(f, views, env);
    ghost var after := Finals(f, views, env);
    PermutationFacts(order, |f.clients|);
    var results: seq<ApiResponse> := [];
    var k := 0;
    while k < |order|
      invariant 0 <= k <= |order|
      invariant results == Permute(outs, order[..k])
      invariant forall i :: 0 <= i < |f.clients| ==> f.clients[i].breaker.View() == if i in order[..k] then after[i] else views[i]
    {
      var i := order[k];
      var r := CallClient(f, i, prompt, env);
      PermuteSnoc(outs, order, k);
      results := results + [r];
      k := k + 1;
    }
    assert order[..k] == order;
    m := MergedApiResponse(results);
  }

  /** One client's call; the other clients' breakers are untouched. */
  method CallClient(f: Facade, i: nat, prompt: string, env: seq<seq<Exchange>>) returns (r: ApiResponse)
    requires Valid(f) && Ready(f, env) && i < |f.clients|
    modifies f.clients[i].breaker
    ensures (f.clients[i].breaker.View(), r) == CallOf(f, i, old(f.clients[i].breaker.View()), env)
    ensures forall j :: 0 <= j < |f.clients| && j != i ==> f.clients[j].breaker.View() == old(f.clients[j].breaker.View())
  {
    r := Call(f.clients[i], prompt, env[i]);
  }

  /**
   * The collected responses are exactly the clients' responses, each once:
   * one entry per client, entry `j` being client `order[j]`'s response.
   */
  lemma MergedIsPermutation(f: Facade, views: seq<Snapshot>, env: seq<seq<Exchange>>, order: seq<nat>)
    requires Ready(f, env) && |views| == |f.clients| && IsPermutation(order, |f.clients|)
    ensures Below(order, |f.clients|)
    ensures |Permute(Outputs(f, views, env), order)| == |f.clients|
    ensures multiset(Permute(Outputs(f, views, env), order)) == multiset(Outputs(f, views, env))
    ensures forall j :: 0 <= j < |order| ==> Permute(Outputs(f, views, env), order)[j] == CallOf(f, order[j], views[order[j]], env).1
  {
    var outs := Outputs(f, views, env);
    CollectedIsPermutation(outs, order);
    forall j | 0 <= j < |order| ensures Permute(outs, order)[j] == CallOf(f, order[j], views[order[j]], env).1 {
      PermuteAt(outs, order, j);
    }
  }

  /** Taking sources commutes with picking. */
  lemma {:induction false} SourcesOfPermute(rs: seq<ApiResponse>, a: seq<nat>)
    requires Below(a, |rs|)
    ensures Below(a, |SourcesOf(rs)|)
    ensures SourcesOf(Permute(rs, a)) == Permute(SourcesOf(rs), a)
    decreases |a|
  {
    if a != [] {
      DropFirst(a, |rs|);
      SourcesOfPermute(rs, a[1..]);
      assert Permute(rs, a) == [rs[a[0]]] + Permute(rs, a[1..]);
    }
  }

  /** Each response names its client, so the sources collected are the clients' names, each once. */
  lemma MergedSources(f: Facade, views: seq<Snapshot>, env: seq<seq<Exchange>>, order: seq<nat>)
    requires Ready(f, env) && |views| == |f.clients| && IsPermutation(order, |f.clients|)
    requires Sources(f.clients) == ["OpenAI", "HuggingFace", "Gemini"]
    ensures Below(order, |f.clients|)
    ensures multiset(SourcesOf(Permute(Outputs(f, views, env), order))) == multiset{"OpenAI", "HuggingFace", "Gemini"}
  {
    var outs := Outputs(f, views, env);
    assert SourcesOf(outs) == Sources(f.clients);
    CollectedIsPermutation(SourcesOf(outs), order);
    SourcesOfPermute(outs, order);
  }

  datatype ReplyBody = MissingPrompt | ProviderFailed(source: string, error: ErrorKind) | Merged(result: MergedApiResponse)

  datatype Reply = Reply(status: nat, body: ReplyBody)

  /** Entry `j` is the first one carrying an error. */
  predicate FailsFirst(rs: seq<ApiResponse>, j: int)
  {
    0 <= j < |rs| && rs[j].error.Some? && forall l :: 0 <= l < j ==> rs[l].error.None?
  }

  /** The position of the first response carrying an error, if any. */
  function FirstError(rs: seq<ApiResponse>): (r: Option<nat>)
    ensures r.Some? ==> FailsFirst(rs, r.value)
    ensures r.None? ==> forall j :: 0 <= j < |rs| ==> rs[j].error.None?
    decreases |rs|
  {
    if rs == [] then None
    else if rs[0].error.Some? then Some(0)
    else match FirstError(rs[1..])
      case None => None
      case Some(j) => Some(j + 1)
  }

  /**
   * The handler's reply to a merged result: 200 with the whole result when
   * no entry carries an error, otherwise 500 naming the first failed entry in
   * collection order.
   */
  function Respond(m: MergedApiResponse): (r: Reply)
    ensures r.status == 200 <==> forall j :: 0 <= j < |m.results| ==> m.results[j].error.None?
    ensures r.status == 200 ==> r.body == Merged(m)
    ensures r.status != 200 ==> r.status == 500 && exists j :: FailsFirst(m.results, j) && r.body == ProviderFailed(m.results[j].source, m.results[j].error.value)
  {
    match FirstError(m.results)
    case None => Reply(200, Merged(m))
    case Some(j) => Reply(500, ProviderFailed(m.results[j].source, m.results[j].error.value))
  }

  /**
   * The HTTP handler: an empty prompt is answered 400 without calling any
   * provider; otherwise the merged result decides the reply.
   */
  method Handler(f: Facade, prompt: string, env: seq<seq<Exchange>>, order: seq<nat>) returns (reply: Reply)
    requires Valid(f) && Ready(f, env) && IsPermutation(order, |f.clients|)
    modifies Breakers(f)
    ensures Below(order, |f.clients|)
    ensures prompt == "" ==> reply == Reply(400, MissingPrompt) && unchanged(Breakers(f))
    ensures prompt != "" ==> reply == Respond(MergedApiResponse(Permute(Outputs(f, old(Views(f.clients)), env), order)))
    ensures prompt != "" ==> Views(f.clients) == Finals(f, old(Views(f.clients)), env)
  {
    PermutationFacts(order, |f.clients|);
    if prompt == "" {
      return Reply(400, MissingPrompt);
    }
    var result := GetMergedResults(f, prompt, env, order);
    reply := Respond(result);
  }
}
