/**
 * The queue worker: it takes task messages off the queue one at a time,
 * decodes each into a prompt and a task id, runs the aggregator on the
 * prompt and stores the merged result under the task id, until the
 * process is told to stop.
 *
 * What arrives is a sequence of events: a delivered message (with the
 * provider exchanges and the completion order its aggregation meets, and
 * whether the store accepted the write) or the stop signal. Message
 * decoding is a parameter.
 */
module Worker {
  import opened Types
  import opened Breaker
  import opened Clients
  import opened Facade

  type Body = seq<bv8>

  /** A decoded queue message. */
  datatype Task = Task(prompt: string, taskId: string)

  datatype Event =
    | Delivery(body: Body, env: seq<seq<Exchange>>, order: seq<nat>, stored: bool)
    | Signal

  /** A delivery's aggregation is well posed for the facade. */
  ghost predicate WellPosed(f: Facade, e: Event)
  {
    e.Delivery? ==> Ready(f, e.env) && IsPermutation(e.order, |f.clients|)
  }

  ghost predicate Plans(f: Facade, events: seq<Event>)
  {
    forall j :: 0 <= j < |events| ==> WellPosed(f, events[j])
  }

  /** Task ids the worker writes while handling `events`, up to a stop signal. */
  function StoredIds(decode: Body -> Option<Task>, events: seq<Event>): set<string>
    decreases |events|
  {
    if events == [] then {}
    else match events[0]
      case Signal => {}
      case Delivery(body, _, _, stored) =>
        (if stored && decode(body).Some? then {decode(body).value.taskId} else {}) + StoredIds(decode, events[1..])
  }

  /**
   * One delivery: a message that does not decode changes nothing; a decoded
   * one moves the breakers by one aggregation and, when the write succeeds,
   * stores its result under the task id.
   */
  function Handle(f: Facade, decode: Body -> Option<Task>, views: seq<Snapshot>,
                  store: map<string, MergedApiResponse>, e: Event)
    : (r: (seq<Snapshot>, map<string, MergedApiResponse>))
    requires e.Delivery? && |views| == |f.clients| && WellPosed(f, e)
    ensures |r.0| == |f.clients|
    ensures decode(e.body).None? ==> r == (views, store)
    ensures decode(e.body).Some? ==> r.0 == Finals(f, views, e.env)
    ensures !e.stored ==> r.1 == store
    ensures decode(e.body).Some? && e.stored ==>
      var id := decode(e.body).value.taskId;
      && r.1.Keys == store.Keys + {id}
      && |r.1[id].results| == |f.clients|
      && Below(e.order, |f.clients|)
      && r.1[id] == MergedApiResponse(Permute(Outputs(f, views, e.env), e.order))
      && forall k :: k in store && k != id ==> r.1[k] == store[k]
  {
    match decode(e.body)
    case None => (views, store)
    case Some(task) =>
      PermutationFacts(e.order, |f.clients|);
      var result := MergedApiResponse(Permute(Outputs(f, views, e.env), e.order));
      (Finals(f, views, e.env), if e.stored then store[task.taskId := result] else store)
  }

  /**
   * The worker loop as a function of the breaker states, the store and the
   * remaining events: the final breaker states, the final store, and
   * whether it stopped on a signal.
   */
  function Consume(f: Facade, decode: Body -> Option<Task>, views: seq<Snapshot>,
                   store: map<string, MergedApiResponse>, events: seq<Event>)
    : (r: (seq<Snapshot>, map<string, MergedApiResponse>, bool))
    requires |views| == |f.clients| && Plans(f, events)
    ensures |r.0| == |f.clients|
    decreases |events|
  {
    if events == [] then (views, store, false)
    else if events[0].Signal? then (views, store, true)
    else
      var next := Handle(f, decode, views, store, events[0]);
      Consume(f, decode, next.0, next.1, events[1..])
  }

  /** The loop stops exactly when a stop signal arrives. */
  lemma {:induction false} StopsOnSignal(f: Facade, decode: Body -> Option<Task>, views: seq<Snapshot>,
                                         store: map<string, MergedApiResponse>, events: seq<Event>)
    requires |views| == |f.clients| && Plans(f, events)
    ensures Consume(f, decode, views, store, events).2 <==> Signal in events
    decreases |events|
  {
    if events != [] && events[0].Delivery? {
      assert events == [events[0]] + events[1..];
      var next := Handle(f, decode, views, store, events[0]);
      StopsOnSignal(f, decode, next.0, next.1, events[1..]);
    }
  }

  /** Nothing after the stop signal is handled. */
  lemma {:induction false} SignalEndsRun(f: Facade, decode: Body -> Option<Task>, views: seq<Snapshot>,
                                         store: map<string, MergedApiResponse>, before: seq<Event>, after: seq<Event>)
    requires |views| == |f.clients| && Plans(f, before + [Signal] + after)
    ensures Plans(f, before + [Signal])
    ensures Consume(f, decode, views, store, before + [Signal] + after) == Consume(f, decode, views, store, before + [Signal])
    decreases |before|
  {
    var all := before + [Signal] + after;
    assert Plans(f, before + [Signal]) by {
      forall j | 0 <= j < |before + [Signal]| ensures (before + [Signal])[j] == all[j] { }
    }
    if before != [] {
      assert all[0] == before[0] && all[1..] == before[1..] + [Signal] + after;
      assert (before + [Signal])[1..] == before[1..] + [Signal];
      if before[0].Delivery? {
        var next := Handle(f, decode, views, store, before[0]);
        SignalEndsRun(f, decode, next.0, next.1, before[1..], after);
      }
    }
  }

  /**
   * The store ends with exactly its old keys plus the task ids of the
   * decoded deliveries whose write succeeded; every other entry is untouched.
   */
  lemma {:induction false} StoreWrites(f: Facade, decode: Body -> Option<Task>, views: seq<Snapshot>,
                                       store: map<string, MergedApiResponse>, events: seq<Event>)
    requires |views| == |f.clients| && Plans(f, events)
    ensures Consume(f, decode, views, store, events).1.Keys == store.Keys + StoredIds(decode, events)
    ensures forall k :: k in store && k !in StoredIds(decode, events) ==> Consume(f, decode, views, store, events).1[k] == store[k]
    decreases |events|
  {
    if events != [] && events[0].Delivery? {
      var next := Handle(f, decode, views, store, events[0]);
      assert Plans(f, events[1..]) by {
        forall j | 0 <= j < |events[1..]| ensures events[1..][j] == events[j + 1] { }
      }
      StoreWrites(f, decode, next.0, next.1, events[1..]);
    }
  }

  /** Without a stop signal in `pre`, the loop handles `pre` and then goes on with `post`. */
  lemma {:induction false} ConsumeSplit(f: Facade, decode: Body -> Option<Task>, views: seq<Snapshot>,
                                        store: map<string, MergedApiResponse>, pre: seq<Event>, post: seq<Event>)
    requires |views| == |f.clients| && Plans(f, pre) && Plans(f, post) && Signal !in pre
    ensures Plans(f, pre + post)
    ensures var mid := Consume(f, decode, views, store, pre);
      !mid.2 && Consume(f, decode, views, store, pre + post) == Consume(f, decode, mid.0, mid.1, post)
    decreases |pre|
  {
    var all := pre + post;
    assert Plans(f, all) by {
      forall j | 0 <= j < |all| ensures WellPosed(f, all[j]) {
        if j < |pre| { assert all[j] == pre[j]; } else { assert all[j] == post[j - |pre|]; }
      }
    }
    if pre == [] {
      assert all == post;
    } else {
      assert all[0] == pre[0] && all[1..] == pre[1..] + post;
      assert pre[0] in pre;
      var next := Handle(f, decode, views, store, pre[0]);
      assert Plans(f, pre[1..]) by {
        forall j | 0 <= j < |pre[1..]| ensures pre[1..][j] == pre[j + 1] { }
      }
      assert Signal !in pre[1..] by {
        assert forall x :: x in pre[1..] ==> x in pre;
      }
      ConsumeSplit(f, decode, next.0, next.1, pre[1..], post);
    }
  }

  /**
   * Last write wins: when a delivery stores its result under a task id and
   * no later handled delivery stores under that id, the final store holds
   * that delivery's result.
   */
  lemma LastWriteWins(f: Facade, decode: Body -> Option<Task>, views: seq<Snapshot>,
                      store: map<string, MergedApiResponse>, pre: seq<Event>, d: Event, post: seq<Event>)
    requires |views| == |f.clients| && Plans(f, pre) && WellPosed(f, d) && Plans(f, post) && Signal !in pre
    requires Plans(f, pre + [d] + post)
    requires d.Delivery? && d.stored && decode(d.body).Some? && decode(d.body).value.taskId !in StoredIds(decode, post)
    ensures var mid := Consume(f, decode, views, store, pre);
      var written := Handle(f, decode, mid.0, mid.1, d).1;
      var id := decode(d.body).value.taskId;
      id in written && id in Consume(f, decode, views, store, pre + [d] + post).1 &&
      Consume(f, decode, views, store, pre + [d] + post).1[id] == written[id]
  {
    var mid := Consume(f, decode, views, store, pre);
    var id := decode(d.body).value.taskId;
    assert Plans(f, [d] + post) by {
      forall j | 0 <= j < |[d] + post| ensures WellPosed(f, ([d] + post)[j]) {
        if j > 0 { assert ([d] + post)[j] == post[j - 1]; }
      }
    }
    ConsumeSplit(f, decode, views, store, pre, [d] + post);
    assert pre + [d] + post == pre + ([d] + post);
    var next := Handle(f, decode, mid.0, mid.1, d);
    assert ([d] + post)[0] == d && ([d] + post)[1..] == post;
    StoreWrites(f, decode, next.0, next.1, post);
  }

  class Worker {
    const facade: Facade
    /** The results written to the store, by task id. */
    var store: map<string, MergedApiResponse>

    constructor (facade: Facade)
      ensures this.facade == facade && store == map[]
    {
      this.facade := facade;
      store := map[];
    }

    /**
     * One delivered message: skipped when it does not decode; otherwise
     * aggregated, and its result stored under the task id when the store
     * accepts the write.
     */
    method Deliver(decode: Body -> Option<Task>, e: Event)
      requires Valid(facade) && e.Delivery? && WellPosed(facade, e)
      modifies this, Breakers(facade)
      ensures (Views(facade.clients), store) == Handle(facade, decode, old(Views(facade.clients)), old(store), e)
    {
      match decode(e.body) {
        case None =>
        case Some(task) =>
          var result := GetMergedResults(facade, task.prompt, e.env, e.order);
          if e.stored {
            store := store[task.taskId := result];
          }
      }
    }

    /**
     * The consume loop over the events that arrive, until a stop signal
     * ends it.
     */
    method Run(decode: Body -> Option<Task>, events: seq<Event>) returns (stopped: bool)
      requires Valid(facade) && Plans(facade, events)
      modifies this, Breakers(facade)
      ensures (Views(facade.clients), store, stopped) == Consume(facade, decode, old(Views(facade.clients)), old(store), events)
    {
      ghost var goal := Consume(facade, decode, Views(facade.clients), store, events);
      var i := 0;
      while i < |events|
        invariant 0 <= i <= |events|
        invariant Plans(facade, events[i..])
        invariant goal == Consume(facade, decode, Views(facade.clients), store, events[i..])
      {
        assert events[i..][0] == events[i] && events[i..][1..] == events[i + 1..];
        if events[i].Signal? {
          return true;
        }
        Deliver(decode, events[i]);
        i := i + 1;
      }
      assert events[i..] == [];
      return false;
    }
  }
}
