/** The two streams of an account as one object, with the connection between them and the exchange: every event
    is a step of `OrderSession`, so what holds of all runs holds of every object that can be produced
    (src/roq/gate_futures/gateway/drop_copy.cpp, order_entry.cpp). */
module AccountStreams {
  import opened OrderSession
  import opened OrderSessionSafety
  import opened DropCopy
  import opened OrderEntry
  import opened RestRequests
  import RestResponse

  // ----- runs that grow

  lemma {:induction false} PrefixStays(cfg: Config, events: seq<Event>, e: Event, n: nat)
    requires n <= |events|
    ensures After(cfg, INIT, events + [e], n) == After(cfg, INIT, events, n)
    ensures Lookbacks(cfg, events + [e], n) == Lookbacks(cfg, events, n)
    ensures forall k: Kind :: Replies(events + [e], n, k) == Replies(events, n, k)
  {
    if n > 0 {
      PrefixStays(cfg, events, e, n - 1);
    }
  }

  lemma LegalSnoc(cfg: Config, events: seq<Event>, e: Event)
    requires LegalRun(cfg, INIT, events) && Legal(cfg, After(cfg, INIT, events, |events|), e)
    ensures LegalRun(cfg, INIT, events + [e])
  {
    forall n | 0 <= n < |events + [e]|
      ensures LegalAt(cfg, INIT, events + [e], n)
    {
      PrefixStays(cfg, events, e, n);
      if n < |events| {
        assert LegalAt(cfg, INIT, events, n);
      }
    }
  }

  /** The commits after an event that the process survives. */
  function WithReply(commits: Counts, e: Event): Counts {
    if e.RestReply? then WithCount(commits, e.kind, CountOf(commits, e.kind) + 1) else commits
  }

  /** Every reply so far has committed a request, once. */
  ghost predicate AllCommitted(commits: Counts, events: seq<Event>) {
    forall k: Kind :: CountOf(commits, k) == Replies(events, |events|, k)
  }

  lemma CommitsGrow(commits: Counts, events: seq<Event>, e: Event)
    requires AllCommitted(commits, events)
    requires forall k: Kind :: Replies(events + [e], |events|, k) == Replies(events, |events|, k)
    ensures AllCommitted(WithReply(commits, e), events + [e])
  {
    forall k: Kind
      ensures CountOf(WithReply(commits, e), k) == Replies(events + [e], |events + [e]|, k)
    {
      assert Replies(events + [e], |events + [e]|, k)
        == Replies(events + [e], |events|, k) + if IsReply(e, k) then 1 else 0;
    }
  }

  lemma RunGrows(cfg: Config, events: seq<Event>, e: Event)
    requires LegalRun(cfg, INIT, events) && Legal(cfg, After(cfg, INIT, events, |events|), e)
    ensures var run, sys := events + [e], After(cfg, INIT, events, |events|);
      && LegalRun(cfg, INIT, run) && After(cfg, INIT, run, |run|) == Step(cfg, sys, e)
      && Lookbacks(cfg, run, |run|) == Lookbacks(cfg, events, |events|) + Sends(cfg, sys, e)
      && !Internal(Step(cfg, sys, e).session.fault)
      && (Step(cfg, sys, e).session.fault.NoFault? ==>
            ObligationsOpen(cfg, Step(cfg, sys, e).session) && StatusAgrees(Step(cfg, sys, e).session))
  {
    LegalSnoc(cfg, events, e);
    PrefixStays(cfg, events, e, |events|);
    var run := events + [e];
    NoInternalFault(cfg, run, |run|);
    if After(cfg, INIT, run, |run|).session.fault.NoFault? {
      ReachableStates(cfg, run, |run|);
    }
  }

  // ----- the object

  class AccountStreams {
    const cfg: Config
    const requests: RequestQueue
    const dropCopy: DropCopy
    const orderEntry: OrderEntry
    ghost var tally: Tally
    /** Everything that has happened so far. */
    ghost var history: seq<Event>

    ghost predicate Linked() {
      && dropCopy.cfg == cfg && dropCopy.requests == requests
      && orderEntry.cfg == cfg && orderEntry.requests == requests
    }

    ghost function Value(): System
      reads this, requests, dropCopy, dropCopy.requests, dropCopy.socket, orderEntry
    {
      System(dropCopy.Value(), dropCopy.socket.up, orderEntry.ready, orderEntry.http, orderEntry.firstTrades, tally)
    }

    /** The streams are where a legal run leads. */
    ghost predicate Valid()
      reads this, requests, dropCopy, dropCopy.requests, dropCopy.socket, orderEntry
    {
      && Linked() && LegalRun(cfg, INIT, history)
      && Value() == After(cfg, INIT, history, |history|)
      && orderEntry.lookbacks == Lookbacks(cfg, history, |history|)
      && (dropCopy.fault.NoFault? ==> AllCommitted(requests.commits, history))
    }

    constructor (cfg: Config)
      ensures Valid() && this.cfg == cfg && history == [] && Value() == INIT
      ensures fresh(requests) && fresh(dropCopy) && fresh(dropCopy.socket) && fresh(orderEntry)
    {
      var queue := new RequestQueue();
      this.cfg, requests := cfg, queue;
      dropCopy := new DropCopy(cfg, queue);
      orderEntry := new OrderEntry(cfg, queue);
      tally, history := Tally(0, 0, 0, 0, 0), [];
    }

    // ----- one method for every event

    method OnSocketReady()
      requires Linked() && dropCopy.fault.NoFault?
      modifies dropCopy, dropCopy.socket
      ensures Value() == Step(cfg, old(Value()), SocketReady)
    {
      dropCopy.socket.Open();
      dropCopy.OnSocketReady();
    }

    method OnSocketDisconnected()
      requires Linked() && dropCopy.fault.NoFault?
      modifies dropCopy, dropCopy.socket
      ensures Value() == Step(cfg, old(Value()), SocketDisconnected)
    {
      dropCopy.socket.Close();
      dropCopy.OnSocketDisconnected();
    }

    method OnText(m: Message, orders: seq<StaleOrder>)
      requires Linked() && dropCopy.fault.NoFault?
      modifies this`tally, dropCopy, requests`phases, dropCopy.socket`wire
      ensures Value() == Step(cfg, old(Value()), Text(m, orders))
    {
      dropCopy.socket.Receive(cfg, m);
      ghost var before := dropCopy.Value();
      dropCopy.OnMessage(m, orders);
      tally := TallyText(cfg, tally, before, dropCopy.Value(), m);
    }

    method OnTimer(alive: bool, now: int, orders: seq<StaleOrder>)
      requires Linked() && dropCopy.fault.NoFault?
      modifies this`tally, dropCopy, requests`phases, dropCopy.socket`wire
      ensures Value() == Step(cfg, old(Value()), Timer(alive, now, orders))
    {
      ghost var before := dropCopy.Value();
      dropCopy.OnTimerEvent(alive, now, orders);
      tally := TallyTimer(tally, before, dropCopy.Value());
    }

    method OnRestConnected()
      requires Linked() && dropCopy.fault.NoFault?
      modifies orderEntry`ready
      ensures Value() == Step(cfg, old(Value()), RestConnected)
    {
      orderEntry.OnConnected();
    }

    method OnRestDisconnected()
      requires Linked() && dropCopy.fault.NoFault?
      modifies orderEntry`ready
      ensures Value() == Step(cfg, old(Value()), RestDisconnected)
    {
      orderEntry.OnDisconnected();
    }

    method OnRestTimer(alive: bool, balances: bool, positions: bool, trades: bool)
      requires Linked() && dropCopy.fault.NoFault?
      modifies orderEntry`http, orderEntry`lookbacks, requests`phases
      ensures var e := RestTimer(alive, balances, positions, trades);
        && Value() == Step(cfg, old(Value()), e)
        && orderEntry.lookbacks == old(orderEntry.lookbacks) + Sends(cfg, old(Value()), e)
    {
      orderEntry.OnTimer(alive, balances, positions, trades);
    }

    method OnRestReply(k: Kind, response: RestResponse.Response)
      requires Linked() && dropCopy.fault.NoFault?
      modifies dropCopy`fault, orderEntry`http, orderEntry`calls, orderEntry`firstTrades, requests
      ensures Value() == Step(cfg, old(Value()), RestReply(k, response))
      ensures dropCopy.fault.NoFault? ==> requests.commits == WithReply(old(requests.commits), RestReply(k, response))
    {
      RestResponse.HandlersRunAtMostOnce(response, cfg.asserts);
      var aborted := orderEntry.OnAck(k, response);
      if aborted {
        dropCopy.fault := BadResponse;
      }
    }

    // ----- everything that can happen

    /** Once the process has ended nothing happens any more. */
    method Take(e: Event)
      requires Linked()
      modifies this`tally, dropCopy, dropCopy.socket, orderEntry, requests
      ensures Value() == Step(cfg, old(Value()), e)
      ensures orderEntry.lookbacks == old(orderEntry.lookbacks) + Sends(cfg, old(Value()), e)
      ensures dropCopy.fault.NoFault? ==>
        old(dropCopy.fault).NoFault? && requests.commits == WithReply(old(requests.commits), e)
    {
      if dropCopy.fault.NoFault? {
        match e
        case SocketReady => OnSocketReady();
        case SocketDisconnected => OnSocketDisconnected();
        case Text(m, orders) => OnText(m, orders);
        case Timer(alive, now, orders) => OnTimer(alive, now, orders);
        case RestConnected => OnRestConnected();
        case RestDisconnected => OnRestDisconnected();
        case RestTimer(alive, balances, positions, trades) => OnRestTimer(alive, balances, positions, trades);
        case RestReply(k, response) => OnRestReply(k, response);
      }
    }

    /** Whatever the environment may do next: the process does not end for a reason of its own, and while it
        runs, counter, obligations and readiness agree. */
    method Handle(e: Event)
      requires Valid() && Legal(cfg, Value(), e)
      modifies this, dropCopy, dropCopy.socket, orderEntry, requests
      ensures Valid() && history == old(history) + [e]
      ensures Value() == Step(cfg, old(Value()), e)
      ensures !Internal(dropCopy.fault)
      ensures dropCopy.fault.NoFault? ==> ObligationsOpen(cfg, dropCopy.Value()) && StatusAgrees(dropCopy.Value())
    {
      RunGrows(cfg, history, e);
      PrefixStays(cfg, history, e, |history|);
      ghost var before, commits := history, requests.commits;
      Take(e);
      history := history + [e];
      if dropCopy.fault.NoFault? {
        CommitsGrow(commits, before, e);
      }
    }
  }
}
