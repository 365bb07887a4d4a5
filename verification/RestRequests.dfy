/** What the REST stream sends in a run: every request is answered and committed once, and which lookback the
    requests for trades carry (src/roq/gate_futures/gateway/order_entry.cpp, drop_copy.cpp). */
module RestRequests {
  import opened TradeRouter
  import opened OrderSession
  import opened OrderSessionSafety
  import opened OrderSessionProgress

  // ----- every request is committed once

  /** The event makes a request of this kind leave. */
  predicate Departs(cfg: Config, sys: System, e: Event, k: Kind) {
    && !PhaseOf(sys.session.requests, k).InFlight?
    && PhaseOf(Step(cfg, sys, e).session.requests, k).InFlight?
  }

  /** How many requests of a kind the first `n` events have sent. */
  ghost function Sent(cfg: Config, events: seq<Event>, n: nat, k: Kind): nat
    requires n <= |events|
  {
    if n == 0 then 0
    else Sent(cfg, events, n - 1, k) + if Departs(cfg, After(cfg, INIT, events, n - 1), events[n - 1], k) then 1 else 0
  }

  predicate IsReply(e: Event, k: Kind) {
    e.RestReply? && e.kind == k
  }

  function Replies(events: seq<Event>, n: nat, k: Kind): nat
    requires n <= |events|
  {
    if n == 0 then 0 else Replies(events, n - 1, k) + if IsReply(events[n - 1], k) then 1 else 0
  }

  predicate IsRest(e: Event) {
    e.RestTimer? || e.RestReply?
  }

  /** A phase has stayed, or the request has been asked for; trades only with an ordinary lookback. */
  ghost predicate OnlyAsks(cfg: Config, r: Requests, t: Requests) {
    && (t.balances == r.balances || t.balances.Requested?)
    && (t.positions == r.positions || t.positions.Requested?)
    && (t.trades == r.trades || (t.trades.Requested? && cfg.tradesLookback != 0))
  }

  lemma {:induction false} AdvanceOnlyAsks(cfg: Config, s: Session)
    requires !s.state.Done?
    ensures OnlyAsks(cfg, s.requests, Advance(cfg, s).requests)
    decreases Left(s.state)
  {
    var t := Download(cfg, s.(state := Next(s.state)), Next(s.state));
    if !t.state.Done? && !Waits(cfg, t, t.state) {
      AdvanceOnlyAsks(cfg, t);
    }
  }

  lemma TextOnlyAsks(cfg: Config, s: Session, m: Message, orders: seq<StaleOrder>)
    ensures OnlyAsks(cfg, s.requests, OnText(cfg, s, m, orders).requests)
  {
    match Dispatch(m.envelope, cfg.allowUnknown, cfg.asserts)
    case Handled(TradeLogin) => AdvanceOnlyAsks(cfg, s.(userId := m.uid, state := Undefined));
    case Handled(TradeSubscribe) =>
      if !s.state.Done? {
        AdvanceOnlyAsks(cfg, s);
      }
    case Handled(TradeOrderList) =>
      StatusRequestsKeep(s, orders, |orders|);
      if s.state.GetOpenOrders? {
        AdvanceOnlyAsks(cfg, CheckStaleOrders(s, orders, |orders|));
      }
    case Handled(TradeOrderStatus) =>
      if s.state.GetStaleOrders? && s.stale > 0 {
        AdvanceOnlyAsks(cfg, s.(stale := s.stale - 1));
      }
    case _ =>
  }

  lemma TimerOnlyAsks(cfg: Config, s: Session, alive: bool, now: int, orders: seq<StaleOrder>)
    ensures OnlyAsks(cfg, s.requests, OnTimer(cfg, s, alive, now, orders).requests)
  {
    if !s.state.Done? {
      AdvanceOnlyAsks(cfg, s);
    }
    StatusRequestsKeep(CheckRequestQueue(cfg, s).(nextCheck := now + cfg.checkFrequency), orders, |orders|);
  }

  /** The order stream only asks: it sends nothing over the REST connection and commits nothing. */
  lemma OrderStreamOnlyAsks(cfg: Config, sys: System, e: Event)
    requires !IsRest(e)
    ensures var next := Step(cfg, sys, e);
      && next.http == sys.http && next.firstTrades == sys.firstTrades
      && OnlyAsks(cfg, sys.session.requests, next.session.requests)
  {
    match e
    case Text(m, orders) => TextOnlyAsks(cfg, Taken(cfg, sys.session, m), m, orders);
    case Timer(alive, now, orders) => TimerOnlyAsks(cfg, sys.session, alive, now, orders);
    case _ =>
  }

  lemma RestTimerStep(cfg: Config, sys: System, e: Event, k: Kind)
    requires sys.session.fault.NoFault? && e.RestTimer?
    ensures CountOf(Step(cfg, sys, e).http, k) == CountOf(sys.http, k) + if Departs(cfg, sys, e, k) then 1 else 0
  {
  }

  lemma RestReplyStep(cfg: Config, sys: System, e: Event, k: Kind)
    requires sys.session.fault.NoFault? && e.RestReply? && Legal(cfg, sys, e)
    requires Step(cfg, sys, e).session.fault.NoFault?
    ensures CountOf(Step(cfg, sys, e).http, k) + (if IsReply(e, k) then 1 else 0) == CountOf(sys.http, k)
    ensures !Departs(cfg, sys, e, k)
  {
  }

  lemma HttpStep(cfg: Config, sys: System, e: Event, k: Kind)
    requires sys.session.fault.NoFault? && Inv(cfg, sys) && Legal(cfg, sys, e)
    requires Step(cfg, sys, e).session.fault.NoFault?
    ensures CountOf(Step(cfg, sys, e).http, k) + (if IsReply(e, k) then 1 else 0)
      == CountOf(sys.http, k) + if Departs(cfg, sys, e, k) then 1 else 0
  {
    match e
    case RestTimer(_, _, _, _) => RestTimerStep(cfg, sys, e, k);
    case RestReply(_, _) => RestReplyStep(cfg, sys, e, k);
    case _ => OrderStreamOnlyAsks(cfg, sys, e);
  }

  /** Before the n-th event nothing has failed, if nothing has after it. */
  lemma SoundBefore(cfg: Config, events: seq<Event>, n: nat)
    requires LegalRun(cfg, INIT, events) && n < |events| && After(cfg, INIT, events, n + 1).session.fault.NoFault?
    ensures var sys := After(cfg, INIT, events, n);
      sys.session.fault.NoFault? && Inv(cfg, sys) && Legal(cfg, sys, events[n])
  {
    InitIsSafe(cfg);
    RunKeeps(cfg, INIT, events, n);
    assert LegalAt(cfg, INIT, events, n);
  }

  /** Nothing has failed in the first `n` events. */
  ghost predicate Sound(cfg: Config, events: seq<Event>, n: nat) {
    n <= |events| && After(cfg, INIT, events, n).session.fault.NoFault?
  }

  /** While nothing has failed, what has been sent is what has been answered and what has not. */
  ghost predicate Balanced(cfg: Config, events: seq<Event>, n: nat, k: Kind)
    requires n <= |events|
  {
    Sound(cfg, events, n) ==>
      Sent(cfg, events, n, k) == Replies(events, n, k) + CountOf(After(cfg, INIT, events, n).http, k)
  }

  lemma BalancedStep(cfg: Config, events: seq<Event>, n: nat, k: Kind)
    requires LegalRun(cfg, INIT, events) && n < |events| && Balanced(cfg, events, n, k)
    ensures Balanced(cfg, events, n + 1, k)
  {
    if Sound(cfg, events, n + 1) {
      SoundBefore(cfg, events, n);
      HttpStep(cfg, After(cfg, INIT, events, n), events[n], k);
    }
  }

  lemma BalancedAtFirst(cfg: Config, events: seq<Event>, k: Kind)
    ensures Balanced(cfg, events, 0, k)
  {
  }

  /** Conservation: in every run, what has been sent of a kind is what has been answered and what has not. */
  lemma SentIsAnsweredOrOpen(cfg: Config, events: seq<Event>, n: nat, k: Kind)
    requires LegalRun(cfg, INIT, events) && n <= |events| && Sound(cfg, events, n)
    ensures Sent(cfg, events, n, k) == Replies(events, n, k) + CountOf(After(cfg, INIT, events, n).http, k)
  {
    BalancedAtFirst(cfg, events, k);
    for i := 0 to n
      invariant Balanced(cfg, events, i, k)
    {
      BalancedStep(cfg, events, i, k);
    }
  }

  // ----- the lookback of requests for trades

  /** The lookbacks of the requests for trades that the first `n` events have sent. */
  ghost function Lookbacks(cfg: Config, events: seq<Event>, n: nat): seq<int>
    requires n <= |events|
  {
    if n == 0 then [] else Lookbacks(cfg, events, n - 1) + Sends(cfg, After(cfg, INIT, events, n - 1), events[n - 1])
  }

  /** Trades have never been asked for. */
  ghost predicate NoTrades(sys: System) {
    sys.session.requests.trades.Idle? && sys.http.trades == 0 && sys.firstTrades
  }

  lemma NoTradesStep(cfg: Config, sys: System, e: Event)
    requires cfg.tradesLookback == 0 && NoTrades(sys) && Legal(cfg, sys, e)
    ensures NoTrades(Step(cfg, sys, e)) && Sends(cfg, sys, e) == []
  {
    if !IsRest(e) {
      OrderStreamOnlyAsks(cfg, sys, e);
    }
  }

  /** Without an ordinary lookback no run ever asks for trades, whatever the lookback on restart. */
  lemma {:induction false} NoLookbackNoTrades(cfg: Config, events: seq<Event>, n: nat)
    requires cfg.tradesLookback == 0 && LegalRun(cfg, INIT, events) && n <= |events|
    ensures NoTrades(After(cfg, INIT, events, n)) && Lookbacks(cfg, events, n) == []
  {
    if n > 0 {
      NoLookbackNoTrades(cfg, events, n - 1);
      assert LegalAt(cfg, INIT, events, n - 1);
      NoTradesStep(cfg, After(cfg, INIT, events, n - 1), events[n - 1]);
    }
  }

  /** A request for trades must have been sent. */
  ghost predicate TradesSent(cfg: Config, sys: System) {
    || sys.http.trades > 0 || !sys.firstTrades
    || sys.session.requests.trades.InFlight? || sys.session.requests.trades.Committed?
    || (sys.session.state.Done? && cfg.tradesLookback != 0)
  }

  /** Before the login only its answer moves the session, and not further than to the first state. */
  lemma LoginOnly(cfg: Config, sys: System, m: Message, orders: seq<StaleOrder>)
    requires sys.session.fault.NoFault? && Inv(cfg, sys) && Legal(cfg, sys, Text(m, orders))
    requires sys.session.state.Undefined?
    ensures !Step(cfg, sys, Text(m, orders)).session.state.Done?
  {
    TextStep(cfg, sys, m, orders);
    match Dispatch(m.envelope, cfg.allowUnknown, cfg.asserts)
    case Handled(TradeLogin) => LoginKeeps(cfg, Taken(cfg, sys.session, m), m.envelope.headerStatus, m.uid);
    case _ =>
  }

  lemma UndefinedIsNotReady(cfg: Config, sys: System, e: Event)
    requires sys.session.fault.NoFault? && Inv(cfg, sys) && Legal(cfg, sys, e) && sys.session.state.Undefined?
    ensures !Step(cfg, sys, e).session.state.Done?
  {
    match e
    case Text(m, orders) => LoginOnly(cfg, sys, m, orders);
    case Timer(alive, now, orders) => TimerKeeps(cfg, sys.session, alive, now, orders);
    case _ =>
  }

  /** The last state is entered from the one that waits for trades, if there is an ordinary lookback. */
  lemma MovedToDone(cfg: Config, s: Session, t: Session, e: Event)
    requires Moved(cfg, s, t, e) && cfg.tradesLookback != 0
    requires !s.state.Undefined? && !s.state.Done? && t.state.Done?
    ensures s.requests.trades.Committed?
  {
    assert Answers(cfg, s, e) && StateAfter(cfg, s, e).Done?;
    assert s.state.GetTrades?;
  }

  /** With an ordinary lookback a session gets ready only when its request for trades has been committed. */
  lemma ReadyNeedsTrades(cfg: Config, sys: System, e: Event)
    requires sys.session.fault.NoFault? && Inv(cfg, sys) && Legal(cfg, sys, e) && cfg.tradesLookback != 0
    requires Step(cfg, sys, e).session.fault.NoFault? && Step(cfg, sys, e).session.state.Done?
    ensures sys.session.state.Done? || sys.session.requests.trades.Committed?
  {
    if sys.session.state.Undefined? {
      UndefinedIsNotReady(cfg, sys, e);
    } else if !sys.session.state.Done? {
      DisconnectIsNotReady(cfg, sys, e);
      StepMoves(cfg, sys, e);
      MovedToDone(cfg, sys.session, Step(cfg, sys, e).session, e);
    }
  }

  lemma DisconnectIsNotReady(cfg: Config, sys: System, e: Event)
    requires sys.session.fault.NoFault? && Step(cfg, sys, e).session.state.Done?
    ensures !e.SocketDisconnected?
  {
  }

  lemma TradesSentStep(cfg: Config, sys: System, e: Event)
    requires sys.session.fault.NoFault? && Inv(cfg, sys) && Legal(cfg, sys, e)
    requires Step(cfg, sys, e).session.fault.NoFault?
    ensures TradesSent(cfg, Step(cfg, sys, e)) ==> TradesSent(cfg, sys) || Sends(cfg, sys, e) != []
  {
    if !IsRest(e) {
      OrderStreamOnlyAsks(cfg, sys, e);
      if Step(cfg, sys, e).session.state.Done? && cfg.tradesLookback != 0 {
        ReadyNeedsTrades(cfg, sys, e);
      }
    }
  }

  /** A run that has sent requests for trades: those sent until trades have been downloaded use the lookback on
      restart, if there is one, and the others the ordinary one; `m` is where that changes. */
  lemma {:induction false} LookbacksChangeOnce(cfg: Config, events: seq<Event>, n: nat) returns (m: nat)
    requires LegalRun(cfg, INIT, events) && n <= |events| && After(cfg, INIT, events, n).session.fault.NoFault?
    ensures var sys, sent := After(cfg, INIT, events, n), Lookbacks(cfg, events, n);
      && m <= |sent| && (sys.firstTrades ==> m == |sent|) && (TradesSent(cfg, sys) ==> m > 0)
      && (forall i :: 0 <= i < m ==> sent[i] == TradesLookback(cfg, true))
      && (forall i :: m <= i < |sent| ==> sent[i] == cfg.tradesLookback)
  {
    if n == 0 {
      m := 0;
    } else {
      SoundBefore(cfg, events, n - 1);
      var sys, e := After(cfg, INIT, events, n - 1), events[n - 1];
      m := LookbacksChangeOnce(cfg, events, n - 1);
      TradesSentStep(cfg, sys, e);
      if sys.firstTrades {
        m := m + |Sends(cfg, sys, e)|;
      }
    }
  }

  /** A lookback on restart is used in a run: the first request for trades carries it. */
  ghost predicate UsesRestart(cfg: Config, events: seq<Event>, n: nat)
    requires n <= |events|
  {
    Lookbacks(cfg, events, n) != [] && Lookbacks(cfg, events, n)[0] == cfg.onRestart
  }

  /** A lookback on restart is meant for the first download of trades. In every run, a stream that is ready has
      used it if and only if the ordinary lookback is set as well. */
  lemma RestartLookbackIsUsedIff(cfg: Config, events: seq<Event>, n: nat)
    requires LegalRun(cfg, INIT, events) && n <= |events| && cfg.onRestart != 0
    requires var s := After(cfg, INIT, events, n).session; s.fault.NoFault? && s.ready
    ensures UsesRestart(cfg, events, n) <==> cfg.tradesLookback != 0
  {
    if cfg.tradesLookback == 0 {
      NoLookbackNoTrades(cfg, events, n);
    } else {
      ReachableStates(cfg, events, n);
      var m := LookbacksChangeOnce(cfg, events, n);
    }
  }

  /** There is a run that uses a lookback on restart if and only if the ordinary lookback is set as well. */
  lemma RestartLookbackCanBeUsedIff(cfg: Config)
    requires cfg.onRestart != 0
    ensures (exists events :: LegalRun(cfg, INIT, events) && UsesRestart(cfg, events, |events|))
      <==> cfg.tradesLookback != 0
  {
    if cfg.tradesLookback == 0 {
      forall events | LegalRun(cfg, INIT, events)
        ensures !UsesRestart(cfg, events, |events|)
      {
        NoLookbackNoTrades(cfg, events, |events|);
      }
    } else {
      InitIsSafe(cfg);
      var up := Step(cfg, INIT, SocketReady);
      StepKeeps(cfg, INIT, SocketReady);
      var rest := CanBecomeReady(cfg, up);
      var events := [SocketReady] + rest;
      PrependLegal(cfg, INIT, SocketReady, rest);
      Prepend(cfg, INIT, SocketReady, rest, |rest|);
      RestartLookbackIsUsedIff(cfg, events, |events|);
    }
  }
}
