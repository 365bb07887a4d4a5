/** The REST stream of an account as an object (src/roq/gate_futures/gateway/order_entry.cpp). */
module OrderEntry {
  import opened Common
  import opened OrderSession
  import opened RestResponse
  import opened DropCopy

  /** All three kinds are tried, in order. */
  function SentPending(r: RestSide, go: bool, balances: bool, positions: bool, trades: bool): RestSide {
    if !go then r
    else SendPending(SendPending(SendPending(r, BalancesKind, balances), PositionsKind, positions), TradesKind, trades)
  }

  class OrderEntry {
    const cfg: Config
    const requests: RequestQueue
    var ready: bool
    var http: Counts
    var firstTrades: bool
    /** The calls made while responses were processed. */
    var calls: seq<Call>
    /** The lookback of every request for trades. */
    var lookbacks: seq<int>

    constructor (cfg: Config, requests: RequestQueue)
      ensures this.cfg == cfg && this.requests == requests
      ensures !ready && http == Counts(0, 0, 0) && firstTrades && calls == [] && lookbacks == []
    {
      this.cfg, this.requests := cfg, requests;
      ready, http, firstTrades, calls, lookbacks := false, Counts(0, 0, 0), true, [], [];
    }

    ghost function Value(): RestSide
      reads this, requests
    {
      RestSide(requests.phases, http)
    }

    method OnConnected()
      modifies this`ready
      ensures ready
    {
      ready := true;
    }

    method OnDisconnected()
      modifies this`ready
      ensures !ready
    {
      ready := false;
    }

    method SendIfPending(k: Kind, allowed: bool)
      modifies this`http, this`lookbacks, requests`phases
      ensures Value() == SendPending(old(Value()), k, allowed)
      ensures lookbacks == old(lookbacks) + if k.TradesKind? && Value() != old(Value())
        then [TradesLookback(cfg, firstTrades)] else []
    {
      if allowed && PhaseOf(requests.phases, k).Requested? {
        if k.TradesKind? {
          lookbacks := lookbacks + [TradesLookback(cfg, firstTrades)];
        }
        requests.Set(k, InFlight);
        http := WithCount(http, k, CountOf(http, k) + 1);
      }
    }

    method OnTimer(alive: bool, balances: bool, positions: bool, trades: bool)
      modifies this`http, this`lookbacks, requests`phases
      ensures Value() == SentPending(old(Value()), alive && ready, balances, positions, trades)
      ensures lookbacks
        == old(lookbacks) + if alive && ready && trades && old(requests.phases).trades.Requested? then
                              [TradesLookback(cfg, firstTrades)]
                            else []
    {
      if alive && ready {
        SendIfPending(BalancesKind, balances);
        SendIfPending(PositionsKind, positions);
        SendIfPending(TradesKind, trades);
      }
    }

    /** Runs the handlers for a response; `aborted` when the process ends. */
    method ProcessResponse(k: Kind, r: Response) returns (aborted: bool)
      modifies this`calls, this`firstTrades
      ensures match Process(r, cfg.asserts)
        case Aborted => aborted && calls == old(calls) && firstTrades == old(firstTrades)
        case Returned(made) =>
          !aborted && calls == old(calls) + made && firstTrades == (old(firstTrades) && !TradesDone(k, made))
    {
      aborted := false;
      var thrown: Option<Exception> := None;
      match r {
        case Failed(e) => thrown := Some(e);
        case Response(category, status, unexpected, failure) =>
          match category {
            case Unknown => thrown := unexpected;
            case Informational => thrown := unexpected;
            case Success =>
              calls := calls + [SuccessHandler(failure.None?)];
              if failure.None? {
                if k.TradesKind? {
                  firstTrades := false;
                }
              } else {
                thrown := failure;
              }
            case Redirection => return true;
            case ClientError =>
              match status {
                case Forbidden => calls := calls + [ErrorHandler(RateLimited)];
                case Teapot => calls := calls + [ErrorHandler(RateLimited)];
                case TooManyRequests => calls := calls + [ErrorHandler(RateLimited)];
                case Conflict =>
                  if cfg.asserts {
                    return true;
                  }
                  calls := calls + [ErrorHandler(Rejected)];
                case OtherStatus => calls := calls + [ErrorHandler(Rejected)];
              }
            case ServerError => calls := calls + [ErrorHandler(Rejected)];
          }
      }
      if thrown.Some? {
        calls := calls + [Caught(thrown.value)];
      }
    }

    /** A response has arrived: unless the process ends, its request is committed exactly once, whatever the
        handlers have made of it. */
    method OnAck(k: Kind, r: Response) returns (aborted: bool)
      modifies this`http, this`calls, this`firstTrades, requests
      ensures aborted <==> !Survivable(r, cfg.asserts)
      ensures http == OneLess(old(http), k)
      ensures requests.phases
        == if aborted then old(requests.phases) else WithPhase(old(requests.phases), k, Committed)
      ensures requests.commits
        == if aborted then old(requests.commits)
           else WithCount(old(requests.commits), k, CountOf(old(requests.commits), k) + 1)
      ensures aborted ==> calls == old(calls) && firstTrades == old(firstTrades)
      ensures !aborted ==>
        && calls == old(calls) + Process(r, cfg.asserts).calls
        && firstTrades == (old(firstTrades) && !TradesDone(k, Process(r, cfg.asserts).calls))
    {
      http := OneLess(http, k);
      aborted := ProcessResponse(k, r);
      if !aborted {
        requests.Commit(k);
      }
    }
  }
}
