/** The rate-limit throttle (src/roq/gate_futures/tools/throttle.cpp).

    The state machine reads rate-limit headers and response statuses and keeps one deadline.
    The specification side reads the whole history instead: which events ask for a suspension,
    which events lift one, and what the deadline must be as a consequence.
    Times are nanoseconds, except the reset timestamp, which the exchange sends in seconds. */
module Throttle {
  import opened Common

  const NANOS_PER_SECOND := 1_000_000_000
  const DEFAULT_BACKOFF := 5 * NANOS_PER_SECOND
  const BLOCKED_BACKOFF := 600 * NANOS_PER_SECOND

  datatype HeaderKind = Unknown | Limit | RequestsRemain | ResetTimestamp

  datatype Status = Forbidden | TooManyRequests | Other

  /** An intercepted event together with what the two clocks read while it is handled. */
  datatype Event =
    | MessageHeader(kind: HeaderKind, value: int, now: int, nowUtc: int)
    | MessageEnd(status: Status, now: int)

  datatype View = View(limit: int, remain: int, reset: int, suspendUntil: int)

  /** The deadline a pair of exhausted limits asks for, moved onto the system clock. */
  function Deadline(reset: int, now: int, nowUtc: int): int {
    if nowUtc < reset * NANOS_PER_SECOND then now + (reset * NANOS_PER_SECOND - nowUtc) else now + DEFAULT_BACKOFF
  }

  function Update(enabled: bool, v: View, now: int, nowUtc: int): View {
    if !enabled then v
    else if v.remain > 0 || v.reset == 0 then v.(suspendUntil := 0)
    else v.(suspendUntil := Max(v.suspendUntil, Deadline(v.reset, now, nowUtc)))
  }

  function Step(enabled: bool, v: View, e: Event): View {
    match e
    case MessageHeader(Unknown, _, _, _) => v
    case MessageHeader(Limit, value, _, _) => v.(limit := value)
    case MessageHeader(RequestsRemain, value, now, nowUtc) =>
      if value == v.remain then v else Update(enabled, v.(remain := value), now, nowUtc)
    case MessageHeader(ResetTimestamp, value, now, nowUtc) =>
      if value == v.reset then v else Update(enabled, v.(reset := value), now, nowUtc)
    case MessageEnd(status, now) =>
      if !enabled then v
      else match status
        case Forbidden => v.(suspendUntil := Max(v.suspendUntil, now + BLOCKED_BACKOFF))
        case TooManyRequests => if v.suspendUntil == 0 then v.(suspendUntil := now + DEFAULT_BACKOFF) else v
        case Other => v
  }

  /** The throttle object; the header name has already been classified into a `HeaderKind`. */
  class Throttle {
    const enabled: bool
    var limit: int
    var requestsRemain: int
    var resetTimestamp: int
    var suspendUntil: int

    constructor (enabled: bool)
      ensures this.enabled == enabled && Value() == View(0, 0, 0, 0)
    {
      this.enabled := enabled;
      limit, requestsRemain, resetTimestamp, suspendUntil := 0, 0, 0, 0;
    }

    ghost function Value(): View
      reads this
    {
      View(limit, requestsRemain, resetTimestamp, suspendUntil)
    }

    method UpdateSuspendUntil(now: int, nowUtc: int)
      modifies this`suspendUntil
      ensures Value() == Update(enabled, old(Value()), now, nowUtc)
    {
      if !enabled {
        return;
      }
      if requestsRemain > 0 || resetTimestamp == 0 {
        suspendUntil := 0;
      } else {
        var timestamp := resetTimestamp * NANOS_PER_SECOND;
        if nowUtc < timestamp {
          var period := timestamp - nowUtc;
          suspendUntil := Max(suspendUntil, now + period);
        } else {
          suspendUntil := Max(suspendUntil, now + DEFAULT_BACKOFF);
        }
      }
    }

    method OnMessageHeader(kind: HeaderKind, value: int, now: int, nowUtc: int)
      modifies this
      ensures Value() == Step(enabled, old(Value()), MessageHeader(kind, value, now, nowUtc))
    {
      match kind
      case Unknown =>
      case Limit => limit := value;
      case RequestsRemain =>
        if requestsRemain != value {
          requestsRemain := value;
          UpdateSuspendUntil(now, nowUtc);
        }
      case ResetTimestamp =>
        if resetTimestamp != value {
          resetTimestamp := value;
          UpdateSuspendUntil(now, nowUtc);
        }
    }

    method OnMessageEnd(status: Status, now: int)
      modifies this`suspendUntil
      ensures Value() == Step(enabled, old(Value()), MessageEnd(status, now))
    {
      if !enabled {
        return;
      }
      match status
      case Forbidden => suspendUntil := Max(suspendUntil, now + BLOCKED_BACKOFF);
      case TooManyRequests =>
        if suspendUntil == 0 {
          suspendUntil := now + DEFAULT_BACKOFF;
        }
      case Other =>
    }
  }

  // ----- runs

  /** The state after the first `n` events of the history. */
  function After(enabled: bool, h: seq<Event>, n: nat): View
    requires n <= |h|
  {
    if n == 0 then View(0, 0, 0, 0) else Step(enabled, After(enabled, h, n - 1), h[n - 1])
  }

  /** The system clock never reads below zero. */
  ghost predicate Clocked(h: seq<Event>) {
    forall i :: 0 <= i < |h| ==> h[i].now >= 0
  }

  // ----- the history specification

  /** The value of the last header of this kind among the first `n` events; 0 when there is none. */
  function LastValue(kind: HeaderKind, h: seq<Event>, n: nat): int
    requires n <= |h|
  {
    if n == 0 then 0
    else if h[n - 1].MessageHeader? && h[n - 1].kind == kind then h[n - 1].value
    else LastValue(kind, h, n - 1)
  }

  /** Event `i` carries a new value for one of the two limits that matter. */
  predicate Changes(h: seq<Event>, i: nat)
    requires i < |h|
  {
    && h[i].MessageHeader? && (h[i].kind.RequestsRemain? || h[i].kind.ResetTimestamp?)
    && h[i].value != LastValue(h[i].kind, h, i)
  }

  /** With the values known after `n` events there is no reason to wait. */
  predicate Free(h: seq<Event>, n: nat)
    requires n <= |h|
  {
    LastValue(RequestsRemain, h, n) > 0 || LastValue(ResetTimestamp, h, n) == 0
  }

  predicate Clears(h: seq<Event>, i: nat)
    requires i < |h|
  {
    Changes(h, i) && Free(h, i + 1)
  }

  /** Event `i` asks for a suspension: exhausted limits, a 403 or a 429. */
  predicate Raises(h: seq<Event>, i: nat)
    requires i < |h|
  {
    (Changes(h, i) && !Free(h, i + 1)) || (h[i].MessageEnd? && !h[i].status.Other?)
  }

  /** The deadline event `i` asks for. */
  function Demand(h: seq<Event>, i: nat): int
    requires i < |h|
  {
    match h[i]
    case MessageHeader(_, _, now, nowUtc) => Deadline(LastValue(ResetTimestamp, h, i + 1), now, nowUtc)
    case MessageEnd(Forbidden, now) => now + BLOCKED_BACKOFF
    case MessageEnd(_, now) => now + DEFAULT_BACKOFF
  }

  /** Nothing lifted the suspension strictly after event `i` and before event `n`. */
  ghost predicate Unbroken(h: seq<Event>, i: int, n: nat)
    requires n <= |h|
  {
    forall j :: 0 <= j < n && i < j ==> !Clears(h, j)
  }

  /** A 429 only counts when it is the first to ask since the last clear. */
  ghost predicate Counts(h: seq<Event>, i: nat)
    requires i < |h|
  {
    && Raises(h, i)
    && (h[i].MessageEnd? && h[i].status.TooManyRequests? ==>
          forall k :: 0 <= k < i && Raises(h, k) ==> !Unbroken(h, k, i))
  }

  /** What the history says the deadline is after `n` events: zero while nobody has asked since the
      last clear, and otherwise the greatest demand that counts. */
  ghost predicate DeadlineAfter(h: seq<Event>, n: nat, d: int)
    requires n <= |h|
  {
    && (forall i :: 0 <= i < n && Counts(h, i) && Unbroken(h, i, n) ==> Demand(h, i) <= d)
    && (d == 0 <==> forall i :: 0 <= i < n && Raises(h, i) ==> !Unbroken(h, i, n))
    && (d != 0 ==> d > 0 && exists i :: 0 <= i < n && Counts(h, i) && Unbroken(h, i, n) && Demand(h, i) == d)
  }

  lemma {:induction false} ParametersAreLastValues(enabled: bool, h: seq<Event>, n: nat)
    requires n <= |h|
    ensures After(enabled, h, n).remain == LastValue(RequestsRemain, h, n)
    ensures After(enabled, h, n).reset == LastValue(ResetTimestamp, h, n)
  {
    if n > 0 {
      ParametersAreLastValues(enabled, h, n - 1);
    }
  }

  /** For every history of an enabled throttle the deadline is the one the history asks for. */
  lemma {:induction false} RefinesHistory(h: seq<Event>, n: nat)
    requires n <= |h| && Clocked(h)
    ensures DeadlineAfter(h, n, After(true, h, n).suspendUntil)
  {
    if n > 0 {
      RefinesHistory(h, n - 1);
      ParametersAreLastValues(true, h, n - 1);
      ParametersAreLastValues(true, h, n);
      var i := n - 1;
      var d, d' := After(true, h, i).suspendUntil, After(true, h, n).suspendUntil;
      forall k | 0 <= k < i
        ensures Unbroken(h, k, n) <==> Unbroken(h, k, i) && !Clears(h, i)
      {
      }
      assert Unbroken(h, i, n);
      if Clears(h, i) {
        assert d' == 0;
      } else if Raises(h, i) {
        RaiseStep(h, n, d, d');
      } else {
        assert d' == d;
      }
    }
  }

  lemma RaiseStep(h: seq<Event>, n: nat, d: int, d': int)
    requires 0 < n <= |h| && Clocked(h) && Raises(h, n - 1) && !Clears(h, n - 1)
    requires DeadlineAfter(h, n - 1, d)
    requires forall k :: 0 <= k < n - 1 ==> (Unbroken(h, k, n) <==> Unbroken(h, k, n - 1))
    requires Unbroken(h, n - 1, n)
    requires d'
      == if h[n - 1].MessageEnd? && h[n - 1].status.TooManyRequests? && d != 0 then d else Max(d, Demand(h, n - 1))
    ensures DeadlineAfter(h, n, d')
  {
    var i := n - 1;
    assert Demand(h, i) > 0;
    assert Counts(h, i) <==> !(h[i].MessageEnd? && h[i].status.TooManyRequests? && d != 0);
    if d' == d {
      assert d > 0;
      var k :| 0 <= k < i && Counts(h, k) && Unbroken(h, k, i) && Demand(h, k) == d;
      assert Unbroken(h, k, n);
    }
    assert Raises(h, i) && Unbroken(h, i, n);
  }

  /** Between clears the deadline never moves back. */
  lemma {:induction false} MonotoneBetweenClears(h: seq<Event>, i: nat, n: nat)
    requires i <= n <= |h| && Clocked(h)
    requires Unbroken(h, i - 1, n)
    ensures After(true, h, i).suspendUntil <= After(true, h, n).suspendUntil
  {
    if i < n {
      MonotoneBetweenClears(h, i, n - 1);
      assert !Clears(h, n - 1);
      ParametersAreLastValues(true, h, n - 1);
      ParametersAreLastValues(true, h, n);
      RefinesHistory(h, n - 1);
    }
  }

  /** After a 403 the deadline is at least ten minutes away, until limits that change lift it. */
  lemma {:induction false} ForbiddenHolds(h: seq<Event>, i: nat, n: nat)
    requires i < n <= |h| && Clocked(h)
    requires h[i] == MessageEnd(Forbidden, h[i].now)
    requires Unbroken(h, i, n)
    ensures After(true, h, n).suspendUntil >= h[i].now + BLOCKED_BACKOFF
  {
    RefinesHistory(h, n);
    assert Counts(h, i);
    assert Demand(h, i) == h[i].now + BLOCKED_BACKOFF;
  }

  /** A clear leaves no deadline, whatever there was before. */
  lemma ClearLifts(h: seq<Event>, j: nat)
    requires j < |h| && Clears(h, j)
    ensures After(true, h, j + 1).suspendUntil == 0
  {
    ParametersAreLastValues(true, h, j);
    ParametersAreLastValues(true, h, j + 1);
  }

  /** The ten minutes of a 403 stand in all of the next states. */
  ghost predicate BlockStands(h: seq<Event>, i: nat, n: nat)
    requires i < n <= |h|
  {
    forall m :: i < m <= n ==> After(true, h, m).suspendUntil >= h[i].now + BLOCKED_BACKOFF
  }

  /** A 403 is meant to block for ten minutes. It does, for all histories, if and only if none of the headers
      that follow changes the limits to values that leave no reason to wait: a change that leaves them exhausted
      does not lift the block. */
  lemma ForbiddenHoldsIff(h: seq<Event>, i: nat, n: nat)
    requires i < n <= |h| && Clocked(h)
    requires h[i] == MessageEnd(Forbidden, h[i].now)
    ensures BlockStands(h, i, n) <==> Unbroken(h, i, n)
  {
    if Unbroken(h, i, n) {
      forall m | i < m <= n
        ensures After(true, h, m).suspendUntil >= h[i].now + BLOCKED_BACKOFF
      {
        ForbiddenHolds(h, i, m);
      }
    } else {
      var j: nat :| i < j < n && Clears(h, j);
      ClearLifts(h, j);
    }
  }

  /** A reachable history in which new limits lift the block one nanosecond after the 403. */
  lemma ForbiddenCanBeLifted()
    ensures var h := [MessageEnd(Forbidden, 10), MessageHeader(RequestsRemain, 7, 11, 11)];
      Clocked(h) && After(true, h, 1).suspendUntil == 10 + BLOCKED_BACKOFF && After(true, h, 2).suspendUntil == 0
  {
    var h := [MessageEnd(Forbidden, 10), MessageHeader(RequestsRemain, 7, 11, 11)];
    assert After(true, h, 0) == View(0, 0, 0, 0);
    assert After(true, h, 1) == View(0, 0, 0, 10 + BLOCKED_BACKOFF);
  }

  /** In every reachable state exhausted limits come with a suspension. */
  lemma {:induction false} ExhaustedMeansSuspended(h: seq<Event>, n: nat)
    requires n <= |h| && Clocked(h)
    ensures var v := After(true, h, n); v.remain <= 0 && v.reset != 0 ==> v.suspendUntil > 0
  {
    if n > 0 {
      ExhaustedMeansSuspended(h, n - 1);
      RefinesHistory(h, n - 1);
    }
  }

  /** The deadline after a message that changes both limits, the remaining requests first. */
  function RemainFirst(v: View, remain: int, reset: int, now: int, nowUtc: int): int {
    var a, b := MessageHeader(RequestsRemain, remain, now, nowUtc), MessageHeader(ResetTimestamp, reset, now, nowUtc);
    Step(true, Step(true, v, a), b).suspendUntil
  }

  function ResetFirst(v: View, remain: int, reset: int, now: int, nowUtc: int): int {
    var a, b := MessageHeader(RequestsRemain, remain, now, nowUtc), MessageHeader(ResetTimestamp, reset, now, nowUtc);
    Step(true, Step(true, v, b), a).suspendUntil
  }

  /** When one message changes both limits, the order of its headers cannot hide a suspension: after both, the
      throttle is open exactly when the new limits say so. */
  lemma HeaderOrderKeepsOpenness(v: View, remain: int, reset: int, now: int, nowUtc: int, now': int, nowUtc': int)
    requires now >= 0 && now' >= 0
    requires remain != v.remain && reset != v.reset
    ensures var a := MessageHeader(RequestsRemain, remain, now, nowUtc);
      var b := MessageHeader(ResetTimestamp, reset, now', nowUtc');
      && (Step(true, Step(true, v, a), b).suspendUntil == 0 <==> remain > 0 || reset == 0)
      && (Step(true, Step(true, v, b), a).suspendUntil == 0 <==> remain > 0 || reset == 0)
  {
    assert Deadline(reset, now, nowUtc) > 0 && Deadline(reset, now', nowUtc') > 0;
  }

  /** The deadline itself may depend on the order: a limit that was not exhausted, or no reset time, clears the old
      deadline in one order only, and the old reset time asks for a deadline in one order only. With one reading of
      the clocks the orders agree exactly when the new reset time asks for at least what they differ by. */
  lemma HeaderOrdersAgreeIff(v: View, remain: int, reset: int, now: int, nowUtc: int)
    requires now >= 0 && remain != v.remain && reset != v.reset
    ensures RemainFirst(v, remain, reset, now, nowUtc) == ResetFirst(v, remain, reset, now, nowUtc)
      <==>
      || remain > 0 || reset == 0
      || (var asked, before := Deadline(reset, now, nowUtc), Deadline(v.reset, now, nowUtc);
          && (v.reset != 0 ==> before <= asked || (v.remain <= 0 && before <= v.suspendUntil))
          && ((v.reset == 0) != (v.remain > 0) ==> v.suspendUntil <= asked))
  {
    assert Deadline(reset, now, nowUtc) > 0;
  }

  /** A 429 is meant to hold back requests, but an old deadline that has passed is left alone:
      requests are held back after it exactly when none was set or the set one is still ahead. */
  lemma TooManyRequestsSuspendsIff(v: View, now: int)
    requires now >= 0
    ensures Step(true, v, MessageEnd(TooManyRequests, now)).suspendUntil > now
      <==> v.suspendUntil == 0 || v.suspendUntil > now
  {
  }

  /** A reachable state in which a 429 holds nothing back. */
  lemma TooManyRequestsMissed()
    ensures var h := [MessageEnd(TooManyRequests, 0), MessageEnd(TooManyRequests, DEFAULT_BACKOFF)];
      After(true, h, 2).suspendUntil <= h[1].now
  {
    var h := [MessageEnd(TooManyRequests, 0), MessageEnd(TooManyRequests, DEFAULT_BACKOFF)];
    assert After(true, h, 0) == View(0, 0, 0, 0);
    assert After(true, h, 1) == View(0, 0, 0, DEFAULT_BACKOFF);
  }

  lemma {:induction false} DisabledNeverSuspends(h: seq<Event>, n: nat)
    requires n <= |h|
    ensures After(false, h, n).suspendUntil == 0
  {
    if n > 0 {
      DisabledNeverSuspends(h, n - 1);
    }
  }
}
