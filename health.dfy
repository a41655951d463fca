/** The heartbeat tracker of a connection. It counts arrived packages and,
    tick after tick, decides whether to ask the server for a heartbeat and
    whether the connection has gone silent for too long. */
module Health {
  import opened Wire

  datatype HeartbeatStatus =
    | Init
    | Delay(num: U32, start: Instant)
    | Timeout(num: U32, start: Instant)

  datatype Heartbeat = Valid | Failure

  datatype TrackerState = TrackerState(pkgNum: U32, status: HeartbeatStatus)

  /** The outcome of one `manage_heartbeat` call: the next status, the
      verdict, and whether a heartbeat request goes out on the connection. */
  datatype Decision = Decision(status: HeartbeatStatus, heartbeat: Heartbeat, requestSent: bool)

  /** One heartbeat check at time `now`. A changed package count restarts
      the delay; a quiet delay leads to one heartbeat request; a quiet
      timeout is a failure. */
  function Manage(t: TrackerState, now: Instant, delay: nat, timeout: nat): (d: Decision)
    ensures d.heartbeat == Failure <==>
              t.status.Timeout? && t.status.num == t.pkgNum
              && Elapsed(t.status.start, now) >= timeout
    ensures d.requestSent <==>
              t.status.Delay? && t.status.num == t.pkgNum
              && Elapsed(t.status.start, now) >= delay
    ensures d.requestSent ==> d.status == Timeout(t.pkgNum, now)
    ensures t.status.Init? ==> d.status == Delay(t.pkgNum, now)
    ensures !t.status.Init? && t.status.num != t.pkgNum ==> d.status == Delay(t.pkgNum, now)
    ensures !t.status.Init? && t.status.num == t.pkgNum && !d.requestSent ==> d.status == t.status
    ensures !d.status.Init?
  {
    match t.status
    case Init =>
      Decision(Delay(t.pkgNum, now), Valid, false)
    case Delay(num, start) =>
      if t.pkgNum != num then
        Decision(Delay(t.pkgNum, now), Valid, false)
      else if Elapsed(start, now) >= delay then
        Decision(Timeout(t.pkgNum, now), Valid, true)
      else
        Decision(t.status, Valid, false)
    case Timeout(num, start) =>
      if t.pkgNum != num then
        Decision(Delay(t.pkgNum, now), Valid, false)
      else if Elapsed(start, now) >= timeout then
        Decision(t.status, Failure, false)
      else
        Decision(t.status, Valid, false)
  }

  /** Ticks at the given times with no package arriving in between. */
  function QuietRun(t: TrackerState, times: seq<Instant>, delay: nat, timeout: nat): (ds: seq<Decision>)
    ensures |ds| == |times|
    decreases |times|
  {
    if times == [] then []
    else
      var d := Manage(t, times[0], delay, timeout);
      [d] + QuietRun(t.(status := d.status), times[1..], delay, timeout)
  }

  /** How many of the decisions sent a heartbeat request. */
  function Requests(ds: seq<Decision>): nat {
    if ds == [] then 0
    else (if ds[0].requestSent then 1 else 0) + Requests(ds[1..])
  }

  predicate NonDecreasing(times: seq<Instant>) {
    forall i, j :: 0 <= i <= j < |times| ==> times[i] <= times[j]
  }

  /** The status of a quiet run whose first tick was at `t0`, with `sent`
      the heartbeat requests so far. */
  ghost predicate QuietSince(s: HeartbeatStatus, n: U32, t0: Instant, delay: nat, sent: nat) {
    match s
    case Init => false
    case Delay(m, start) => m == n && start == t0 && sent == 0
    case Timeout(m, start) => m == n && start >= t0 + delay && sent == 1
  }

  lemma {:induction false} QuietRunFrom(t: TrackerState, times: seq<Instant>, delay: nat, timeout: nat,
                                        t0: Instant, sent: nat, i: nat)
    requires QuietSince(t.status, t.pkgNum, t0, delay, sent)
    requires NonDecreasing(times)
    requires forall k :: 0 <= k < |times| ==> t.status.start <= times[k]
    requires i < |times|
    requires QuietRun(t, times, delay, timeout)[i].heartbeat == Failure
    ensures times[i] >= t0 + delay + timeout
    ensures sent + Requests(QuietRun(t, times, delay, timeout)[..i]) == 1
    decreases |times|
  {
    var ds := QuietRun(t, times, delay, timeout);
    var d := Manage(t, times[0], delay, timeout);
    var rest := QuietRun(t.(status := d.status), times[1..], delay, timeout);
    assert ds == [d] + rest;
    if i == 0 {
      assert ds[..0] == [];
    } else {
      var sent' := sent + (if d.requestSent then 1 else 0);
      assert QuietSince(d.status, t.pkgNum, t0, delay, sent');
      assert NonDecreasing(times[1..]);
      QuietRunFrom(t.(status := d.status), times[1..], delay, timeout, t0, sent', i - 1);
      assert ds[..i] == [d] + rest[..i - 1];
      assert ([d] + rest[..i - 1])[1..] == rest[..i - 1];
    }
  }

  /** From a freshly reset tracker, with no package arriving, a failure is
      declared only after exactly one heartbeat request went out and at
      least `delay + timeout` has passed since the first tick. */
  lemma {:induction false} QuietFailure(n: U32, times: seq<Instant>, delay: nat, timeout: nat, i: nat)
    requires NonDecreasing(times)
    requires i < |times|
    requires QuietRun(TrackerState(n, Init), times, delay, timeout)[i].heartbeat == Failure
    ensures times[i] >= times[0] + delay + timeout
    ensures Requests(QuietRun(TrackerState(n, Init), times, delay, timeout)[..i]) == 1
  {
    var t := TrackerState(n, Init);
    var ds := QuietRun(t, times, delay, timeout);
    var d := Manage(t, times[0], delay, timeout);
    var rest := QuietRun(t.(status := d.status), times[1..], delay, timeout);
    assert ds == [d] + rest;
    assert i != 0;
    assert NonDecreasing(times[1..]);
    QuietRunFrom(t.(status := d.status), times[1..], delay, timeout, times[0], 0, i - 1);
    assert ds[..i] == [d] + rest[..i - 1];
    assert ([d] + rest[..i - 1])[1..] == rest[..i - 1];
  }

  /** The tracker a connection owns; the delays come from the settings. */
  class HealthTracker {
    var pkgNum: U32
    var state: HeartbeatStatus
    const heartbeatDelay: nat
    const heartbeatTimeout: nat

    function Snapshot(): TrackerState
      reads this
    {
      TrackerState(pkgNum, state)
    }

    constructor (delay: nat, timeout: nat)
      ensures Snapshot() == TrackerState(0, Init)
      ensures heartbeatDelay == delay && heartbeatTimeout == timeout
    {
      pkgNum := 0;
      state := Init;
      heartbeatDelay := delay;
      heartbeatTimeout := timeout;
    }

    /** One more package arrived. */
    method IncrPkgNum()
      modifies this
      ensures pkgNum == WrappingIncr(old(pkgNum))
      ensures state == old(state)
    {
      pkgNum := WrappingIncr(pkgNum);
    }

    method Reset()
      modifies this
      ensures state == Init
      ensures pkgNum == old(pkgNum)
    {
      state := Init;
    }

    /** The caller enqueues the heartbeat request when `requestSent`. */
    method ManageHeartbeat(now: Instant) returns (heartbeat: Heartbeat, requestSent: bool)
      modifies this
      ensures pkgNum == old(pkgNum)
      ensures Decision(state, heartbeat, requestSent)
                == Manage(old(Snapshot()), now, heartbeatDelay, heartbeatTimeout)
    {
      heartbeat, requestSent := Valid, false;
      match state
      case Init =>
        state := Delay(pkgNum, now);
      case Delay(num, start) =>
        if pkgNum != num {
          state := Delay(pkgNum, now);
        } else if Elapsed(start, now) >= heartbeatDelay {
          state := Timeout(pkgNum, now);
          requestSent := true;
        }
      case Timeout(num, start) =>
        if pkgNum != num {
          state := Delay(pkgNum, now);
        } else if Elapsed(start, now) >= heartbeatTimeout {
          heartbeat := Failure;
        }
    }
  }
}
