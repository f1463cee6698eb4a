/** Every call of the hub inside a system run is a run of the loop of `hub_udp_send_command`. */
module Calls {
  import opened HubModel
  import opened Orders
  import opened HubSend
  import opened System
  import HubRuns
  import Bridge

  /** The call for `x` is in progress. */
  predicate Running(s: Sys, x: Order) { x.id in s.calls && s.calls[x.id].order == x }

  /** What the pass of the call for `x` met, if step `a` ends one. */
  ghost function PassEnded(s: Sys, a: Act, x: Order): seq<Attempt> {
    if !Running(s, x) then []
    else
      var c := s.calls[x.id];
      match a
      case CallSends(id, failed) => if id == x.id && !c.waiting && failed then [SendFailed] else []
      case CallWakes(id, timedOut) =>
        if id == x.id && c.waiting && c.slot < |s.hub.doors|
           && (timedOut || s.hub.doors[c.slot].feedbackId >= id) then [Waited(s.hub.doors[c.slot])]
        else []
      case _ => []
  }

  /** Whether step `a` sends a datagram of the call for `x`. */
  ghost function Departed(s: Sys, a: Act, x: Order): nat {
    if Running(s, x) && a.CallSends? && a.id == x.id && !a.failed && !s.calls[x.id].waiting then 1 else 0
  }

  /** What the passes of the call for `x` met in a run. */
  ghost function Passes(site: Site, acts: seq<Act>, x: Order): seq<Attempt> {
    if acts == [] then []
    else Passes(site, acts[..|acts| - 1], x) + PassEnded(RunAll(site, acts[..|acts| - 1]), acts[|acts| - 1], x)
  }

  ghost function Datagrams(site: Site, acts: seq<Act>, x: Order): nat {
    if acts == [] then 0
    else Datagrams(site, acts[..|acts| - 1], x) + Departed(RunAll(site, acts[..|acts| - 1]), acts[|acts| - 1], x)
  }

  lemma DeparturesNext(env: seq<Attempt>, a: Attempt)
    ensures Departures(env + [a], |env| + 1) == Departures(env, |env|) + if a.Waited? then 1 else 0
  {
    DeparturesSame(env, env + [a], |env|);
  }

  lemma {:induction false} DeparturesSame(env: seq<Attempt>, env': seq<Attempt>, n: nat)
    requires n <= |env| && n <= |env'| && env[..n] == env'[..n]
    ensures Departures(env, n) == Departures(env', n)
  {
    if n > 0 {
      assert env[..n - 1] == env[..n][..n - 1] && env'[..n - 1] == env'[..n][..n - 1];
      assert env[n - 1] == env[..n][n - 1] && env'[n - 1] == env'[..n][n - 1];
      DeparturesSame(env, env', n - 1);
    }
  }

  /** The call has met `env` in its ended passes and has sent `n` datagrams. */
  ghost predicate Track(s: Sys, x: Order, env: seq<Attempt>, n: nat) {
    if Issued(ByHub, x) !in s.trace then !Running(s, x) && env == [] && n == 0 && Acked(x) !in s.trace
    else if Running(s, x) then
      var c := s.calls[x.id];
      && |env| == c.attempt && (forall i | 0 <= i < |env| :: !Succeeds(env[i], x))
      && n == Departures(env, |env|) + (if c.waiting then 1 else 0) && Acked(x) !in s.trace
    else Ended(env, x, Acked(x) in s.trace, n)
  }

  ghost predicate Ended(env: seq<Attempt>, x: Order, ok: bool, n: nat) {
    && 1 <= |env| <= ACK_RETRIES + 1 && n == Departures(env, |env|)
    && (forall i | 0 <= i < |env| - 1 :: !Succeeds(env[i], x))
    && (ok <==> Succeeds(env[|env| - 1], x)) && (!ok ==> |env| == ACK_RETRIES + 1)
  }

  lemma TrackStep(s: Sys, a: Act, x: Order, env: seq<Attempt>, n: nat)
    requires HubOk(s.hub) && Inv(s) && Track(s, x, env, n)
    ensures Track(Next(s, a), x, env + PassEnded(s, a, x), n + Departed(s, a, x))
  {
    hide NetExplained, TraceJustified, RecordsBacked, ClientsBacked, Numbered, CallsOk, Called, Tried, Woken, Track;
    assert env + [] == env;
    match a
    case CallStarts(mod, target, action) => TrackCalled(s, Order(s.nextId, mod, target, action), x, env, n);
    case CallSends(id, failed) => TrackTried(s, id, failed, x, env, n);
    case CallWakes(id, timedOut) => TrackWoken(s, id, timedOut, x, env, n);
    case _ =>
      hide Next;
      OtherSteps(s, a, x);
      TrackSame(s, Next(s, a), x, env, n);
  }

  /** A step that does not concern `x`. */
  lemma TrackSame(s: Sys, s': Sys, x: Order, env: seq<Attempt>, n: nat)
    requires Track(s, x, env, n)
    requires Running(s', x) <==> Running(s, x)
    requires Running(s, x) ==> s'.calls[x.id] == s.calls[x.id]
    requires Issued(ByHub, x) in s'.trace <==> Issued(ByHub, x) in s.trace
    requires Acked(x) in s'.trace <==> Acked(x) in s.trace
    ensures Track(s', x, env, n)
  {
    hide Succeeds, Departures, Ended;
  }

  /** All other steps leave the calls alone and neither issue nor acknowledge a command of the hub. */
  lemma OtherSteps(s: Sys, a: Act, x: Order)
    requires HubOk(s.hub) && !a.CallStarts? && !a.CallSends? && !a.CallWakes?
    ensures Next(s, a).calls == s.calls
    ensures Issued(ByHub, x) in Next(s, a).trace <==> Issued(ByHub, x) in s.trace
    ensures Acked(x) in Next(s, a).trace <==> Acked(x) in s.trace
  {
    hide Sendable, Stray, ReadCommand, HubRuns.Step, Bridge.Answered, Bridge.FeedbackOf, CommandText, FeedbackWire;
  }

  lemma TrackCalled(s: Sys, o: Order, x: Order, env: seq<Attempt>, n: nat)
    requires Track(s, x, env, n) && o.id == s.nextId && CallsOk(s) && Numbered(s.trace, s.nextId, s.bridge.counter)
    ensures Track(Called(s, o), x, env, n)
  {
    hide Sendable, Succeeds, FindDoor, Ended;
    assert s.nextId in s.calls ==> CallOk(s, s.nextId, s.calls[s.nextId]);
    if Issued(ByHub, x) in s.trace {
      var k :| 0 <= k < |s.trace| && s.trace[k] == Issued(ByHub, x);
      assert x.id < s.nextId;
    }
    assert Departures([], 0) == 0;
  }

  lemma TrackTried(s: Sys, id: int, failed: bool, x: Order, env: seq<Attempt>, n: nat)
    requires Track(s, x, env, n) && CallsOk(s)
    ensures Track(Tried(s, id, failed), x, env + PassEnded(s, CallSends(id, failed), x), n + Departed(s, CallSends(id, failed), x))
  {
    hide Departures, CommandText, Track, Sendable, Succeeds;
    assert env + [] == env;
    if Running(s, x) && id == x.id && !s.calls[id].waiting {
      assert CallOk(s, id, s.calls[id]);
      if failed {
        PassFails(s, x, env, n, SendFailed) by { NoSendNoSuccess(x); }
      } else {
        DatagramLeaves(s, Tried(s, id, failed), x, env, n);
      }
    } else {
      TrackSame(s, Tried(s, id, failed), x, env, n);
    }
  }

  lemma NoSendNoSuccess(x: Order)
    ensures !Succeeds(SendFailed, x)
  {
  }

  lemma TrackWoken(s: Sys, id: int, timedOut: bool, x: Order, env: seq<Attempt>, n: nat)
    requires Track(s, x, env, n) && CallsOk(s)
    ensures Track(Woken(s, id, timedOut), x, env + PassEnded(s, CallWakes(id, timedOut), x), n + Departed(s, CallWakes(id, timedOut), x))
  {
    hide Departures, Track, Sendable;
    assert env + [] == env;
    if Running(s, x) && id == x.id && s.calls[id].waiting {
      assert CallOk(s, id, s.calls[id]);
      var door := s.hub.doors[s.calls[id].slot];
      if Acknowledges(door, x) {
        CallAcked(s, Woken(s, id, timedOut), x, env, n, Waited(door));
      } else if timedOut || door.feedbackId >= id {
        PassFails(s, x, env, n, Waited(door));
      }
    } else {
      hide Acknowledges;
      AckedNow(s, id, timedOut, x);
      TrackSame(s, Woken(s, id, timedOut), x, env, n);
    }
  }

  /** Waking another call, or one that does not wait, leaves `x` alone. */
  lemma AckedNow(s: Sys, id: int, timedOut: bool, x: Order)
    requires CallsOk(s) && !(Running(s, x) && id == x.id && s.calls[id].waiting)
    ensures var s' := Woken(s, id, timedOut);
      && (Acked(x) in s'.trace <==> Acked(x) in s.trace) && (Issued(ByHub, x) in s'.trace <==> Issued(ByHub, x) in s.trace)
      && (Running(s', x) <==> Running(s, x)) && (Running(s, x) ==> s'.calls[x.id] == s.calls[x.id])
  {
    hide Acknowledges;
    if id in s.calls && s.calls[id].waiting {
      assert CallOk(s, id, s.calls[id]);
      hide CallOk;
      WokenTrace(s, id, timedOut, x);
      WokenCalls(s, id, timedOut, x);
    }
  }

  lemma WokenTrace(s: Sys, id: int, timedOut: bool, x: Order)
    requires id in s.calls && s.calls[id].order != x
    ensures var s' := Woken(s, id, timedOut);
      (Acked(x) in s'.trace <==> Acked(x) in s.trace) && (Issued(ByHub, x) in s'.trace <==> Issued(ByHub, x) in s.trace)
  {
    hide Acknowledges;
    Appended(s.trace, Acked(s.calls[id].order), Acked(x));
    Appended(s.trace, Acked(s.calls[id].order), Issued(ByHub, x));
  }

  lemma Appended(trace: seq<Obs>, y: Obs, z: Obs)
    ensures z in trace + [y] <==> z in trace || z == y
  {
  }

  lemma WokenCalls(s: Sys, id: int, timedOut: bool, x: Order)
    requires id in s.calls && (x.id == id ==> !Running(s, x))
    ensures var s' := Woken(s, id, timedOut);
      (Running(s', x) <==> Running(s, x)) && (Running(s, x) ==> s'.calls[x.id] == s.calls[x.id])
  {
    hide Acknowledges;
  }

  lemma PassFails(s: Sys, x: Order, env: seq<Attempt>, n: nat, a: Attempt)
    requires Running(s, x) && Track(s, x, env, n) && s.calls[x.id].attempt <= ACK_RETRIES
    requires !Succeeds(a, x) && (a.Waited? <==> s.calls[x.id].waiting)
    ensures Track(NextPass(s, x.id), x, env + [a], n)
  {
    hide Departures, Succeeds;
    DeparturesNext(env, a);
  }

  lemma CallAcked(s: Sys, s': Sys, x: Order, env: seq<Attempt>, n: nat, a: Attempt)
    requires Running(s, x) && Track(s, x, env, n) && s.calls[x.id].attempt <= ACK_RETRIES
    requires Succeeds(a, x) && s.calls[x.id].waiting && !Running(s', x) && s'.trace == s.trace + [Acked(x)]
    ensures Track(s', x, env + [a], n)
  {
    hide Departures, Succeeds;
    DeparturesNext(env, a);
    assert a.Waited? by { SuccessWaited(a, x); }
    assert Acked(x) in s'.trace;
  }

  lemma SuccessWaited(a: Attempt, x: Order)
    requires Succeeds(a, x)
    ensures a.Waited?
  {
  }

  lemma DatagramLeaves(s: Sys, s': Sys, x: Order, env: seq<Attempt>, n: nat)
    requires Running(s, x) && Track(s, x, env, n) && !s.calls[x.id].waiting
    requires Running(s', x) && s'.trace == s.trace
    requires s'.calls[x.id].attempt == s.calls[x.id].attempt && s'.calls[x.id].waiting
    ensures Track(s', x, env, n + 1)
  {
    hide Departures, Succeeds;
  }

  lemma {:induction false} TrackAlways(site: Site, acts: seq<Act>, x: Order)
    ensures Track(RunAll(site, acts), x, Passes(site, acts, x), Datagrams(site, acts, x))
  {
    hide Next, Track, PassEnded, Departed;
    if acts == [] {
      TrackAtStart(site, x);
    } else {
      var past, a := acts[..|acts| - 1], acts[|acts| - 1];
      TrackAlways(site, past, x);
      InvAlways(site, past);
      hide Inv;
      TrackStep(RunAll(site, past), a, x, Passes(site, past, x), Datagrams(site, past, x));
    }
  }

  lemma TrackAtStart(site: Site, x: Order)
    ensures Track(Start(site), x, [], 0)
  {
  }

  /** The passes met, filled up to the full number of passes. */
  function Padded(env: seq<Attempt>): (r: seq<Attempt>)
    requires |env| <= ACK_RETRIES + 1
    ensures |r| == ACK_RETRIES + 1 && env <= r
  {
    env + seq(ACK_RETRIES + 1 - |env|, _ => NoSocket)
  }

  /**
   Every call that has ended in a system run ended as the loop of `hub_udp_send_command` does on what its
   passes met in that run: same result, same number of passes, same number of datagrams.
   */
  lemma {:induction false} CallsAreLoops(site: Site, acts: seq<Act>, x: Order)
    requires Issued(ByHub, x) in RunAll(site, acts).trace && !Running(RunAll(site, acts), x)
    ensures var env := Passes(site, acts, x);
      && 1 <= |env| <= 3
      && LoopResult(Padded(env), x, Acked(x) in RunAll(site, acts).trace, |env|, Datagrams(site, acts, x))
  {
    hide RunAll, Succeeds, Passes, Datagrams;
    TrackAlways(site, acts, x);
    var env := Passes(site, acts, x);
    DeparturesSame(env, Padded(env), |env|);
    assert forall i | 0 <= i < |env| :: Padded(env)[i] == env[i];
  }
}
