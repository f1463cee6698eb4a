/**
 When the hub may call a module offline: a timed run of one module's reports, the delivery of its
 heartbeats, and everything else the hub does, under bounds a deployment can check.
 */
module Timing {
  import opened Prelude
  import opened Wire
  import opened HubModel
  import opened HubTables
  import opened HubRuns
  import opened DoorReport
  import opened Replica

  /** Updates at most `gap` apart; every heartbeat handled within `delay` of being sent. */
  datatype Bounds = Bounds(gap: int, delay: int)

  datatype Tick =
    | Sampled(sample: Sample, t: int)
    | Handled(k: nat, t: int)
    | Elsewhere(e: Ev, t: int)

  /** `sent[k]` is the time the k-th heartbeat left, `handled` those the hub has processed. */
  datatype World = World(hub: HubState, reporter: Reporter, now: int, lastUpdate: int,
                         sent: seq<int>, beats: seq<string>, handled: set<nat>)

  ghost predicate Good(w: World) { HubOk(w.hub) && |w.sent| == |w.beats| }

  predicate SendsBeat(c: Config, r: Reporter, t: int) {
    r.sockOpen && c.mode.heartbeat && (!r.valid || Due(c, r, t))
  }

  ghost function Next(c: Config, src: Addr, w: World, tick: Tick): (w': World)
    requires Good(w)
    ensures Good(w') && w'.now == tick.t
  {
    match tick
    case Sampled(s, t) =>
      var (r, packets) := Update(c, w.reporter, s, t);
      var w1 := w.(reporter := r, now := t, lastUpdate := t);
      if SendsBeat(c, w.reporter, t) then
        w1.(sent := w.sent + [t], beats := w.beats + [HeartbeatLine(c.id, s.d0Open, s.d1Locked)])
      else w1
    case Handled(k, t) =>
      if k < |w.sent| then w.(hub := Deliver(w.hub, w.beats[k], src, t), handled := w.handled + {k}, now := t)
      else w.(now := t)
    case Elsewhere(e, t) => w.(hub := Step(w.hub, e).0, now := t)
  }

  /** The bounds hold up to this tick: nothing is overdue when it happens. */
  ghost predicate Timely(b: Bounds, w: World, tick: Tick) {
    && w.now <= tick.t
    && (w.reporter.valid ==> tick.t <= w.lastUpdate + b.gap)
    && (forall k | 0 <= k < |w.sent| && k !in w.handled :: tick.t <= w.sent[k] + b.delay)
    && (tick.Handled? ==> tick.k < |w.sent|)
    && (tick.Elsewhere? ==> (if tick.e.Check? then tick.e.now == tick.t else tick.e.t == tick.t))
    && (tick.Elsewhere? && Names(tick.e) ==> |Toks(tick.e)[0]| <= ID_CHARS)
  }

  ghost function Start(c: Config, hub: HubState, now: int): World {
    World(hub, Reporter(true, false, false, false, false, false, now), now, now, [], [], {})
  }

  ghost function Run(c: Config, src: Addr, w: World, ticks: seq<Tick>): (w': World)
    requires Good(w)
    ensures Good(w')
  {
    if ticks == [] then w else Next(c, src, Run(c, src, w, ticks[..|ticks| - 1]), ticks[|ticks| - 1])
  }

  ghost predicate TimelyRun(c: Config, src: Addr, b: Bounds, w: World, ticks: seq<Tick>)
    requires Good(w)
  {
    ticks == [] ||
    (TimelyRun(c, src, b, w, ticks[..|ticks| - 1])
     && Timely(b, Run(c, src, w, ticks[..|ticks| - 1]), ticks[|ticks| - 1]))
  }

  // ---------- Spacing of heartbeats ----------

  /** Heartbeats leave at least one period and at most period + gap - 1 apart. */
  ghost predicate Spaced(c: Config, b: Bounds, w: World) {
    && (w.reporter.sockOpen && c.mode.heartbeat)
    && (w.sent != [] <==> w.reporter.valid)
    && w.lastUpdate <= w.now
    && (w.sent != [] ==>
         w.reporter.lastHeartbeat == w.sent[|w.sent| - 1] <= w.lastUpdate < w.sent[|w.sent| - 1] + c.period)
    && (forall k | 0 <= k < |w.sent| :: w.sent[k] <= w.lastUpdate)
    && Apart(w.sent, c.period, c.period + b.gap - 1)
  }

  /** Neighbours are at least `lo` and at most `hi` apart. */
  ghost predicate Apart(sent: seq<int>, lo: int, hi: int) {
    forall k | 0 < k < |sent| :: sent[k - 1] + lo <= sent[k] <= sent[k - 1] + hi
  }

  lemma OneMoreApart(sent: seq<int>, t: int, lo: int, hi: int)
    requires Apart(sent, lo, hi) && (sent != [] ==> sent[|sent| - 1] + lo <= t <= sent[|sent| - 1] + hi)
    ensures Apart(sent + [t], lo, hi)
  {
  }

  lemma NextKeepsSpacing(c: Config, src: Addr, b: Bounds, w: World, tick: Tick)
    requires Good(w) && Spaced(c, b, w) && Timely(b, w, tick) && c.period > 0
    ensures Spaced(c, b, Next(c, src, w, tick))
  {
    hide HeartbeatLine, Deliver, Step, Update;
    if tick.Sampled? {
      hide Spaced, Good;
      SampleKeepsSpacing(c, src, b, w, tick);
    }
  }

  lemma SampleKeepsSpacing(c: Config, src: Addr, b: Bounds, w: World, tick: Tick)
    requires Good(w) && Spaced(c, b, w) && Timely(b, w, tick) && c.period > 0 && tick.Sampled?
    ensures Spaced(c, b, Next(c, src, w, tick))
  {
    hide HeartbeatLine, Deliver, Step, Update, SendsBeat, Apart, HubOk;
    var w', t := Next(c, src, w, tick), tick.t;
    UpdateClock(c, w.reporter, tick.sample, t);
    if SendsBeat(c, w.reporter, t) {
      OneMoreApart(w.sent, t, c.period, c.period + b.gap - 1);
    }
  }

  lemma UpdateClock(c: Config, r: Reporter, s: Sample, t: int)
    requires r.sockOpen && c.mode.heartbeat
    ensures SendsBeat(c, r, t) <==> !r.valid || t - r.lastHeartbeat >= c.period
    ensures var r' := Update(c, r, s, t).0;
      r'.sockOpen && r'.valid && r'.lastHeartbeat == if SendsBeat(c, r, t) then t else r.lastHeartbeat
  {
    hide Notices, Pulses;
  }

  /** The heartbeats counted are the ones the module sends. */
  lemma BeatsAreSent(c: Config, r: Reporter, s: Sample, t: int)
    ensures forall p | p in Update(c, r, s, t).1 && p.Pulse? :: SendsBeat(c, r, t)
    ensures SendsBeat(c, r, t) ==> Pulse(HeartbeatLine(c.id, s.d0Open, s.d1Locked)) in Update(c, r, s, t).1
  {
    hide HeartbeatLine, EventLine;
  }

  lemma {:induction false} HeartbeatSpacing(c: Config, src: Addr, b: Bounds, hub: HubState, t0: int, ticks: seq<Tick>)
    requires HubOk(hub) && c.mode.heartbeat && c.period > 0
    requires TimelyRun(c, src, b, Start(c, hub, t0), ticks)
    ensures Spaced(c, b, Run(c, src, Start(c, hub, t0), ticks))
  {
    hide Next, Timely;
    if ticks != [] {
      HeartbeatSpacing(c, src, b, hub, t0, ticks[..|ticks| - 1]);
      NextKeepsSpacing(c, src, b, Run(c, src, Start(c, hub, t0), ticks[..|ticks| - 1]), ticks[|ticks| - 1]);
    }
  }

  // ---------- The hub's clock for the module ----------

  ghost predicate IsBeat(id: string, line: string) {
    exists o, l :: line == HeartbeatLine(id, o, l)
  }

  /** The record's heartbeat time is no older than any handled heartbeat's departure. */
  ghost predicate Fresh(c: Config, w: World) {
    && (forall k | k in w.handled :: k < |w.sent|)
    && (forall k | 0 <= k < |w.beats| :: IsBeat(c.id, w.beats[k]))
    && (w.handled != {} ==>
         match Lookup(w.hub.doors, c.id)
         case Some(d) => (forall k | k in w.handled :: w.sent[k] <= d.lastHeartbeat) && d.lastHeartbeat <= w.now
         case None => DoorsFull(w.hub))
  }

  /** Any line or check keeps a module's heartbeat time or moves it to the present. */
  lemma StepKeepsFresh(h: HubState, e: Ev, id: string)
    requires HubOk(h) && (Names(e) ==> |Toks(e)[0]| <= ID_CHARS)
    requires Lookup(h.doors, id).Some? || DoorsFull(h)
    ensures match Lookup(h.doors, id)
      case Some(d) =>
        var d' := Lookup(Step(h, e).0.doors, id);
        d'.Some? && (d'.value.lastHeartbeat == d.lastHeartbeat || (e.Arrive? && d'.value.lastHeartbeat == e.t))
      case None => Lookup(Step(h, e).0.doors, id) == None && DoorsFull(Step(h, e).0)
  {
    hide FindDoor, KindOf, DoorAfter, DoorsAfter, FreeDoor, CheckOffline;
    if Lookup(h.doors, id) == None {
      StepFullUntracked(h, e, id);
    } else {
      match e
      case Check(now) => CheckDoorsLookup(h, now, id);
      case Arrive(line, src, t, issued) =>
        if Names(e) {
          LineDoors(h, line, src, t, issued);
          LineTouchesOneDoor(h.doors, Toks(e), src, t, id);
          if DoorSlot(h.doors, Toks(e)[0]) < |h.doors| {
            DoorAfterKeeps(Heard(ClaimedDoor(h.doors, Toks(e)[0]), Toks(e), src), Toks(e), t);
          }
        } else {
          IgnoredLine(h, e);
        }
        hide HandleLine;
    }
  }

  lemma NextKeepsFresh(c: Config, src: Addr, b: Bounds, w: World, tick: Tick)
    requires Good(w) && Spaced(c, b, w) && Fresh(c, w) && Timely(b, w, tick) && GoodId(c.id)
    ensures Fresh(c, Next(c, src, w, tick))
  {
    hide Lookup, HeartbeatLine, Deliver, Step, Notices, DoorsFull, Toks;
    match tick
    case Sampled(s, t) =>
    case Handled(k, t) =>
      var o, l :| w.beats[k] == HeartbeatLine(c.id, o, l);
      HeartbeatRestoresAgreement(w.hub, c.id, o, l, src, t);
      if DoorsFull(w.hub) {
        DeliveredBeatFull(w.hub, c.id, o, l, src, t);
      }
    case Elsewhere(e, t) =>
      hide IsBeat;
      if w.handled != {} {
        StepKeepsFresh(w.hub, e, c.id);
        var w' := Next(c, src, w, tick);
        assert w'.hub == Step(w.hub, e).0;
        match Lookup(w.hub.doors, c.id)
        case None =>
        case Some(d) => assert w.now <= t && Lookup(w'.hub.doors, c.id).Some?;
      }
  }

  lemma DeliveredBeatFull(h: HubState, id: string, o: bool, l: bool, src: Addr, t: int)
    requires HubOk(h) && DoorsFull(h)
    ensures DoorsFull(Deliver(h, HeartbeatLine(id, o, l), src, t))
  {
    hide HeartbeatLine, DoorsFull;
    DoorsStayFull(h, Arrive(Received(HeartbeatLine(id, o, l)), src, t, t));
  }

  lemma {:induction false} AlwaysFresh(c: Config, src: Addr, b: Bounds, hub: HubState, t0: int, ticks: seq<Tick>)
    requires HubOk(hub) && c.mode.heartbeat && c.period > 0 && GoodId(c.id)
    requires TimelyRun(c, src, b, Start(c, hub, t0), ticks)
    ensures Fresh(c, Run(c, src, Start(c, hub, t0), ticks))
  {
    hide Next, Timely, Lookup, HeartbeatLine;
    if ticks != [] {
      var past := ticks[..|ticks| - 1];
      AlwaysFresh(c, src, b, hub, t0, past);
      HeartbeatSpacing(c, src, b, hub, t0, past);
      NextKeepsFresh(c, src, b, Run(c, src, Start(c, hub, t0), past), ticks[|ticks| - 1]);
    }
  }

  // ---------- No false alarm ----------

  /** A check at this time turns the module's record from online to offline. */
  ghost predicate Marks(h: HubState, now: int, id: string)
    requires HubOk(h)
  {
    match Lookup(h.doors, id)
    case None => false
    case Some(d) =>
      !d.offline && match Lookup(Step(h, Check(now)).0.doors, id) case Some(e) => e.offline case None => false
  }

  lemma MarksIfOverdue(h: HubState, now: int, id: string)
    requires HubOk(h)
    ensures Marks(h, now, id) <==>
            match Lookup(h.doors, id) case Some(d) => now - d.lastHeartbeat > OFFLINE_TIMEOUT_MS && !d.offline case None => false
  {
    hide Lookup, CheckEntries;
    CheckStep(h, now);
    CheckDoorsLookup(h, now, id);
    LookupKnown(h.doors, id);
    hide Step, CheckOffline;
  }

  /** Some handled heartbeat is recent: its successor is unsent or still under way. */
  lemma {:induction false} RecentBeat(c: Config, b: Bounds, w: World, tick: Tick, n: nat) returns (k: nat)
    requires Good(w) && Spaced(c, b, w) && Timely(b, w, tick) && b.delay >= 0
    requires n <= |w.sent| && (n == |w.sent| || n !in w.handled)
    requires exists j | j in w.handled :: j < n
    ensures k in w.handled && k < |w.sent| && tick.t <= w.sent[k] + c.period + b.gap - 1 + b.delay
  {
    if n - 1 in w.handled {
      k := n - 1;
    } else {
      k := RecentBeat(c, b, w, tick, n - 1);
    }
  }

  /**
   No false OFFLINE: when period + gap - 1 + delay is at most the ten second timeout, no check of
   any timely run marks the module offline once one of its heartbeats has been handled.
   */
  lemma {:induction false} NoFalseOffline(c: Config, src: Addr, b: Bounds, hub: HubState, t0: int, ticks: seq<Tick>, now: int)
    requires HubOk(hub) && c.mode.heartbeat && c.period > 0 && b.delay >= 0 && GoodId(c.id)
    requires c.period + b.gap - 1 + b.delay <= 10000
    requires TimelyRun(c, src, b, Start(c, hub, t0), ticks + [Elsewhere(Check(now), now)])
    requires Run(c, src, Start(c, hub, t0), ticks).handled != {}
    ensures !Marks(Run(c, src, Start(c, hub, t0), ticks).hub, now, c.id)
  {
    hide Next, Lookup;
    var w := Run(c, src, Start(c, hub, t0), ticks);
    MarksIfOverdue(w.hub, now, c.id);
    var tick := Elsewhere(Check(now), now);
    assert (ticks + [tick])[..|ticks|] == ticks;
    HeartbeatSpacing(c, src, b, hub, t0, ticks);
    AlwaysFresh(c, src, b, hub, t0, ticks);
    var j :| j in w.handled;
    var k := RecentBeat(c, b, w, tick, |w.sent|);
  }

  // ---------- The bound is exact ----------

  lemma {:induction false} RunSplit(c: Config, src: Addr, b: Bounds, w: World, u: seq<Tick>, v: seq<Tick>)
    requires Good(w)
    ensures Run(c, src, w, u + v) == Run(c, src, Run(c, src, w, u), v)
    ensures TimelyRun(c, src, b, w, u + v) <==>
            TimelyRun(c, src, b, w, u) && TimelyRun(c, src, b, Run(c, src, w, u), v)
    decreases |v|
  {
    hide Next, Timely, Good;
    if v == [] {
      assert u + v == u;
    } else {
      assert (u + v)[..|u + v| - 1] == u + v[..|v| - 1] && (u + v)[|u + v| - 1] == v[|v| - 1];
      RunSplit(c, src, b, w, u, v[..|v| - 1]);
    }
  }

  lemma RunOne(c: Config, src: Addr, b: Bounds, w: World, tick: Tick)
    requires Good(w)
    ensures Run(c, src, w, [tick]) == Next(c, src, w, tick)
    ensures TimelyRun(c, src, b, w, [tick]) <==> Timely(b, w, tick)
  {
    hide Next, Timely, Good;
    assert [tick][..0] == [];
    assert Run(c, src, w, []) == w && TimelyRun(c, src, b, w, []);
  }

  /** The module reports the same sample at each of the `n` milliseconds after `t`. */
  function Idle(s: Sample, t: int, n: nat): seq<Tick> {
    if n == 0 then [] else Idle(s, t, n - 1) + [Sampled(s, t + n)]
  }

  /** Nothing sent and not yet handled is overdue by time `t`. */
  ghost predicate InTime(b: Bounds, w: World, t: int) {
    forall k | 0 <= k < |w.sent| && k !in w.handled :: t <= w.sent[k] + b.delay
  }

  /** A world just after a report. */
  ghost predicate JustReported(c: Config, b: Bounds, w: World) {
    Good(w) && Spaced(c, b, w) && w.reporter.valid && w.now == w.lastUpdate
  }

  /** Reporting until `w'.now` left the hub alone; before the next heartbeat is due it sent nothing. */
  ghost predicate Idled(c: Config, w: World, w': World) {
    && w'.hub == w.hub && w'.handled == w.handled
    && (w'.now < w.reporter.lastHeartbeat + c.period ==>
          w'.sent == w.sent && w'.beats == w.beats && w'.reporter.lastHeartbeat == w.reporter.lastHeartbeat)
  }

  lemma IdleStep(c: Config, src: Addr, b: Bounds, w: World, s: Sample, end: int)
    requires JustReported(c, b, w) && c.period > 0 && b.gap >= 1 && w.now < end && InTime(b, w, end)
    requires end < w.reporter.lastHeartbeat + c.period || end <= w.now + 1 + b.delay
    ensures Timely(b, w, Sampled(s, w.now + 1))
    ensures var w' := Next(c, src, w, Sampled(s, w.now + 1));
      JustReported(c, b, w') && Idled(c, w, w') && InTime(b, w', end)
  {
    hide HeartbeatLine, Notices;
    NextKeepsSpacing(c, src, b, w, Sampled(s, w.now + 1));
  }

  /** Reporting every millisecond stays timely as long as no heartbeat can become overdue before `end`. */
  lemma {:induction false} IdleRun(c: Config, src: Addr, b: Bounds, w: World, s: Sample, n: nat, end: int)
    requires JustReported(c, b, w) && c.period > 0 && b.gap >= 1 && w.now + n <= end && InTime(b, w, end)
    requires end < w.reporter.lastHeartbeat + c.period || end <= w.now + 1 + b.delay
    ensures TimelyRun(c, src, b, w, Idle(s, w.now, n))
    ensures var w' := Run(c, src, w, Idle(s, w.now, n));
      w'.now == w.now + n && JustReported(c, b, w') && Idled(c, w, w') && InTime(b, w', end)
  {
    hide Next, Timely, Spaced, InTime, HubOk;
    if n > 0 {
      hide Run, TimelyRun;
      IdleRun(c, src, b, w, s, n - 1, end);
      IdleOnce(c, src, b, w, s, Idle(s, w.now, n - 1), n - 1, end);
    }
  }

  lemma IdleOnce(c: Config, src: Addr, b: Bounds, w: World, s: Sample, front: seq<Tick>, n: nat, end: int)
    requires Good(w) && c.period > 0 && b.gap >= 1 && TimelyRun(c, src, b, w, front)
    requires var w1 := Run(c, src, w, front);
      w1.now == w.now + n < end && JustReported(c, b, w1) && Idled(c, w, w1) && InTime(b, w1, end)
    requires end < w.reporter.lastHeartbeat + c.period || end <= w.now + 1 + b.delay
    ensures var longer := front + [Sampled(s, w.now + n + 1)];
      && TimelyRun(c, src, b, w, longer)
      && var w2 := Run(c, src, w, longer);
         w2.now == w.now + n + 1 && JustReported(c, b, w2) && Idled(c, w, w2) && InTime(b, w2, end)
  {
    hide Next, Timely, Spaced, InTime, HubOk, Run, TimelyRun;
    var w1, tick := Run(c, src, w, front), Sampled(s, w.now + n + 1);
    RunSplit(c, src, b, w, front, [tick]);
    RunOne(c, src, b, w1, tick);
    IdleStep(c, src, b, w1, s, end);
  }

  /** The opening: the first report sends a heartbeat and a fresh hub handles it at once. */
  function Opening(s: Sample): seq<Tick> { [Sampled(s, 0), Handled(0, 0)] }

  lemma AfterOpening(c: Config, src: Addr, b: Bounds, s: Sample)
    requires c.mode.heartbeat && GoodId(c.id) && c.period > 0 && b.gap >= 1 && b.delay >= 0
    ensures TimelyRun(c, src, b, Start(c, InitialHub(), 0), Opening(s))
    ensures var w := Run(c, src, Start(c, InitialHub(), 0), Opening(s));
      && JustReported(c, b, w) && w.now == 0 && w.sent == [0] && w.handled == {0} && w.reporter.lastHeartbeat == 0
      && Lookup(w.hub.doors, c.id).Some?
      && Lookup(w.hub.doors, c.id).value.lastHeartbeat == 0 && !Lookup(w.hub.doors, c.id).value.offline
  {
    Opened(c, src, b, s);
    HeartbeatSpacing(c, src, b, InitialHub(), 0, Opening(s));
    FirstBeat(c.id, s.d0Open, s.d1Locked, src);
    hide Run, TimelyRun, Spaced, Lookup, Deliver, HeartbeatLine, GoodId;
  }

  lemma Opened(c: Config, src: Addr, b: Bounds, s: Sample)
    requires c.mode.heartbeat && b.gap >= 1 && b.delay >= 0
    ensures TimelyRun(c, src, b, Start(c, InitialHub(), 0), Opening(s))
    ensures var w := Run(c, src, Start(c, InitialHub(), 0), Opening(s));
      && w.now == w.lastUpdate == 0 && w.sent == [0] && w.handled == {0} && w.reporter.lastHeartbeat == 0 && w.reporter.valid
      && w.hub == Deliver(InitialHub(), HeartbeatLine(c.id, s.d0Open, s.d1Locked), src, 0)
  {
    FirstSample(c, src, b, s);
    var w0 := Start(c, InitialHub(), 0);
    var w1 := Next(c, src, w0, Sampled(s, 0));
    FirstHandled(c, src, b, w1);
    RunTwo(c, src, b, w0, Sampled(s, 0), Handled(0, 0));
    hide Next, Timely, Run, TimelyRun, Deliver, HeartbeatLine;
  }

  lemma RunTwo(c: Config, src: Addr, b: Bounds, w: World, first: Tick, second: Tick)
    requires Good(w)
    ensures Run(c, src, w, [first, second]) == Next(c, src, Next(c, src, w, first), second)
    ensures TimelyRun(c, src, b, w, [first, second]) <==> Timely(b, w, first) && Timely(b, Next(c, src, w, first), second)
  {
    hide Next, Timely, Run, TimelyRun;
    assert [first, second] == [first] + [second];
    RunSplit(c, src, b, w, [first], [second]);
    RunOne(c, src, b, w, first);
    RunOne(c, src, b, Next(c, src, w, first), second);
  }

  lemma FirstHandled(c: Config, src: Addr, b: Bounds, w: World)
    requires Good(w) && |w.sent| == 1 && w.sent[0] == 0 && w.now == w.lastUpdate == 0 && b.gap >= 1 && b.delay >= 0
    ensures Timely(b, w, Handled(0, 0))
    ensures Next(c, src, w, Handled(0, 0)) == w.(hub := Deliver(w.hub, w.beats[0], src, 0), handled := w.handled + {0})
  {
  }

  lemma FirstSample(c: Config, src: Addr, b: Bounds, s: Sample)
    requires c.mode.heartbeat
    ensures Timely(b, Start(c, InitialHub(), 0), Sampled(s, 0))
    ensures var w := Next(c, src, Start(c, InitialHub(), 0), Sampled(s, 0));
      && w.hub == InitialHub() && w.handled == {} && w.sent == [0] && w.beats == [HeartbeatLine(c.id, s.d0Open, s.d1Locked)]
      && w.now == w.lastUpdate == 0 && w.reporter.valid && w.reporter.lastHeartbeat == 0
  {
    hide HeartbeatLine, Notices;
  }

  lemma FirstBeat(id: string, o: bool, l: bool, src: Addr)
    requires GoodId(id)
    ensures var d := Lookup(Deliver(InitialHub(), HeartbeatLine(id, o, l), src, 0).doors, id);
      d.Some? && d.value.lastHeartbeat == 0 && !d.value.offline
  {
    hide HeartbeatLine, StateToken, Received, Deliver, DoorAfter;
    var h := InitialHub();
    BlankSets();
    HeartbeatRoundTrip(id, o, l, C_BLANKS);
    ReportLinesFit(id, o, l);
    Keywords();
    var toks := [id, "HEARTBEAT", StateToken("D0", o, l), StateToken("D1", o, l)];
    DeliverOwnLine(h, id, HeartbeatLine(id, o, l), src, 0, toks);
    assert !h.doors[0].known;
    DoorAfterKeeps(Heard(ClaimedDoor(h.doors, id), toks, src), toks, 0);
  }

  /** A timely run from a fresh hub whose last event, a check, calls a module offline it has heard from. */
  ghost predicate FalseAlarm(c: Config, src: Addr, b: Bounds, ticks: seq<Tick>, now: int) {
    var w := Start(c, InitialHub(), 0);
    && TimelyRun(c, src, b, w, ticks + [Elsewhere(Check(now), now)])
    && Run(c, src, w, ticks).handled != {}
    && Marks(Run(c, src, w, ticks).hub, now, c.id)
  }

  /** A world just after a report in which the hub last heard the module at time 0. */
  ghost predicate Ripe(c: Config, b: Bounds, w: World) {
    && JustReported(c, b, w) && w.handled != {} && InTime(b, w, OFFLINE_TIMEOUT_MS + 1)
    && w.now <= OFFLINE_TIMEOUT_MS + 1 <= w.now + b.gap
    && match Lookup(w.hub.doors, c.id) case Some(d) => d.lastHeartbeat == 0 && !d.offline case None => false
  }

  lemma RipeAlarms(c: Config, src: Addr, b: Bounds, ticks: seq<Tick>)
    requires TimelyRun(c, src, b, Start(c, InitialHub(), 0), ticks)
    requires Ripe(c, b, Run(c, src, Start(c, InitialHub(), 0), ticks))
    ensures FalseAlarm(c, src, b, ticks, OFFLINE_TIMEOUT_MS + 1)
  {
    hide Next, Lookup;
    var w0 := Start(c, InitialHub(), 0);
    var w := Run(c, src, w0, ticks);
    var check := Elsewhere(Check(OFFLINE_TIMEOUT_MS + 1), OFFLINE_TIMEOUT_MS + 1);
    RunSplit(c, src, b, w0, ticks, [check]);
    RunOne(c, src, b, w, check);
    MarksIfOverdue(w.hub, OFFLINE_TIMEOUT_MS + 1, c.id);
  }

  /** Extending a ripe-in-the-making run by idling. */
  lemma Extend(c: Config, src: Addr, b: Bounds, s: Sample, ticks: seq<Tick>, n: nat, end: int) returns (longer: seq<Tick>)
    requires TimelyRun(c, src, b, Start(c, InitialHub(), 0), ticks)
    requires var w := Run(c, src, Start(c, InitialHub(), 0), ticks);
      && JustReported(c, b, w) && w.now + n <= end && InTime(b, w, end)
      && (end < w.reporter.lastHeartbeat + c.period || end <= w.now + 1 + b.delay)
    requires c.period > 0 && b.gap >= 1
    ensures TimelyRun(c, src, b, Start(c, InitialHub(), 0), longer)
    ensures var w, w' := Run(c, src, Start(c, InitialHub(), 0), ticks), Run(c, src, Start(c, InitialHub(), 0), longer);
      w'.now == w.now + n && JustReported(c, b, w') && Idled(c, w, w') && InTime(b, w', end)
  {
    hide Next, Timely, Spaced;
    var w0 := Start(c, InitialHub(), 0);
    var w := Run(c, src, w0, ticks);
    longer := ticks + Idle(s, w.now, n);
    IdleRun(c, src, b, w, s, n, end);
    RunSplit(c, src, b, w0, ticks, Idle(s, w.now, n));
  }

  lemma LateReport(c: Config, src: Addr, b: Bounds, w: World, s: Sample)
    requires JustReported(c, b, w) && c.period > 0 && b.gap >= 1 && b.delay >= 0
    requires w.handled == {0} && w.sent == [0] && w.now == c.period - 1
    ensures Timely(b, w, Sampled(s, w.now + b.gap))
    ensures var w' := Next(c, src, w, Sampled(s, w.now + b.gap));
      && JustReported(c, b, w') && w'.now == w.now + b.gap && w'.sent == [0, w.now + b.gap]
      && w'.handled == w.handled && w'.hub == w.hub
  {
    hide HeartbeatLine, Notices;
    NextKeepsSpacing(c, src, b, w, Sampled(s, w.now + b.gap));
  }

  lemma RipeRun(c: Config, src: Addr, b: Bounds, s: Sample) returns (ticks: seq<Tick>)
    requires c.mode.heartbeat && GoodId(c.id) && c.period > 0 && b.gap >= 1 && b.delay >= 0
    requires c.period + b.gap - 1 + b.delay > OFFLINE_TIMEOUT_MS
    ensures TimelyRun(c, src, b, Start(c, InitialHub(), 0), ticks)
    ensures Ripe(c, b, Run(c, src, Start(c, InitialHub(), 0), ticks))
  {
    hide Next, Timely, Lookup, Spaced, Run, TimelyRun;
    var w0, alarm := Start(c, InitialHub(), 0), OFFLINE_TIMEOUT_MS + 1;
    ticks := Opening(s);
    AfterOpening(c, src, b, s);
    if alarm < c.period {
      ticks := Extend(c, src, b, s, ticks, alarm, alarm);
      return;
    }
    ticks := Extend(c, src, b, s, ticks, c.period - 1, c.period - 1);
    if alarm <= c.period - 1 + b.gap {
      return;
    }
    var w := Run(c, src, w0, ticks);
    var late := Sampled(s, w.now + b.gap);
    LateReport(c, src, b, w, s);
    RunSplit(c, src, b, w0, ticks, [late]);
    RunOne(c, src, b, w, late);
    ticks := ticks + [late];
    ticks := Extend(c, src, b, s, ticks, alarm - (c.period - 1 + b.gap), alarm);
  }

  /**
   The bound is exact: a timely run can raise a false OFFLINE exactly when
   period + gap - 1 + delay exceeds the ten second timeout.
   */
  lemma FalseAlarmIffBoundExceeded(c: Config, src: Addr, b: Bounds)
    requires c.mode.heartbeat && GoodId(c.id) && c.period > 0 && b.gap >= 1 && b.delay >= 0
    ensures (exists ticks, now :: FalseAlarm(c, src, b, ticks, now)) <==>
            c.period + b.gap - 1 + b.delay > 10000
  {
    hide Lookup, Next, TimelyRun, Run;
    if c.period + b.gap - 1 + b.delay > 10000 {
      var ticks := RipeRun(c, src, b, Sample(false, false, false, false));
      RipeAlarms(c, src, b, ticks);
    } else if exists ticks, now :: FalseAlarm(c, src, b, ticks, now) {
      var ticks, now :| FalseAlarm(c, src, b, ticks, now);
      NoFalseOffline(c, src, b, InitialHub(), 0, ticks, now);
    }
  }
}
