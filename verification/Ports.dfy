/**
 Events and heartbeats go to two ports of the hub. What that does to the hub's replica of a module when
 nothing is lost and each port keeps its order.
 */
module Ports {
  import opened Prelude
  import opened Wire
  import opened HubModel
  import opened HubTables
  import opened HubRuns
  import opened DoorReport
  import opened Replica

  /** The module reports, the hub takes the oldest line of one port, or it does something else. */
  datatype Turn = Report(sample: Sample, t: int) | Arrives(beat: bool, t: int) | Meanwhile(e: Ev)

  /**
   The hub, the module, and the lines waiting at either port, oldest first. `ahead` tells for each event
   how many of the waiting heartbeats are older; `heard`, whether the hub has had a heartbeat.
   */
  datatype Link = Link(
    hub: HubState, reporter: Reporter, events: seq<Packet>, beats: seq<Packet>, ahead: seq<nat>, heard: bool)

  /** The lines of a report that go to the heartbeat port, or to the other one. */
  function ToPort(ps: seq<Packet>, beat: bool): seq<Packet> {
    if ps == [] then []
    else ToPort(ps[..|ps| - 1], beat) + if ps[|ps| - 1].Pulse? == beat then [ps[|ps| - 1]] else []
  }

  /** One heartbeat less is older. */
  function Sooner(ahead: seq<nat>): (r: seq<nat>)
    ensures |r| == |ahead| && forall i | 0 <= i < |r| :: r[i] == if ahead[i] > 0 then ahead[i] - 1 else 0
  {
    seq(|ahead|, i requires 0 <= i < |ahead| => if ahead[i] > 0 then ahead[i] - 1 else 0)
  }

  ghost function Take(c: Config, src: Addr, k: Link, turn: Turn): (k': Link)
    requires HubOk(k.hub)
    ensures HubOk(k'.hub)
  {
    match turn
    case Report(s, t) =>
      var (r, sent) := Update(c, k.reporter, s, t);
      var es := ToPort(sent, false);
      Link(k.hub, r, k.events + es, k.beats + ToPort(sent, true), k.ahead + seq(|es|, _ => |k.beats|), k.heard)
    case Arrives(false, t) =>
      if k.events == [] || k.ahead == [] then k
      else k.(hub := Deliver(k.hub, k.events[0].line, src, t), events := k.events[1..], ahead := k.ahead[1..])
    case Arrives(true, t) =>
      if k.beats == [] then k
      else k.(hub := Deliver(k.hub, k.beats[0].line, src, t), beats := k.beats[1..], ahead := Sooner(k.ahead), heard := true)
    case Meanwhile(e) => k.(hub := Step(k.hub, e).0)
  }

  ghost function Play(c: Config, src: Addr, k: Link, turns: seq<Turn>): (k': Link)
    requires HubOk(k.hub)
    ensures HubOk(k'.hub)
  {
    if turns == [] then k else Take(c, src, Play(c, src, k, turns[..|turns| - 1]), turns[|turns| - 1])
  }

  // ---------- What lines say ----------

  /** The two reported states. */
  datatype View = View(open: bool, locked: bool)

  datatype Saying = DoorSays(open: bool) | LockSays(locked: bool) | BeatSays(open: bool, locked: bool)

  function Text(id: string, x: Saying): string {
    match x
    case DoorSays(open) => EventLine(id, "D0", "DOOR", OpenText(open))
    case LockSays(locked) => EventLine(id, "D1", "LOCK", LockText(locked))
    case BeatSays(open, locked) => HeartbeatLine(id, open, locked)
  }

  function Hear(x: Saying, v: View): View {
    match x
    case DoorSays(open) => v.(open := open)
    case LockSays(locked) => v.(locked := locked)
    case BeatSays(open, locked) => View(open, locked)
  }

  function Shows(d: DoorRec): View { View(d.d0Open, d.d1Locked) }

  function Saved(r: Reporter): View { View(r.d0Open, r.d1Locked) }

  function Sampled(s: Sample): View { View(s.d0Open, s.d1Locked) }

  /** One of the two states: the door's, or the bolt's. */
  function Part(v: View, door: bool): bool { if door then v.open else v.locked }

  /** The line says something about this state. */
  predicate Speaks(x: Saying, door: bool) { x.BeatSays? || x.DoorSays? == door }

  function Value(x: Saying, door: bool): bool { Part(Hear(x, View(false, false)), door) }

  lemma HearPart(x: Saying, v: View, door: bool)
    ensures Part(Hear(x, v), door) == if Speaks(x, door) then Value(x, door) else Part(v, door)
  {
  }

  ghost predicate Says(id: string, queue: seq<Packet>, xs: seq<Saying>) {
    |queue| == |xs| && forall i | 0 <= i < |xs| :: queue[i].line == Text(id, xs[i])
  }

  /** The waiting lines as sayings: events at one port, heartbeats at the other. */
  ghost predicate Carries(k: Link, id: string, es: seq<Saying>, bs: seq<Saying>) {
    && Says(id, k.events, es) && Says(id, k.beats, bs) && |k.ahead| == |es|
    && (forall i | 0 <= i < |es| :: !es[i].BeatSays?) && (forall i | 0 <= i < |bs| :: bs[i].BeatSays?)
  }

  /** The events of one report. */
  function EventsSaid(r: Reporter, s: Sample): seq<Saying> {
    if !r.valid then []
    else
      (if s.d0Open != r.d0Open then [DoorSays(s.d0Open)] else [])
      + (if s.d1Locked != r.d1Locked then [LockSays(s.d1Locked)] else [])
  }

  /** The heartbeat of one report, if it sends one. */
  function BeatSaid(c: Config, r: Reporter, s: Sample, t: int): seq<Saying> {
    if !r.valid || Due(c, r, t) then [BeatSays(s.d0Open, s.d1Locked)] else []
  }

  lemma {:induction false} ToPortBoth(ps: seq<Packet>, qs: seq<Packet>, beat: bool)
    ensures ToPort(ps + qs, beat) == ToPort(ps, beat) + ToPort(qs, beat)
  {
    if qs == [] {
      assert ps + qs == ps;
    } else {
      assert (ps + qs)[..|ps + qs| - 1] == ps + qs[..|qs| - 1];
      ToPortBoth(ps, qs[..|qs| - 1], beat);
    }
  }

  lemma ToPortOne(p: Packet, beat: bool)
    ensures ToPort([p], beat) == if p.Pulse? == beat then [p] else []
    ensures ToPort([], beat) == []
  {
    assert [p][..0] == [];
  }

  lemma ReportSays(c: Config, r: Reporter, s: Sample, t: int)
    requires c.mode.notify && c.mode.heartbeat && r.sockOpen
    ensures var sent := Update(c, r, s, t).1;
      Says(c.id, ToPort(sent, false), EventsSaid(r, s)) && Says(c.id, ToPort(sent, true), BeatSaid(c, r, s, t))
  {
    hide EventLine, HeartbeatLine, OpenText, LockText, ToPort, Update, Due;
    ReportParts(c, r, s, t, false);
    ReportParts(c, r, s, t, true);
    var door := Notice(EventLine(c.id, "D0", "DOOR", OpenText(s.d0Open)));
    var lock := Notice(EventLine(c.id, "D1", "LOCK", LockText(s.d1Locked)));
    var pulse := Pulse(HeartbeatLine(c.id, s.d0Open, s.d1Locked));
    ToPortOne(door, true);
    ToPortOne(lock, true);
    ToPortOne(pulse, true);
    ToPortOne(door, false);
    ToPortOne(lock, false);
    ToPortOne(pulse, false);
  }

  lemma ReportParts(c: Config, r: Reporter, s: Sample, t: int, beat: bool)
    requires c.mode.notify && c.mode.heartbeat && r.sockOpen
    ensures var door := Notice(EventLine(c.id, "D0", "DOOR", OpenText(s.d0Open)));
      var lock := Notice(EventLine(c.id, "D1", "LOCK", LockText(s.d1Locked)));
      var pulse := Pulse(HeartbeatLine(c.id, s.d0Open, s.d1Locked));
      ToPort(Update(c, r, s, t).1, beat)
      == ToPort(if r.valid && s.d0Open != r.d0Open then [door] else [], beat)
         + ToPort(if r.valid && s.d1Locked != r.d1Locked then [lock] else [], beat)
         + ToPort(if !r.valid || Due(c, r, t) then [pulse] else [], beat)
  {
    hide EventLine, HeartbeatLine, OpenText, LockText, ToPort;
    var x := if r.valid && s.d0Open != r.d0Open then [Notice(EventLine(c.id, "D0", "DOOR", OpenText(s.d0Open)))] else [];
    var y := if r.valid && s.d1Locked != r.d1Locked then [Notice(EventLine(c.id, "D1", "LOCK", LockText(s.d1Locked)))] else [];
    var z := if !r.valid || Due(c, r, t) then [Pulse(HeartbeatLine(c.id, s.d0Open, s.d1Locked))] else [];
    assert Update(c, r, s, t).1 == x + y + z;
    ToPortBoth(x + y, z, beat);
    ToPortBoth(x, y, beat);
  }

  lemma ReportCarries(c: Config, src: Addr, k: Link, s: Sample, t: int, es: seq<Saying>, bs: seq<Saying>)
    requires HubOk(k.hub) && c.mode.notify && c.mode.heartbeat && k.reporter.sockOpen && Carries(k, c.id, es, bs)
    ensures Carries(Take(c, src, k, Report(s, t)), c.id, es + EventsSaid(k.reporter, s), bs + BeatSaid(c, k.reporter, s, t))
  {
    hide Text, Update, ToPort, Due;
    ReportSays(c, k.reporter, s, t);
    var said := EventsSaid(k.reporter, s);
    assert forall i | 0 <= i < |said| :: !said[i].BeatSays?;
  }

  // ---------- The last event about a state ----------

  /** Position of the last waiting event about this state; -1 when there is none. */
  function LastOf(es: seq<Saying>, door: bool): (n: int)
    ensures -1 <= n < |es| && (n >= 0 ==> Speaks(es[n], door))
    ensures forall i | n < i < |es| :: !Speaks(es[i], door)
  {
    if es == [] then -1
    else if Speaks(es[|es| - 1], door) then |es| - 1
    else LastOf(es[..|es| - 1], door)
  }

  lemma LastOfTail(es: seq<Saying>, door: bool)
    requires es != []
    ensures LastOf(es[1..], door) == if LastOf(es, door) >= 1 then LastOf(es, door) - 1 else -1
  {
    hide Speaks;
    var n, m := LastOf(es, door), LastOf(es[1..], door);
    assert forall i | 0 <= i < |es| - 1 :: es[1..][i] == es[i + 1];
    if n >= 1 {
      assert es[1..][n - 1] == es[n];
    }
    if m >= 0 {
      assert es[m + 1] == es[1..][m];
    }
  }

  /** Only a changed state is announced, and then with its new value. */
  lemma LastOfReport(es: seq<Saying>, r: Reporter, s: Sample, door: bool)
    requires r.valid
    ensures var n := LastOf(es + EventsSaid(r, s), door);
      if Part(Sampled(s), door) != Part(Saved(r), door) then
        n >= |es| && Value((es + EventsSaid(r, s))[n], door) == Part(Sampled(s), door)
      else n == LastOf(es, door)
  {
    hide LastOf;
    var all := es + EventsSaid(r, s);
    var n, m := LastOf(all, door), LastOf(es, door);
    assert forall i | 0 <= i < |es| :: all[i] == es[i];
    if Part(Sampled(s), door) != Part(Saved(r), door) {
      var i := if door then |es| else |all| - 1;
      assert Speaks(all[i], door);
    } else {
      assert forall i | |es| <= i < |all| :: !Speaks(all[i], door);
    }
  }

  // ---------- What the hub makes of a line ----------

  /** A tracked module's record hears exactly what a line says. */
  lemma LineHeard(h: HubState, id: string, x: Saying, src: Addr, t: int)
    requires HubOk(h) && GoodId(id) && Lookup(h.doors, id).Some?
    ensures var d, d' := Lookup(h.doors, id).value, Lookup(Deliver(h, Text(id, x), src, t).doors, id);
      d'.Some? && Shows(d'.value) == Hear(x, Shows(d))
  {
    hide Lookup, Deliver, EventLine, HeartbeatLine, OpenText, LockText, GoodId;
    match x
    case DoorSays(open) => DoorEvent(h, id, "D0", open, src, t);
    case LockSays(locked) => LockEvent(h, id, "D1", locked, src, t);
    case BeatSays(open, locked) =>
      HeartbeatRestoresAgreement(h, id, open, locked, src, t);
      StillTracked(h, HeartbeatLine(id, open, locked), src, t, id);
  }

  lemma FirstHeartbeat(h: HubState, id: string, x: Saying, src: Addr, t: int)
    requires HubOk(h) && GoodId(id) && !DoorsFull(h) && x.BeatSays?
    ensures var d := Lookup(Deliver(h, Text(id, x), src, t).doors, id);
      d.Some? && Shows(d.value) == Hear(x, View(false, false))
  {
    hide Lookup, Deliver, HeartbeatLine, DoorsFull, GoodId;
    HeartbeatRestoresAgreement(h, id, x.open, x.locked, src, t);
  }

  // ---------- No event overtakes an older heartbeat ----------

  /** Every event is handled after all heartbeats that were sent before it. Heartbeats may overtake events. */
  ghost predicate InOrder(c: Config, src: Addr, k: Link, turns: seq<Turn>)
    requires HubOk(k.hub)
  {
    turns == [] ||
    (InOrder(c, src, k, turns[..|turns| - 1])
     && Waits(Play(c, src, k, turns[..|turns| - 1]), turns[|turns| - 1]))
  }

  predicate Waits(k: Link, turn: Turn) {
    turn.Arrives? && !turn.beat && k.ahead != [] ==> k.ahead[0] == 0
  }

  /** How many of the waiting heartbeats are older than the last event about this state. */
  function Older(k: Link, es: seq<Saying>, door: bool): nat
    requires |k.ahead| == |es|
  {
    if LastOf(es, door) >= 0 then k.ahead[LastOf(es, door)] else 0
  }

  /** One of the two states on its way, when events wait for older heartbeats. */
  ghost predicate Ordered(k: Link, id: string, es: seq<Saying>, bs: seq<Saying>, door: bool)
    requires |k.ahead| == |es|
  {
    var n, saved := LastOf(es, door), Part(Saved(k.reporter), door);
    && (n >= 0 ==> Value(es[n], door) == saved)
    && (forall j | Older(k, es, door) <= j < |bs| :: Value(bs[j], door) == saved)
    && (k.heard && n < 0 ==>
          match Lookup(k.hub.doors, id) case Some(d) => Part(Shows(d), door) == saved case None => true)
  }

  ghost predicate OnTheWay(k: Link, id: string, es: seq<Saying>, bs: seq<Saying>) {
    && k.reporter.sockOpen && Carries(k, id, es, bs)
    && (!k.reporter.valid ==> es == [] && bs == [])
    && (k.reporter.valid ==>
          && (forall i | 0 <= i < |es| :: k.ahead[i] <= |bs|)
          && (!k.heard ==> bs != [] && forall i | 0 <= i < |es| :: k.ahead[i] >= 1)
          && (k.heard && Lookup(k.hub.doors, id) == None ==> DoorsFull(k.hub))
          && Ordered(k, id, es, bs, true) && Ordered(k, id, es, bs, false))
  }

  lemma ReportOrdered(k: Link, k': Link, id: string, s: Sample, es: seq<Saying>, bs: seq<Saying>, more: seq<Saying>, door: bool)
    requires |k.ahead| == |es| && |k'.ahead| == |es + EventsSaid(k.reporter, s)| && k'.hub == k.hub && k'.heard == k.heard
    requires k.ahead <= k'.ahead && (forall i | |es| <= i < |k'.ahead| :: k'.ahead[i] == |bs|)
    requires Saved(k'.reporter) == Sampled(s) && forall j | 0 <= j < |more| :: Value(more[j], door) == Part(Sampled(s), door)
    requires if k.reporter.valid then (forall i | 0 <= i < |es| :: k.ahead[i] <= |bs|) && Ordered(k, id, es, bs, door)
             else es == [] && bs == [] && !k.heard
    ensures Ordered(k', id, es + EventsSaid(k.reporter, s), bs + more, door)
  {
    hide Lookup, LastOf, Value, EventsSaid;
    if k.reporter.valid {
      LastOfReport(es, k.reporter, s, door);
    } else {
      NoEvents(door);
      assert es + EventsSaid(k.reporter, s) == [] by { NothingSaid(k.reporter, s); }
    }
  }

  lemma NothingSaid(r: Reporter, s: Sample)
    requires !r.valid
    ensures EventsSaid(r, s) == []
  {
  }

  lemma ReportOnTheWay(c: Config, src: Addr, k: Link, s: Sample, t: int, es: seq<Saying>, bs: seq<Saying>)
    requires HubOk(k.hub) && c.mode.notify && c.mode.heartbeat && OnTheWay(k, c.id, es, bs)
    requires !k.reporter.valid ==> !k.heard
    ensures OnTheWay(Take(c, src, k, Report(s, t)), c.id, es + EventsSaid(k.reporter, s), bs + BeatSaid(c, k.reporter, s, t))
  {
    hide Says, Lookup, DoorsFull, LastOf, Update, ToPort, Due, Text, Ordered, EventsSaid;
    var k', more := Take(c, src, k, Report(s, t)), BeatSaid(c, k.reporter, s, t);
    ReportCarries(c, src, k, s, t, es, bs);
    ReportSaves(c, k.reporter, s, t);
    SameQueues(k, c.id, es, bs);
    ReportSays(c, k.reporter, s, t);
    SameLength(c.id, ToPort(Update(c, k.reporter, s, t).1, false), EventsSaid(k.reporter, s));
    if !k.reporter.valid {
      NothingSaid(k.reporter, s);
    }
    ReportOrdered(k, k', c.id, s, es, bs, more, true);
    ReportOrdered(k, k', c.id, s, es, bs, more, false);
  }

  lemma SameLength(id: string, queue: seq<Packet>, xs: seq<Saying>)
    requires Says(id, queue, xs)
    ensures |queue| == |xs|
  {
  }

  lemma NoEvents(door: bool)
    ensures LastOf([], door) == -1
  {
  }

  lemma ReportSaves(c: Config, r: Reporter, s: Sample, t: int)
    requires r.sockOpen
    ensures var r' := Update(c, r, s, t).0; r'.sockOpen && r'.valid && Saved(r') == Sampled(s)
  {
    hide Notices, Pulses;
  }

  lemma BeatOnTheWay(c: Config, src: Addr, k: Link, t: int, es: seq<Saying>, bs: seq<Saying>)
    requires HubOk(k.hub) && GoodId(c.id) && OnTheWay(k, c.id, es, bs) && k.beats != []
    ensures OnTheWay(Take(c, src, k, Arrives(true, t)), c.id, es, bs[1..])
  {
    hide Lookup, Deliver, Text, DoorsFull, GoodId, LastOf;
    var k' := Take(c, src, k, Arrives(true, t));
    var line := Text(c.id, bs[0]);
    if Lookup(k.hub.doors, c.id).Some? {
      LineHeard(k.hub, c.id, bs[0], src, t);
    } else if DoorsFull(k.hub) {
      DeliverUntracked(k.hub, line, src, t, c.id);
    } else {
      FirstHeartbeat(k.hub, c.id, bs[0], src, t);
    }
    forall door: bool
      ensures Ordered(k', c.id, es, bs[1..], door)
    {
      if Lookup(k.hub.doors, c.id).Some? {
        HearPart(bs[0], Shows(Lookup(k.hub.doors, c.id).value), door);
      }
      assert forall j | 0 <= j < |bs| - 1 :: bs[1..][j] == bs[j + 1];
    }
  }

  lemma EventOnTheWay(c: Config, src: Addr, k: Link, t: int, es: seq<Saying>, bs: seq<Saying>)
    requires HubOk(k.hub) && GoodId(c.id) && OnTheWay(k, c.id, es, bs) && k.events != [] && k.ahead[0] == 0
    ensures OnTheWay(Take(c, src, k, Arrives(false, t)), c.id, es[1..], bs)
  {
    hide Lookup, Deliver, Text, DoorsFull, GoodId, LastOf;
    var k' := Take(c, src, k, Arrives(false, t));
    if Lookup(k.hub.doors, c.id).Some? {
      LineHeard(k.hub, c.id, es[0], src, t);
    } else {
      DeliverUntracked(k.hub, Text(c.id, es[0]), src, t, c.id);
    }
    forall door: bool
      ensures Ordered(k', c.id, es[1..], bs, door)
    {
      LastOfTail(es, door);
      if Lookup(k.hub.doors, c.id).Some? {
        HearPart(es[0], Shows(Lookup(k.hub.doors, c.id).value), door);
      }
      assert forall j | 0 <= j < |es| - 1 :: es[1..][j] == es[j + 1];
    }
  }

  lemma MeanwhileOnTheWay(c: Config, src: Addr, k: Link, e: Ev, es: seq<Saying>, bs: seq<Saying>)
    requires HubOk(k.hub) && OnTheWay(k, c.id, es, bs) && OtherTraffic(e, c.id)
    ensures OnTheWay(Take(c, src, k, Meanwhile(e)), c.id, es, bs)
  {
    hide Step, Lookup, OtherTraffic, DoorsFull, Says, LastOf;
    if Lookup(k.hub.doors, c.id).Some? {
      OtherTrafficKeepsStates(k.hub, e, c.id);
    } else if DoorsFull(k.hub) {
      StepFullUntracked(k.hub, e, c.id);
    }
  }

  /** Nothing on its way: the module has not reported yet, or the hub is in step with it. */
  ghost predicate AtRest(k: Link, id: string) {
    && k.events == [] && k.beats == [] && k.ahead == [] && k.reporter.sockOpen
    && k.heard == k.reporter.valid && InStep(k.hub, id, k.reporter)
  }

  ghost predicate OthersOnly(turns: seq<Turn>, id: string) {
    forall i | 0 <= i < |turns| && turns[i].Meanwhile? :: OtherTraffic(turns[i].e, id)
  }

  lemma {:induction false} AlwaysOnTheWay(c: Config, src: Addr, k: Link, turns: seq<Turn>) returns (es: seq<Saying>, bs: seq<Saying>)
    requires HubOk(k.hub) && GoodId(c.id) && c.mode.notify && c.mode.heartbeat && AtRest(k, c.id)
    requires OthersOnly(turns, c.id) && InOrder(c, src, k, turns)
    ensures OnTheWay(Play(c, src, k, turns), c.id, es, bs)
    ensures !Play(c, src, k, turns).reporter.valid ==> !Play(c, src, k, turns).heard
  {
    if turns == [] {
      es, bs := [], [];
      NoEvents(true);
      NoEvents(false);
      hide LastOf, Lookup, DoorsFull;
    } else {
      hide Take, OnTheWay, OtherTraffic, GoodId, AtRest;
      var past, last := turns[..|turns| - 1], turns[|turns| - 1];
      es, bs := AlwaysOnTheWay(c, src, k, past);
      var k1 := Play(c, src, k, past);
      assert Carries(k1, c.id, es, bs) by { WayCarries(k1, c.id, es, bs); }
      SameQueues(k1, c.id, es, bs);
      HeardOnlyAfterReports(c, src, k1, last, es, bs);
      match last
      case Report(s, t) =>
        ReportOnTheWay(c, src, k1, s, t, es, bs);
        es, bs := es + EventsSaid(k1.reporter, s), bs + BeatSaid(c, k1.reporter, s, t);
      case Arrives(beat, t) =>
        if beat && k1.beats != [] {
          BeatOnTheWay(c, src, k1, t, es, bs);
          bs := bs[1..];
        } else if !beat && k1.events != [] {
          EventOnTheWay(c, src, k1, t, es, bs);
          es := es[1..];
        } else {
          NothingArrives(c, src, k1, beat, t);
        }
      case Meanwhile(e) => MeanwhileOnTheWay(c, src, k1, e, es, bs);
    }
  }

  lemma SameQueues(k: Link, id: string, es: seq<Saying>, bs: seq<Saying>)
    requires Carries(k, id, es, bs)
    ensures |k.events| == |es| == |k.ahead| && |k.beats| == |bs|
  {
    hide Lookup, DoorsFull, LastOf, Text;
  }

  lemma WayCarries(k: Link, id: string, es: seq<Saying>, bs: seq<Saying>)
    requires OnTheWay(k, id, es, bs)
    ensures Carries(k, id, es, bs)
  {
    hide Lookup, DoorsFull, LastOf, Text;
  }

  lemma HeardOnlyAfterReports(c: Config, src: Addr, k: Link, turn: Turn, es: seq<Saying>, bs: seq<Saying>)
    requires HubOk(k.hub) && OnTheWay(k, c.id, es, bs) && (!k.reporter.valid ==> !k.heard)
    ensures !Take(c, src, k, turn).reporter.valid ==> !Take(c, src, k, turn).heard
  {
    hide Lookup, DoorsFull, LastOf, Text, Deliver, Step, Notices, Pulses;
  }

  lemma NothingArrives(c: Config, src: Addr, k: Link, beat: bool, t: int)
    requires HubOk(k.hub) && if beat then k.beats == [] else k.events == []
    ensures Take(c, src, k, Arrives(beat, t)) == k
  {
  }

  /**
   Replica agreement over two ports: with both report modes on, nothing lost, each port in order and no
   event overtaking an older heartbeat, the hub's record shows the module's saved door and lock state
   whenever no event is waiting, in every run, however reports, deliveries, other modules, clients and
   liveness checks are interleaved and however heartbeats overtake events.
   */
  lemma {:induction false} HubFollowsTheModule(c: Config, src: Addr, k: Link, turns: seq<Turn>)
    requires HubOk(k.hub) && GoodId(c.id) && c.mode.notify && c.mode.heartbeat && AtRest(k, c.id)
    requires OthersOnly(turns, c.id) && InOrder(c, src, k, turns)
    ensures var k' := Play(c, src, k, turns);
      k'.events == [] && (k'.heard || k'.beats == []) ==> InStep(k'.hub, c.id, k'.reporter)
  {
    hide Play, DoorsFull, OtherTraffic, Text, Lookup;
    var es, bs := AlwaysOnTheWay(c, src, k, turns);
    NoEvents(true);
    NoEvents(false);
  }

  // ---------- Any order of the two ports ----------

  /** One report of a history. */
  datatype Given = Given(sample: Sample, t: int)

  function ReporterAfter(c: Config, r: Reporter, reports: seq<Given>): Reporter {
    if reports == [] then r
    else
      var last := reports[|reports| - 1];
      Update(c, ReporterAfter(c, r, reports[..|reports| - 1]), last.sample, last.t).0
  }

  /** What the last heartbeat sent says. */
  function LastBeat(c: Config, r: Reporter, reports: seq<Given>): Option<View> {
    if reports == [] then None
    else
      var past, last := reports[..|reports| - 1], reports[|reports| - 1];
      if BeatSaid(c, ReporterAfter(c, r, past), last.sample, last.t) != [] then Some(Sampled(last.sample))
      else LastBeat(c, r, past)
  }

  function ReportsOf(turns: seq<Turn>): seq<Given> {
    if turns == [] then []
    else
      var last := turns[|turns| - 1];
      ReportsOf(turns[..|turns| - 1]) + if last.Report? then [Given(last.sample, last.t)] else []
  }

  /** One of the two states when the ports are handled in any order: the last heartbeat may have the last word. */
  ghost predicate Unordered(k: Link, id: string, es: seq<Saying>, bs: seq<Saying>, beat: Option<View>, door: bool) {
    var n, saved := LastOf(es, door), Part(Saved(k.reporter), door);
    && (n >= 0 ==> Value(es[n], door) == saved)
    && (n < 0 && bs == [] ==>
          match Lookup(k.hub.doors, id)
          case Some(d) => Part(Shows(d), door) == saved || (beat.Some? && Part(Shows(d), door) == Part(beat.value, door))
          case None => true)
  }

  ghost predicate AnyWay(k: Link, id: string, es: seq<Saying>, bs: seq<Saying>, beat: Option<View>) {
    && k.reporter.sockOpen && Carries(k, id, es, bs) && Lookup(k.hub.doors, id).Some?
    && (bs != [] ==> beat == Some(Hear(bs[|bs| - 1], View(false, false))))
    && (!k.reporter.valid ==> es == [] && bs == [] && beat == None)
    && (k.reporter.valid ==> Unordered(k, id, es, bs, beat, true) && Unordered(k, id, es, bs, beat, false))
  }

  lemma ReportUnordered(k: Link, k': Link, id: string, s: Sample, es: seq<Saying>, bs: seq<Saying>, more: seq<Saying>,
                        beat: Option<View>, beat': Option<View>, door: bool)
    requires k'.hub == k.hub && Saved(k'.reporter) == Sampled(s) && (more == [] ==> beat' == beat)
    requires if k.reporter.valid then Unordered(k, id, es, bs, beat, door) else es == [] && more != []
    ensures Unordered(k', id, es + EventsSaid(k.reporter, s), bs + more, beat', door)
  {
    hide Lookup, LastOf, Value, EventsSaid;
    if k.reporter.valid {
      LastOfReport(es, k.reporter, s, door);
    } else {
      NoEvents(door);
      assert es + EventsSaid(k.reporter, s) == [] by { NothingSaid(k.reporter, s); }
    }
  }

  lemma ReportAnyWay(c: Config, src: Addr, k: Link, s: Sample, t: int, es: seq<Saying>, bs: seq<Saying>, beat: Option<View>)
    requires HubOk(k.hub) && c.mode.notify && c.mode.heartbeat && AnyWay(k, c.id, es, bs, beat)
    ensures AnyWay(Take(c, src, k, Report(s, t)), c.id, es + EventsSaid(k.reporter, s), bs + BeatSaid(c, k.reporter, s, t),
                   if BeatSaid(c, k.reporter, s, t) != [] then Some(Sampled(s)) else beat)
  {
    hide Says, Lookup, LastOf, Update, ToPort, Due, Text, Unordered, EventsSaid;
    var k', more := Take(c, src, k, Report(s, t)), BeatSaid(c, k.reporter, s, t);
    var beat' := if more != [] then Some(Sampled(s)) else beat;
    ReportCarries(c, src, k, s, t, es, bs);
    ReportSaves(c, k.reporter, s, t);
    ReportUnordered(k, k', c.id, s, es, bs, more, beat, beat', true);
    ReportUnordered(k, k', c.id, s, es, bs, more, beat, beat', false);
  }

  lemma BeatAnyWay(c: Config, src: Addr, k: Link, t: int, es: seq<Saying>, bs: seq<Saying>, beat: Option<View>)
    requires HubOk(k.hub) && GoodId(c.id) && AnyWay(k, c.id, es, bs, beat) && k.beats != []
    ensures AnyWay(Take(c, src, k, Arrives(true, t)), c.id, es, bs[1..], beat)
    ensures bs[1..] == [] ==> Shows(Lookup(Take(c, src, k, Arrives(true, t)).hub.doors, c.id).value) == beat.value
  {
    hide Lookup, Deliver, Text, GoodId, LastOf;
    LineHeard(k.hub, c.id, bs[0], src, t);
    assert Hear(bs[0], Shows(Lookup(k.hub.doors, c.id).value)) == Hear(bs[0], View(false, false));
    assert bs[1..] != [] ==> bs[1..][|bs[1..]| - 1] == bs[|bs| - 1];
  }

  lemma EventAnyWay(c: Config, src: Addr, k: Link, t: int, es: seq<Saying>, bs: seq<Saying>, beat: Option<View>)
    requires HubOk(k.hub) && GoodId(c.id) && AnyWay(k, c.id, es, bs, beat) && k.events != []
    ensures AnyWay(Take(c, src, k, Arrives(false, t)), c.id, es[1..], bs, beat)
  {
    hide Lookup, Deliver, Text, GoodId, LastOf, Hear, Part;
    LineHeard(k.hub, c.id, es[0], src, t);
    LastOfTail(es, true);
    LastOfTail(es, false);
    HearPart(es[0], Shows(Lookup(k.hub.doors, c.id).value), true);
    HearPart(es[0], Shows(Lookup(k.hub.doors, c.id).value), false);
    assert forall j | 0 <= j < |es| - 1 :: es[1..][j] == es[j + 1];
  }

  lemma MeanwhileAnyWay(c: Config, src: Addr, k: Link, e: Ev, es: seq<Saying>, bs: seq<Saying>, beat: Option<View>)
    requires HubOk(k.hub) && AnyWay(k, c.id, es, bs, beat) && OtherTraffic(e, c.id)
    ensures AnyWay(Take(c, src, k, Meanwhile(e)), c.id, es, bs, beat)
  {
    hide Step, Lookup, OtherTraffic, Says, LastOf;
    OtherTrafficKeepsStates(k.hub, e, c.id);
  }

  /** A tracked module with nothing on its way, that has not reported yet or that the hub is in step with. */
  ghost predicate Settled(k: Link, id: string) {
    && k.events == [] && k.beats == [] && k.ahead == [] && k.reporter.sockOpen
    && Lookup(k.hub.doors, id).Some? && (k.reporter.valid ==> Agrees(Lookup(k.hub.doors, id).value, k.reporter))
  }

  lemma {:induction false} AlwaysAnyWay(c: Config, src: Addr, k: Link, turns: seq<Turn>) returns (es: seq<Saying>, bs: seq<Saying>)
    requires HubOk(k.hub) && GoodId(c.id) && c.mode.notify && c.mode.heartbeat && Settled(k, c.id) && OthersOnly(turns, c.id)
    ensures var k' := Play(c, src, k, turns);
      && AnyWay(k', c.id, es, bs, LastBeat(c, k.reporter, ReportsOf(turns)))
      && k'.reporter == ReporterAfter(c, k.reporter, ReportsOf(turns))
  {
    if turns == [] {
      es, bs := [], [];
      NoEvents(true);
      NoEvents(false);
      hide LastOf, Lookup;
    } else {
      hide Take, AnyWay, OtherTraffic, GoodId, Settled, BeatSaid, Update;
      var past, last := turns[..|turns| - 1], turns[|turns| - 1];
      es, bs := AlwaysAnyWay(c, src, k, past);
      var k1, beat := Play(c, src, k, past), LastBeat(c, k.reporter, ReportsOf(past));
      AnyCarries(k1, c.id, es, bs, beat);
      SameQueues(k1, c.id, es, bs);
      SameReporter(c, src, k1, last);
      ReportsNext(c, k.reporter, turns);
      match last
      case Report(s, t) =>
        ReportAnyWay(c, src, k1, s, t, es, bs, beat);
        es, bs := es + EventsSaid(k1.reporter, s), bs + BeatSaid(c, k1.reporter, s, t);
      case Arrives(beat', t) =>
        if beat' && k1.beats != [] {
          BeatAnyWay(c, src, k1, t, es, bs, beat);
          bs := bs[1..];
        } else if !beat' && k1.events != [] {
          EventAnyWay(c, src, k1, t, es, bs, beat);
          es := es[1..];
        } else {
          NothingArrives(c, src, k1, beat', t);
        }
      case Meanwhile(e) => MeanwhileAnyWay(c, src, k1, e, es, bs, beat);
    }
  }

  lemma AnyCarries(k: Link, id: string, es: seq<Saying>, bs: seq<Saying>, beat: Option<View>)
    requires AnyWay(k, id, es, bs, beat)
    ensures Carries(k, id, es, bs)
  {
    hide Lookup, LastOf, Text;
  }

  lemma SameReporter(c: Config, src: Addr, k: Link, turn: Turn)
    requires HubOk(k.hub)
    ensures Take(c, src, k, turn).reporter == if turn.Report? then Update(c, k.reporter, turn.sample, turn.t).0 else k.reporter
  {
    hide Update, Deliver, Step;
  }

  /** The history of a run, one turn later. */
  lemma ReportsNext(c: Config, r: Reporter, turns: seq<Turn>)
    requires turns != []
    ensures var past, last := turns[..|turns| - 1], turns[|turns| - 1];
      var r1 := ReporterAfter(c, r, ReportsOf(past));
      if last.Report? then
        && ReporterAfter(c, r, ReportsOf(turns)) == Update(c, r1, last.sample, last.t).0
        && LastBeat(c, r, ReportsOf(turns))
           == if BeatSaid(c, r1, last.sample, last.t) != [] then Some(Sampled(last.sample)) else LastBeat(c, r, ReportsOf(past))
      else ReportsOf(turns) == ReportsOf(past)
  {
    hide Update, BeatSaid;
    var past, last := turns[..|turns| - 1], turns[|turns| - 1];
    if last.Report? {
      var reports := ReportsOf(past) + [Given(last.sample, last.t)];
      assert reports[..|reports| - 1] == ReportsOf(past);
    }
  }

  /** A run that makes these reports, in any order of the two ports, and leaves nothing on its way. */
  ghost predicate Delivers(c: Config, src: Addr, k: Link, turns: seq<Turn>, reports: seq<Given>)
    requires HubOk(k.hub)
  {
    && ReportsOf(turns) == reports && OthersOnly(turns, c.id)
    && Play(c, src, k, turns).events == [] && Play(c, src, k, turns).beats == []
  }

  /** The last heartbeat sent, if there was one, says what the module has saved. */
  predicate LastBeatCurrent(c: Config, r: Reporter, reports: seq<Given>) {
    match LastBeat(c, r, reports)
    case None => true
    case Some(v) => v == Saved(ReporterAfter(c, r, reports))
  }

  /** If so, every order ends in agreement. */
  lemma CurrentBeatAgrees(c: Config, src: Addr, k: Link, turns: seq<Turn>)
    requires HubOk(k.hub) && GoodId(c.id) && c.mode.notify && c.mode.heartbeat && Settled(k, c.id)
    requires Delivers(c, src, k, turns, ReportsOf(turns)) && LastBeatCurrent(c, k.reporter, ReportsOf(turns))
    ensures Settled(Play(c, src, k, turns), c.id)
  {
    hide Play, OtherTraffic, Text, Lookup, ReportsOf, ReporterAfter, LastBeat, GoodId;
    var es, bs := AlwaysAnyWay(c, src, k, turns);
    NoEvents(true);
    NoEvents(false);
  }

  // The order that gives the last heartbeat the last word: all reports, all events, all heartbeats.

  function Reporting(reports: seq<Given>): seq<Turn> {
    seq(|reports|, i requires 0 <= i < |reports| => Report(reports[i].sample, reports[i].t))
  }

  lemma {:induction false} ReportingReports(reports: seq<Given>)
    ensures ReportsOf(Reporting(reports)) == reports
  {
    if reports != [] {
      var past := reports[..|reports| - 1];
      ReportingReports(past);
      assert Reporting(reports)[..|reports| - 1] == Reporting(past);
    }
  }

  lemma PlayOne(c: Config, src: Addr, k: Link, turns: seq<Turn>, turn: Turn)
    requires HubOk(k.hub)
    ensures Play(c, src, k, turns + [turn]) == Take(c, src, Play(c, src, k, turns), turn)
    ensures !turn.Report? ==> ReportsOf(turns + [turn]) == ReportsOf(turns)
  {
    assert (turns + [turn])[..|turns|] == turns;
  }

  lemma {:induction false} BeatsStillWait(c: Config, src: Addr, k: Link, reports: seq<Given>)
    requires HubOk(k.hub) && c.mode.notify && c.mode.heartbeat && k.reporter.sockOpen
    ensures var k' := Play(c, src, k, Reporting(reports));
      && k'.reporter == ReporterAfter(c, k.reporter, reports) && k'.reporter.sockOpen
      && (LastBeat(c, k.reporter, reports) != None ==> k'.beats != [])
  {
    if reports != [] {
      hide Update, BeatSaid, ToPort, EventsSaid;
      var past, last := reports[..|reports| - 1], reports[|reports| - 1];
      assert Reporting(reports)[..|reports| - 1] == Reporting(past);
      BeatsStillWait(c, src, k, past);
      var r := ReporterAfter(c, k.reporter, past);
      ReportSaves(c, r, last.sample, last.t);
      ReportSays(c, r, last.sample, last.t);
      SameLength(c.id, ToPort(Update(c, r, last.sample, last.t).1, true), BeatSaid(c, r, last.sample, last.t));
    }
  }

  /** The hub empties the event port. */
  lemma {:induction false} EventsDrained(c: Config, src: Addr, k: Link, turns: seq<Turn>, es: seq<Saying>, bs: seq<Saying>,
                                         beat: Option<View>) returns (more: seq<Turn>)
    requires HubOk(k.hub) && GoodId(c.id) && OthersOnly(turns, c.id) && AnyWay(Play(c, src, k, turns), c.id, es, bs, beat)
    ensures OthersOnly(more, c.id) && ReportsOf(more) == ReportsOf(turns) && AnyWay(Play(c, src, k, more), c.id, [], bs, beat)
    decreases |es|
  {
    hide Play, ReportsOf, OtherTraffic, AnyWay, Take, GoodId;
    var k1 := Play(c, src, k, turns);
    AnyCarries(k1, c.id, es, bs, beat);
    SameQueues(k1, c.id, es, bs);
    if es == [] {
      more := turns;
    } else {
      PlayOne(c, src, k, turns, Arrives(false, 0));
      EventAnyWay(c, src, k1, 0, es, bs, beat);
      more := EventsDrained(c, src, k, turns + [Arrives(false, 0)], es[1..], bs, beat);
    }
  }

  /** Then the heartbeat port; the last heartbeat has the last word. */
  lemma {:induction false} BeatsDrained(c: Config, src: Addr, k: Link, turns: seq<Turn>, bs: seq<Saying>, beat: Option<View>)
    returns (more: seq<Turn>)
    requires HubOk(k.hub) && GoodId(c.id) && OthersOnly(turns, c.id) && AnyWay(Play(c, src, k, turns), c.id, [], bs, beat) && bs != []
    ensures OthersOnly(more, c.id) && ReportsOf(more) == ReportsOf(turns)
    ensures var k' := Play(c, src, k, more);
      && k'.events == [] && k'.beats == [] && Lookup(k'.hub.doors, c.id).Some? && beat.Some?
      && Shows(Lookup(k'.hub.doors, c.id).value) == beat.value
    decreases |bs|
  {
    hide Play, ReportsOf, OtherTraffic, AnyWay, Take, GoodId, Lookup;
    var k1 := Play(c, src, k, turns);
    AnyCarries(k1, c.id, [], bs, beat);
    SameQueues(k1, c.id, [], bs);
    PlayOne(c, src, k, turns, Arrives(true, 0));
    BeatAnyWay(c, src, k1, 0, [], bs, beat);
    more := turns + [Arrives(true, 0)];
    if |bs| > 1 {
      more := BeatsDrained(c, src, k, more, bs[1..], beat);
    } else {
      AnyMeans(k1, c.id, [], bs, beat);
      AnyMeans(Take(c, src, k1, Arrives(true, 0)), c.id, [], bs[1..], beat);
    }
  }

  lemma AnyMeans(k: Link, id: string, es: seq<Saying>, bs: seq<Saying>, beat: Option<View>)
    requires AnyWay(k, id, es, bs, beat)
    ensures |k.events| == |es| && |k.beats| == |bs| && Lookup(k.hub.doors, id).Some? && (bs != [] ==> beat.Some?)
  {
    hide Lookup, LastOf, Text;
  }

  /** If the last heartbeat is outdated, that order ends in disagreement. */
  lemma OutdatedBeatDisagrees(c: Config, src: Addr, k: Link, reports: seq<Given>) returns (turns: seq<Turn>)
    requires HubOk(k.hub) && GoodId(c.id) && c.mode.notify && c.mode.heartbeat && Settled(k, c.id)
    requires !LastBeatCurrent(c, k.reporter, reports)
    ensures Delivers(c, src, k, turns, reports) && !Settled(Play(c, src, k, turns), c.id)
  {
    hide Play, ReportsOf, Reporting, OtherTraffic, AnyWay, GoodId, Lookup, ReporterAfter, LastBeat;
    turns := Reporting(reports);
    assert OthersOnly(turns, c.id) by { OnlyReports(reports, c.id); }
    ReportingReports(reports);
    BeatsStillWait(c, src, k, reports) by { hide BeatSaid; }
    var es, bs := AlwaysAnyWay(c, src, k, turns);
    var beat := LastBeat(c, k.reporter, reports);
    AnyMeans(Play(c, src, k, turns), c.id, es, bs, beat);
    turns := EventsDrained(c, src, k, turns, es, bs, beat);
    turns := BeatsDrained(c, src, k, turns, bs, beat);
    var es', bs' := AlwaysAnyWay(c, src, k, turns);
    ReportedOnce(c, k.reporter, reports);
  }

  lemma OnlyReports(reports: seq<Given>, id: string)
    ensures OthersOnly(Reporting(reports), id)
  {
  }

  lemma ReportedOnce(c: Config, r: Reporter, reports: seq<Given>)
    requires LastBeat(c, r, reports) != None && r.sockOpen
    ensures ReporterAfter(c, r, reports).valid
  {
    hide Notices, Pulses, BeatSaid, Due;
    if reports != [] {
      StaysOpen(c, r, reports[..|reports| - 1]);
    }
  }

  lemma {:induction false} StaysOpen(c: Config, r: Reporter, reports: seq<Given>)
    requires r.sockOpen
    ensures ReporterAfter(c, r, reports).sockOpen
  {
    if reports != [] {
      StaysOpen(c, r, reports[..|reports| - 1]);
      hide Notices, Pulses, Due;
    }
  }

  /**
   Replica agreement whatever the order of the two ports: for a tracked module and any history of reports,
   every order in which the hub takes the lines of the two ports, with any other traffic in between, ends
   with the record showing what the module has saved, if and only if the last heartbeat sent says that.
   */
  lemma {:induction false} AgreementIff(c: Config, src: Addr, k: Link, reports: seq<Given>)
    requires HubOk(k.hub) && GoodId(c.id) && c.mode.notify && c.mode.heartbeat && Settled(k, c.id)
    ensures (forall turns | Delivers(c, src, k, turns, reports) :: Settled(Play(c, src, k, turns), c.id))
            <==> LastBeatCurrent(c, k.reporter, reports)
  {
    hide Play, Settled, ReportsOf, LastBeatCurrent, OtherTraffic, GoodId;
    if LastBeatCurrent(c, k.reporter, reports) {
      forall turns | Delivers(c, src, k, turns, reports)
        ensures Settled(Play(c, src, k, turns), c.id)
      {
        CurrentBeatAgrees(c, src, k, turns);
      }
    } else {
      var turns := OutdatedBeatDisagrees(c, src, k, reports);
    }
  }

  /**
   It does happen, with nothing lost and each port in order: a heartbeat that is due, a lock change a
   moment later, and a hub that takes the event first.
   */
  lemma EventOvertakesHeartbeat(c: Config, src: Addr, k: Link, t: int)
    requires HubOk(k.hub) && GoodId(c.id) && c.mode.notify && c.mode.heartbeat && c.period > 1 && Settled(k, c.id)
    requires k.reporter.valid && Due(c, k.reporter, t)
    ensures var (o, l) := (k.reporter.d0Open, k.reporter.d1Locked);
      var k2 := Take(c, src, Take(c, src, k, Report(Sample(o, false, false, l), t)), Report(Sample(o, false, false, !l), t + 1));
      var k4 := Take(c, src, Take(c, src, k2, Arrives(false, t + 1)), Arrives(true, t + 1));
      && |k2.events| == |k2.beats| == 1 && k2.ahead == [1] && k4.events == [] && k4.beats == []
      && Lookup(k4.hub.doors, c.id).Some? && !Agrees(Lookup(k4.hub.doors, c.id).value, k4.reporter)
  {
    hide Take, Lookup, Agrees, Due, Text, GoodId;
    var o, l := k.reporter.d0Open, k.reporter.d1Locked;
    BeatIsDue(c, src, k, t);
    var k1 := Take(c, src, k, Report(Sample(o, false, false, l), t));
    NotDueAgain(c, k1.reporter, t);
    LockChanges(c, src, k1, t + 1);
    var k2 := Take(c, src, k1, Report(Sample(o, false, false, !l), t + 1));
    EventThenBeat(c, src, k2, t + 1);
  }

  lemma NotDueAgain(c: Config, r: Reporter, t: int)
    requires c.period > 1 && r.lastHeartbeat == t
    ensures !Due(c, r, t + 1)
  {
  }

  /** A report that brings nothing new but a heartbeat. */
  lemma BeatIsDue(c: Config, src: Addr, k: Link, t: int)
    requires HubOk(k.hub) && c.mode.notify && k.reporter.sockOpen && k.reporter.valid && Due(c, k.reporter, t)
    requires k.events == [] && k.beats == [] && k.ahead == []
    ensures var r := k.reporter;
      var k' := Take(c, src, k, Report(Sample(r.d0Open, false, false, r.d1Locked), t));
      && k'.hub == k.hub && k'.events == [] && k'.ahead == [] && k'.reporter.sockOpen && k'.reporter.valid
      && Saved(k'.reporter) == Saved(r) && k'.reporter.lastHeartbeat == t
      && |k'.beats| == 1 && k'.beats[0].line == Text(c.id, BeatSays(r.d0Open, r.d1Locked))
  {
    hide EventLine, HeartbeatLine, ToPort, Update, Due;
    var r := k.reporter;
    QuietReport(c, r, t);
    ToPortOne(Pulse(HeartbeatLine(c.id, r.d0Open, r.d1Locked)), true);
    ToPortOne(Pulse(HeartbeatLine(c.id, r.d0Open, r.d1Locked)), false);
  }

  lemma QuietReport(c: Config, r: Reporter, t: int)
    requires c.mode.notify && r.sockOpen && r.valid && Due(c, r, t)
    ensures var (r', sent) := Update(c, r, Sample(r.d0Open, false, false, r.d1Locked), t);
      && r'.sockOpen && r'.valid && Saved(r') == Saved(r) && r'.lastHeartbeat == t
      && sent == [Pulse(HeartbeatLine(c.id, r.d0Open, r.d1Locked))]
  {
    hide EventLine, HeartbeatLine;
  }

  /** A report of a changed lock that is no time for a heartbeat. */
  lemma LockChanges(c: Config, src: Addr, k: Link, t: int)
    requires HubOk(k.hub) && c.mode.notify && k.reporter.sockOpen && k.reporter.valid && !Due(c, k.reporter, t)
    requires k.events == [] && k.ahead == []
    ensures var r := k.reporter;
      var k' := Take(c, src, k, Report(Sample(r.d0Open, false, false, !r.d1Locked), t));
      && k'.hub == k.hub && k'.beats == k.beats && k'.ahead == [|k.beats|]
      && Saved(k'.reporter) == View(r.d0Open, !r.d1Locked)
      && |k'.events| == 1 && k'.events[0].line == Text(c.id, LockSays(!r.d1Locked))
  {
    hide EventLine, HeartbeatLine, ToPort, LockText;
    var r := k.reporter;
    var lock := Notice(EventLine(c.id, "D1", "LOCK", LockText(!r.d1Locked)));
    assert Update(c, r, Sample(r.d0Open, false, false, !r.d1Locked), t).1 == [lock];
    ToPortOne(lock, true);
    ToPortOne(lock, false);
  }

  /** The hub takes the waiting event, then the waiting, older heartbeat. */
  lemma EventThenBeat(c: Config, src: Addr, k: Link, t: int)
    requires HubOk(k.hub) && GoodId(c.id) && Lookup(k.hub.doors, c.id).Some? && |k.events| == |k.beats| == |k.ahead| == 1
    requires var (o, l) := (k.reporter.d0Open, k.reporter.d1Locked);
      k.events[0].line == Text(c.id, LockSays(l)) && k.beats[0].line == Text(c.id, BeatSays(o, !l))
    ensures var k' := Take(c, src, Take(c, src, k, Arrives(false, t)), Arrives(true, t));
      && k'.events == [] && k'.beats == []
      && Lookup(k'.hub.doors, c.id).Some? && !Agrees(Lookup(k'.hub.doors, c.id).value, k'.reporter)
  {
    hide Lookup, Deliver, GoodId, Text;
    var o, l := k.reporter.d0Open, k.reporter.d1Locked;
    LineHeard(k.hub, c.id, LockSays(l), src, t);
    var k1 := Take(c, src, k, Arrives(false, t));
    LineHeard(k1.hub, c.id, BeatSays(o, !l), src, t);
  }
}
