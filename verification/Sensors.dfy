/** From the distance sensor and the bolt of a module to the hub's record of it. */
module Sensors {
  import opened Prelude
  import opened Wire
  import opened HubModel
  import opened HubTables
  import opened HubRuns
  import opened DoorReport
  import opened Replica
  import opened Ports
  import D = DoorModule

  /** The record says of the door and the bolt what this reading and this position mean. */
  ghost predicate ShowsTheDoor(d: DoorRec, position: nat, distance: D.Reading) {
    (d.d0Open <==> distance >= 10) && (d.d1Locked <==> 2048 <= position <= 2059)
  }

  /** A delivered heartbeat of the sampling thread: the record then shows the door, or a full table never had one. */
  lemma HeartbeatShowsTheDoor(h: HubState, id: string, position: nat, distance: D.Reading, src: Addr, t: int)
    requires HubOk(h) && GoodId(id) && position < 4096
    ensures var s := D.TakeSample(position, distance);
      match Lookup(Deliver(h, HeartbeatLine(id, s.d0Open, s.d1Locked), src, t).doors, id)
      case Some(d) =>
        && ShowsTheDoor(d, position, distance) && d.lastHeartbeat == t
        && (d.d1Open <==> distance >= 10) && (d.d0Locked <==> 2048 <= position <= 2059)
      case None => DoorsFull(h)
  {
    hide D.TakeSample, Deliver, Lookup, GoodId;
    D.SampleMeans(position, distance);
    var s := D.TakeSample(position, distance);
    HeartbeatRestoresAgreement(h, id, s.d0Open, s.d1Locked, src, t);
  }

  /**
   A handled lock, unlock or status call whose report is delivered: a record that was right before shows the
   door as the call left it. A failing sensor sends nothing.
   */
  lemma CallShowsTheDoor(h: HubState, c: Config, m: D.Module, call: D.Call, src: Addr, t: int)
    requires HubOk(h) && GoodId(c.id) && c.mode.notify && D.Sound(m) && m.reporter.sockOpen && m.reporter.valid
    requires Lookup(h.doors, c.id).Some? && Agrees(Lookup(h.doors, c.id).value, m.reporter)
    ensures var o := D.Perform(c, m, call);
      if call.s.report == -1 then o.sent == []
      else match Lookup(DeliverAll(h, o.sent, src, call.s.t).doors, c.id)
        case Some(d) => ShowsTheDoor(d, o.m.motor.position, call.s.report)
        case None => false
  {
    hide D.TakeSample, D.Perform, DeliverAll, Lookup, GoodId, Update;
    var o := D.Perform(c, m, call);
    D.PerformReports(c, m, call);
    if call.s.report != -1 {
      D.CallKeepsSound(c, m, call);
      D.SampleMeans(o.m.motor.position, call.s.report);
      var s := D.TakeSample(o.m.motor.position, call.s.report);
      D.UpdateSends(c, m.reporter, s, call.s.t);
      ReportKeepsAgreement(h, c, m.reporter, s, src, call.s.t);
    }
  }

  lemma {:induction false} SavedIsSampled(c: Config, src: Addr, k: Link, turns: seq<Turn>)
    requires HubOk(k.hub) && k.reporter.sockOpen
    ensures var r := Play(c, src, k, turns).reporter;
      && r.sockOpen
      && (ReportsOf(turns) != [] ==>
            r.valid && Saved(r) == Sampled(ReportsOf(turns)[|ReportsOf(turns)| - 1].sample))
  {
    hide Take, Update;
    if turns != [] {
      var past, last := turns[..|turns| - 1], turns[|turns| - 1];
      SavedIsSampled(c, src, k, past);
      SameReporter(c, src, Play(c, src, k, past), last);
      if last.Report? {
        D.UpdateSends(c, Play(c, src, k, past).reporter, last.sample, last.t);
      }
    }
  }

  /**
   Over every run as in `HubFollowsTheModule`: when no event is waiting, the record shows the door and the
   bolt as the module last sampled them.
   */
  lemma HubShowsTheDoor(c: Config, src: Addr, k: Link, turns: seq<Turn>, position: nat, distance: D.Reading)
    requires HubOk(k.hub) && GoodId(c.id) && c.mode.notify && c.mode.heartbeat && AtRest(k, c.id)
    requires OthersOnly(turns, c.id) && InOrder(c, src, k, turns)
    requires position < 4096 && ReportsOf(turns) != []
    requires ReportsOf(turns)[|ReportsOf(turns)| - 1].sample == D.TakeSample(position, distance)
    ensures var k' := Play(c, src, k, turns);
      k'.events == [] && (k'.heard || k'.beats == []) ==>
        match Lookup(k'.hub.doors, c.id)
        case Some(d) => ShowsTheDoor(d, position, distance)
        case None => DoorsFull(k'.hub)
  {
    hide Play, DoorsFull, OtherTraffic, Lookup, D.TakeSample, ReportsOf, InOrder, GoodId;
    SavedIsSampled(c, src, k, turns);
    D.SampleMeans(position, distance);
    HubFollowsTheModule(c, src, k, turns);
  }
}
