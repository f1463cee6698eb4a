/** The hub and the bridge inside a system run go through runs of their own, so whatever holds of those holds here. */
module SystemParts {
  import opened Wire
  import opened HubModel
  import opened Orders
  import opened System
  import HubRuns
  import Bridge

  /** What the hub makes of a step. */
  ghost function HubEvent(s: Sys, a: Act): seq<HubRuns.Ev> {
    match a
    case HubHears(p, t, issued) =>
      if p in s.net && p.dst == s.site.hub then [HubRuns.Arrive(Received(p.payload), p.src, t, issued)] else []
    case HubChecks(now) => [HubRuns.Check(now)]
    case _ => []
  }

  ghost function HubEvents(site: Site, acts: seq<Act>): seq<HubRuns.Ev> {
    if acts == [] then []
    else HubEvents(site, acts[..|acts| - 1]) + HubEvent(RunAll(site, acts[..|acts| - 1]), acts[|acts| - 1])
  }

  lemma HubStep(s: Sys, a: Act)
    requires HubOk(s.hub)
    ensures Next(s, a).hub == if HubEvent(s, a) == [] then s.hub else HubRuns.Step(s.hub, HubEvent(s, a)[0]).0
  {
    hide Sendable, ReadCommand, FindDoor, Stray, Bridge.Answered, Bridge.FeedbackOf, HubRuns.Step;
  }

  /** The hub's tables in a system run are those of a hub run on the datagrams it received. */
  lemma {:induction false} HubRunsOnItsOwn(site: Site, acts: seq<Act>)
    ensures RunAll(site, acts).hub == HubRuns.Exec(HubEvents(site, acts))
  {
    hide Next, HubRuns.Step, HubEvent;
    if acts != [] {
      var past, a := acts[..|acts| - 1], acts[|acts| - 1];
      HubRunsOnItsOwn(site, past);
      HubStep(RunAll(site, past), a);
      var evs, more := HubEvents(site, past), HubEvent(RunAll(site, past), a);
      AtMostOneHubEvent(RunAll(site, past), a);
      if more == [] {
        assert evs + more == evs;
      } else {
        assert (evs + more)[..|evs|] == evs;
      }
    }
  }

  lemma AtMostOneHubEvent(s: Sys, a: Act)
    ensures |HubEvent(s, a)| <= 1
  {
  }

  /** What the bridge makes of a step. */
  ghost function BridgeEvent(s: Sys, a: Act): seq<Bridge.Happening> {
    match a
    case Ask(mod, target, action, asker) =>
      if Sendable(Order(s.bridge.counter, mod, target, action)) then [Bridge.Command(asker)] else []
    case AskInfo(mod, client) =>
      if Sendable(Order(s.bridge.counter, mod, "D0", "STATUS")) then [Bridge.Info(client)] else []
    case BridgeSent(id, failed) => [Bridge.Sent(id, failed)]
    case BridgeTimer(timer) => [Bridge.Fire(timer)]
    case BridgeHears(p) => if p in s.net && p.dst == s.site.bridge then [Bridge.Message(p.payload)] else []
    case _ => []
  }

  ghost function BridgeEvents(site: Site, acts: seq<Act>): seq<Bridge.Happening> {
    if acts == [] then []
    else BridgeEvents(site, acts[..|acts| - 1]) + BridgeEvent(RunAll(site, acts[..|acts| - 1]), acts[|acts| - 1])
  }

  /** Answers with feedback that the trace shows for `id`. */
  function FeedbacksSeen(trace: seq<Obs>, id: int): nat {
    if trace == [] then 0
    else
      var last := trace[|trace| - 1];
      FeedbacksSeen(trace[..|trace| - 1], id) + if last.Answered? && last.order.id == id then 1 else 0
  }

  lemma FeedbacksSeenNext(trace: seq<Obs>, x: Obs, id: int)
    ensures FeedbacksSeen(trace + [x], id) == FeedbacksSeen(trace, id) + if x.Answered? && x.order.id == id then 1 else 0
  {
    assert (trace + [x])[..|trace|] == trace;
  }

  /** One step, seen by the bridge: its state, and the feedback it gives. */
  lemma BridgeStep(s: Sys, a: Act, id: int)
    requires HubOk(s.hub)
    ensures |BridgeEvent(s, a)| <= 1
    ensures BridgeEvent(s, a) == [] ==>
              Next(s, a).bridge == s.bridge && FeedbacksSeen(Next(s, a).trace, id) == FeedbacksSeen(s.trace, id)
    ensures BridgeEvent(s, a) != [] ==>
              var emitted := Bridge.Emits(s.bridge, BridgeEvent(s, a)[0]);
              && Next(s, a).bridge == Bridge.Next(s.bridge, BridgeEvent(s, a)[0])
              && FeedbacksSeen(Next(s, a).trace, id)
                 == FeedbacksSeen(s.trace, id)
                    + if emitted != [] && emitted[0].id == id && emitted[0].outcome.Feedback? then 1 else 0
  {
    hide Sendable, ReadCommand, FindDoor, Stray, Bridge.Answered, HubRuns.Step, FeedbacksSeen;
    TraceOnlyGrows(s, a);
    var trace' := Next(s, a).trace;
    if |trace'| > |s.trace| {
      assert trace' == s.trace + [trace'[|s.trace|]];
      FeedbacksSeenNext(s.trace, trace'[|s.trace|], id);
    } else {
      assert trace' == s.trace;
    }
  }

  /** The bridge in a system run goes through a bridge run, and the trace shows exactly its feedback answers. */
  lemma {:induction false} BridgeRunsOnItsOwn(site: Site, acts: seq<Act>, id: int)
    ensures RunAll(site, acts).bridge == Bridge.RunAll(BridgeEvents(site, acts))
    ensures FeedbacksSeen(RunAll(site, acts).trace, id)
            == Bridge.FeedbackCount(Bridge.Answers(BridgeEvents(site, acts)), id)
  {
    hide Next, BridgeEvent, Bridge.RunAll, Bridge.Answers, Bridge.FeedbackCount, FeedbacksSeen, Bridge.Next, Bridge.Emits;
    BridgeAtStart(site, id);
    if acts != [] {
      var past, a := acts[..|acts| - 1], acts[|acts| - 1];
      BridgeRunsOnItsOwn(site, past, id);
      BridgeStep(RunAll(site, past), a, id);
      var es, more := BridgeEvents(site, past), BridgeEvent(RunAll(site, past), a);
      if more == [] {
        assert es + more == es;
      } else {
        assert es + more == es + [more[0]];
        BridgeRunNext(es, more[0], id);
      }
    }
  }

  lemma BridgeAtStart(site: Site, id: int)
    ensures RunAll(site, []).bridge == Bridge.RunAll([])
    ensures FeedbacksSeen(RunAll(site, []).trace, id) == Bridge.FeedbackCount(Bridge.Answers([]), id)
  {
  }

  lemma BridgeRunNext(es: seq<Bridge.Happening>, e: Bridge.Happening, id: int)
    ensures Bridge.RunAll(es + [e]) == Bridge.Next(Bridge.RunAll(es), e)
    ensures var emitted := Bridge.Emits(Bridge.RunAll(es), e);
      Bridge.FeedbackCount(Bridge.Answers(es + [e]), id)
      == Bridge.FeedbackCount(Bridge.Answers(es), id)
         + if emitted != [] && emitted[0].id == id && emitted[0].outcome.Feedback? then 1 else 0
  {
    hide Bridge.Next, Bridge.Emits, Bridge.FeedbackCount;
    assert (es + [e])[..|es|] == es;
    Bridge.FeedbackCountAppend(Bridge.Answers(es), Bridge.Emits(Bridge.RunAll(es), e), id);
  }

  /** However often its FEEDBACK is duplicated or repeated by retries, a command is answered with feedback at most once. */
  lemma {:induction false} FeedbackAtMostOnce(site: Site, acts: seq<Act>, j: nat, k: nat)
    requires j < k < |RunAll(site, acts).trace|
    requires RunAll(site, acts).trace[j].Answered? && RunAll(site, acts).trace[k].Answered?
    ensures RunAll(site, acts).trace[j].order.id != RunAll(site, acts).trace[k].order.id
  {
    hide RunAll, BridgeEvents;
    var trace := RunAll(site, acts).trace;
    var id := trace[j].order.id;
    BridgeRunsOnItsOwn(site, acts, id);
    Bridge.FeedbackAtMostOnce(BridgeEvents(site, acts), id);
    if trace[k].order.id == id {
      TwoSeen(trace, j, k, id);
    }
  }

  lemma {:induction false} OneSeen(trace: seq<Obs>, j: nat, id: int)
    requires j < |trace| && trace[j].Answered? && trace[j].order.id == id
    ensures FeedbacksSeen(trace, id) >= 1
  {
    if j < |trace| - 1 {
      OneSeen(trace[..|trace| - 1], j, id);
    }
  }

  lemma {:induction false} TwoSeen(trace: seq<Obs>, j: nat, k: nat, id: int)
    requires j < k < |trace| && trace[j].Answered? && trace[k].Answered?
    requires trace[j].order.id == id && trace[k].order.id == id
    ensures FeedbacksSeen(trace, id) >= 2
  {
    if k < |trace| - 1 {
      TwoSeen(trace[..|trace| - 1], j, k, id);
    } else {
      OneSeen(trace[..|trace| - 1], j, id);
    }
  }
}
