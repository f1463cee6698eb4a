/**
 The hub gives its mutex up while it sends. Here the handling of a datagram is split at that point, and
 every other part of the system may act in the gap; it makes no difference to what can be seen.
 */
module Gap {
  import opened Prelude
  import opened Wire
  import opened HubModel
  import opened Orders
  import opened HubSend
  import opened System
  import HubRuns
  import Bridge
  import DoorModule

  /** What the listener thread still has to do: send a line it holds, or look a module up and forward to it. */
  datatype Half = Relay(out: Out) | Forward(mod: string, line: string)

  /** The system, with the listener thread perhaps in the gap. */
  datatype Split = Split(sys: Sys, half: Option<Half>)

  datatype Step =
    | Whole(a: Act)                            // any step but the handling of a datagram by the hub
    | Takes(p: Packet, t: int, issued: int)    // up to the unlock before the send
    | Sends                                    // the send

  /** What is left to do after the first half. */
  function LeftToDo(h: HubState, line: string): Option<Half> {
    var toks := Tokens(line, C_BLANKS);
    if |toks| < 2 || DoorSlot(h.doors, toks[0]) == |h.doors| then None
    else if Complete(toks, Feedback) then
      match ClientOf(h.pending, toks[0], Atoi(toks[2]))
      case None => None
      case Some(client) => Some(Relay(Out(client, Clip(FeedbackLine(toks[0], Atoi(toks[2]), toks[3], toks[4]), 255))))
    else if Complete(toks, Command) then Some(Forward(toks[0], line))
    else None
  }

  /** The send itself; a forward looks its address up only now. */
  function SentBy(h: HubState, half: Half): seq<Out> {
    match half
    case Relay(out) => [out]
    case Forward(mod, line) => (match Route(h.endpoints, mod) case None => [] case Some(addr) => [Out(addr, line)])
  }

  /** Checks and the handling of datagrams are the listener thread's own: not while it is in the gap. */
  predicate Blocked(s: Split, step: Step) {
    match step
    case Whole(a) => a.HubHears? || (a.HubChecks? && s.half.Some?)
    case Takes(p, _, _) => s.half.Some? || p !in s.sys.net || p.dst != s.sys.site.hub
    case Sends => s.half.None?
  }

  ghost function NextSplit(s: Split, step: Step): (s': Split)
    requires HubOk(s.sys.hub)
    ensures HubOk(s'.sys.hub)
  {
    if Blocked(s, step) then s
    else
      match step
      case Whole(a) => s.(sys := Next(s.sys, a))
      case Takes(p, t, issued) =>
        var line := Received(p.payload);
        Split(s.sys.(hub := HubRuns.Step(s.sys.hub, HubRuns.Arrive(line, p.src, t, issued)).0), LeftToDo(s.sys.hub, line))
      case Sends =>
        Split(s.sys.(net := s.sys.net + OutPackets(s.sys.site.hub, SentBy(s.sys.hub, s.half.value))), None)
  }

  ghost function RunSplit(site: Site, steps: seq<Step>): (s: Split)
    ensures HubOk(s.sys.hub)
  {
    if steps == [] then Split(Start(site), None) else NextSplit(RunSplit(site, steps[..|steps| - 1]), steps[|steps| - 1])
  }

  // ---------- The halves make the whole ----------

  /** What the second half sends is what the undivided step sends. */
  lemma HalvesSendTheSame(h: HubState, line: string, src: Addr, t: int, issued: int)
    requires HubOk(h)
    ensures var (h', out) := HandleLine(h, line, src, t, issued);
      out == match LeftToDo(h, line) case None => [] case Some(half) => SentBy(h', half)
  {
    hide Tokens, DoorAfter, PendingAfter, LogAfter, FindDoor, FreeDoor, FindPending, Learn, Clip, FeedbackLine;
  }

  /** So an undivided step is a divided one with nothing in the gap. */
  lemma WholeIsBothHalves(s: Sys, p: Packet, t: int, issued: int)
    requires HubOk(s.hub) && p in s.net && p.dst == s.site.hub
    ensures var s1 := NextSplit(Split(s, None), Takes(p, t, issued));
      (if s1.half.Some? then NextSplit(s1, Sends) else s1) == Split(Next(s, HubHears(p, t, issued)), None)
  {
    hide LeftToDo, SentBy, HandleLine, Received;
    HalvesSendTheSame(s.hub, Received(p.payload), p.src, t, issued);
    assert s.net + OutPackets(s.site.hub, []) == s.net;
  }

  // ---------- The gap makes no difference ----------

  /** The same state, with at least as much in the network. */
  ghost predicate Same(s: Sys, s2: Sys) {
    && s2.site == s.site && s2.bridge == s.bridge && s2.hub == s.hub && s2.nextId == s.nextId && s2.calls == s.calls
    && s2.trace == s.trace && s.net <= s2.net
  }

  /** The undivided system is as far as the divided one, and has already sent what the gap delays. */
  ghost predicate Ahead(s: Split, s2: Sys) {
    Same(s.sys, s2) && (s.half.Some? ==> OutPackets(s.sys.site.hub, SentBy(s.sys.hub, s.half.value)) <= s2.net)
  }

  /** The datagram a step needs is there. */
  predicate Supplied(s: Sys, a: Act) {
    match a
    case BridgeHears(p) => p in s.net
    case DoorHears(_, p, _) => p in s.net
    case HubHears(p, _, _) => p in s.net
    case _ => true
  }

  /** A bigger network changes nothing but the network. */
  lemma NextIsMonotone(s: Sys, s2: Sys, a: Act)
    requires HubOk(s.hub) && Same(s, s2) && Supplied(s, a)
    ensures Same(Next(s, a), Next(s2, a))
  {
    hide Stray, HubRuns.Step, Bridged, Called, Tried, Woken, Replied, Delivered, HubHandled;
    match a
    case Ask(mod, target, action, asker) =>
      BridgedIsMonotone(s, s2, Order(s.bridge.counter, mod, target, action), asker, Bridge.Issued(s.bridge, asker));
    case AskInfo(mod, client) =>
      BridgedIsMonotone(s, s2, Order(s.bridge.counter, mod, "D0", "STATUS"), Some(client), Bridge.InfoAsked(s.bridge, client));
    case BridgeHears(p) => StationsAreMonotone(s, s2, p, "", DoorModule.UNKNOWN, 0, 0);
    case HubHears(p, t, issued) => StationsAreMonotone(s, s2, p, "", DoorModule.UNKNOWN, t, issued);
    case DoorHears(mod, p, state) => StationsAreMonotone(s, s2, p, mod, state, 0, 0);
    case CallStarts(mod, target, action) => CallsAreMonotone(s, s2, Order(s.nextId, mod, target, action), 0, false);
    case CallSends(id, failed) => CallsAreMonotone(s, s2, Order(0, "", "", ""), id, failed);
    case CallWakes(id, timedOut) => CallsAreMonotone(s, s2, Order(0, "", "", ""), id, timedOut);
    case _ =>
  }

  lemma BridgedIsMonotone(s: Sys, s2: Sys, o: Order, asker: Option<Bridge.Client>, b: Bridge.BridgeState)
    requires Same(s, s2)
    ensures Same(Bridged(s, o, asker, b), Bridged(s2, o, asker, b))
  {
    hide Sendable, CommandText;
  }

  lemma StationsAreMonotone(s: Sys, s2: Sys, p: Packet, mod: string, state: DoorModule.DoorState, t: int, issued: int)
    requires HubOk(s.hub) && Same(s, s2)
    ensures Same(Replied(s, mod, p, state), Replied(s2, mod, p, state))
    ensures Same(Delivered(s, p.payload), Delivered(s2, p.payload))
    ensures Same(HubHandled(s, p, t, issued), HubHandled(s2, p, t, issued))
  {
    hide ReadCommand, FeedbackWire, Bridge.Answered, Bridge.FeedbackOf, HubRuns.Step, OutPackets;
  }

  lemma CallsAreMonotone(s: Sys, s2: Sys, o: Order, id: int, flag: bool)
    requires Same(s, s2)
    ensures Same(Called(s, o), Called(s2, o)) && Same(Tried(s, id, flag), Tried(s2, id, flag))
    ensures Same(Woken(s, id, flag), Woken(s2, id, flag))
  {
    hide Sendable, CommandText, FindDoor, Acknowledges;
  }

  /** Steps in the gap leave the hub's tables alone. */
  lemma GapLeavesTables(s: Sys, a: Act)
    requires HubOk(s.hub) && !a.HubHears? && !a.HubChecks?
    ensures Next(s, a).hub == s.hub && Next(s, a).site == s.site && s.net <= Next(s, a).net
  {
    hide Sendable, Stray, ReadCommand, FindDoor, Acknowledges, Bridge.Answered, Bridge.FeedbackOf, HubRuns.Step, CommandText,
      FeedbackWire;
  }

  lemma NetOnlyGrows(s: Sys, a: Act)
    requires HubOk(s.hub)
    ensures s.net <= Next(s, a).net && Next(s, a).site == s.site
  {
    hide Sendable, Stray, ReadCommand, FindDoor, Acknowledges, Bridge.Answered, Bridge.FeedbackOf, HubRuns.Step, CommandText,
      FeedbackWire, OutPackets;
  }

  /** The step of the undivided system that corresponds to a divided one, if any. */
  function AsWhole(s: Split, step: Step): Option<Act> {
    if Blocked(s, step) then None
    else
      match step
      case Whole(a) => if Supplied(s.sys, a) then Some(a) else None
      case Takes(p, t, issued) => Some(HubHears(p, t, issued))
      case Sends => None
  }

  lemma StaysAhead(s: Split, s2: Sys, step: Step)
    requires HubOk(s.sys.hub) && Ahead(s, s2)
    ensures Ahead(NextSplit(s, step), match AsWhole(s, step) case None => s2 case Some(a) => Next(s2, a))
  {
    hide SentBy, LeftToDo, Next, OutPackets;
    if !Blocked(s, step) {
      match step
      case Whole(a) =>
        if Supplied(s.sys, a) {
          NextIsMonotone(s.sys, s2, a);
          NetOnlyGrows(s2, a);
          if s.half.Some? {
            GapLeavesTables(s.sys, a);
          }
        } else {
          UnsuppliedDoesNothing(s.sys, a);
        }
      case Takes(p, t, issued) => TakesStaysAhead(s, s2, p, t, issued);
      case Sends =>
    }
  }

  lemma UnsuppliedDoesNothing(s: Sys, a: Act)
    requires HubOk(s.hub) && !Supplied(s, a)
    ensures Next(s, a) == s
  {
  }

  lemma TakesStaysAhead(s: Split, s2: Sys, p: Packet, t: int, issued: int)
    requires HubOk(s.sys.hub) && Ahead(s, s2) && !Blocked(s, Takes(p, t, issued))
    ensures Ahead(NextSplit(s, Takes(p, t, issued)), Next(s2, HubHears(p, t, issued)))
  {
    hide SentBy, LeftToDo, HandleLine, Received, OutPackets;
    HalvesSendTheSame(s.sys.hub, Received(p.payload), p.src, t, issued);
  }

  ghost function WholesOf(site: Site, steps: seq<Step>): seq<Act> {
    if steps == [] then []
    else
      WholesOf(site, steps[..|steps| - 1])
      + match AsWhole(RunSplit(site, steps[..|steps| - 1]), steps[|steps| - 1]) case None => [] case Some(a) => [a]
  }

  /**
   Whatever happens in the gaps, some run of the undivided system goes through the same tables, calls and
   bridge states and shows the same trace, so all that is proved of its runs holds of divided ones too.
   */
  lemma {:induction false} GapsMakeNoDifference(site: Site, steps: seq<Step>)
    ensures Ahead(RunSplit(site, steps), RunAll(site, WholesOf(site, steps)))
    ensures RunSplit(site, steps).sys.trace == RunAll(site, WholesOf(site, steps)).trace
  {
    hide NextSplit, Next, AsWhole, SentBy, OutPackets;
    if steps != [] {
      var past, step := steps[..|steps| - 1], steps[|steps| - 1];
      GapsMakeNoDifference(site, past);
      var s, acts := RunSplit(site, past), WholesOf(site, past);
      StaysAhead(s, RunAll(site, acts), step);
      match AsWhole(s, step)
      case None => assert acts + [] == acts;
      case Some(a) =>
        assert (acts + [a])[..|acts|] == acts;
    }
  }
}
