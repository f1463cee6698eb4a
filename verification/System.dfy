/**
 The whole command path as one transition system: the bridge, the hub with its own command calls,
 any number of door modules, and a network that loses, duplicates and reorders datagrams.
 */
module System {
  import opened Prelude
  import opened Wire
  import opened HubModel
  import opened Orders
  import opened HubSend
  import HubTables
  import HubRuns
  import Bridge
  import DoorModule

  /** A datagram. Once in the network it may be delivered to its destination any number of times, or never. */
  datatype Packet = Packet(src: Addr, dst: Addr, payload: string)

  datatype Site = Site(bridge: Addr, hub: Addr)

  datatype Issuer = ByHub | ByBridge(asker: Option<Bridge.Client>)

  /** What an observer of the whole system sees; `Handled` is done by module `order.mod`. */
  datatype Obs =
    | Issued(issuer: Issuer, order: Order)
    | Handled(order: Order, reply: string)
    | Answered(client: Bridge.Client, order: Order)    // a direct `command-feedback`; `action` is what it reports
    | Acked(order: Order)                              // hub_udp_send_command returned true

  /** A `hub_udp_send_command` call in progress: the record it points at, and its retry loop. */
  datatype Call = Call(order: Order, slot: nat, dest: Addr, attempt: nat, sent: nat, waiting: bool)

  datatype Sys = Sys(
    site: Site, bridge: Bridge.BridgeState, hub: HubState, nextId: int, calls: map<int, Call>,
    net: set<Packet>, trace: seq<Obs>)

  datatype Act =
    | Ask(mod: string, target: string, action: string, asker: Option<Bridge.Client>)
    | AskInfo(mod: string, client: Bridge.Client)
    | BridgeSent(id: int, failed: bool)
    | BridgeTimer(timer: nat)
    | BridgeHears(p: Packet)
    | HubHears(p: Packet, t: int, issued: int)
    | HubChecks(now: int)
    | CallStarts(mod: string, target: string, action: string)
    | CallSends(id: int, failed: bool)
    | CallWakes(id: int, timedOut: bool)
    | DoorHears(mod: string, p: Packet, state: DoorModule.DoorState)
    | Noise(p: Packet)

  function Start(site: Site): Sys {
    Sys(site, Bridge.INITIAL_BRIDGE, InitialHub(), 1, map[], {}, [])
  }

  ghost function Bridged(s: Sys, o: Order, asker: Option<Bridge.Client>, b: Bridge.BridgeState): Sys {
    if !Sendable(o) then s
    else s.(bridge := b, net := s.net + {Packet(s.site.bridge, s.site.hub, CommandText(o))},
            trace := s.trace + [Issued(ByBridge(asker), o)])
  }

  function OutPackets(hub: Addr, out: seq<Out>): set<Packet> {
    set o | o in out :: Packet(hub, o.dst, o.payload)
  }

  /** The hub handles a received line. */
  ghost function HubHandled(s: Sys, p: Packet, t: int, issued: int): (s': Sys)
    requires HubOk(s.hub)
    ensures HubOk(s'.hub)
  {
    var (h, out) := HubRuns.Step(s.hub, HubRuns.Arrive(Received(p.payload), p.src, t, issued));
    s.(hub := h, net := s.net + OutPackets(s.site.hub, out))
  }

  function Replied(s: Sys, mod: string, p: Packet, state: DoorModule.DoorState): Sys {
    match ReadCommand(mod, p.payload)
    case None => s
    case Some(o) =>
      var reply := DoorModule.Reply(o.action, state);
      s.(net := s.net + {Packet(p.dst, s.site.hub, FeedbackWire(o, reply))}, trace := s.trace + [Handled(o, reply)])
  }

  /** The bridge's `message` handler; a trace entry for a direct answer. */
  function Delivered(s: Sys, msg: string): Sys {
    match Bridge.Answered(s.bridge, msg)
    case None => s
    case Some(id) =>
      var f := Bridge.FeedbackOf(msg);
      s.(bridge := Bridge.MessageHandled(s.bridge, msg),
         trace := s.trace + [Answered(s.bridge.pending[id].client, Order(id, f.mod, f.target, f.action))])
  }

  ghost function Called(s: Sys, o: Order): Sys {
    if !Sendable(o) || !Reachable(s.hub.doors, o.mod) then s
    else
      var slot := FindDoor(s.hub.doors, o.mod);
      s.(nextId := s.nextId + 1, trace := s.trace + [Issued(ByHub, o)],
         calls := s.calls[o.id := Call(o, slot, s.hub.doors[slot].addr.value, 0, 0, false)])
  }

  /** One more pass of the retry loop, or the end of the call. */
  function NextPass(s: Sys, id: int): Sys
    requires id in s.calls
  {
    var c := s.calls[id];
    if c.attempt == ACK_RETRIES then s.(calls := s.calls - {id})
    else s.(calls := s.calls[id := c.(attempt := c.attempt + 1, waiting := false)])
  }

  function Tried(s: Sys, id: int, failed: bool): Sys {
    if id !in s.calls || s.calls[id].waiting then s
    else if failed then NextPass(s, id)
    else
      var c := s.calls[id];
      s.(calls := s.calls[id := c.(sent := c.sent + 1, waiting := true)],
         net := s.net + {Packet(s.site.hub, c.dest, Clip(CommandText(c.order), 255))})
  }

  function Woken(s: Sys, id: int, timedOut: bool): Sys {
    if id !in s.calls || !s.calls[id].waiting || s.calls[id].slot >= |s.hub.doors| then s
    else
      var c := s.calls[id];
      var door := s.hub.doors[c.slot];
      if Acknowledges(door, c.order) then s.(calls := s.calls - {id}, trace := s.trace + [Acked(c.order)])
      else if timedOut || door.feedbackId >= id then NextPass(s, id)
      else s
  }

  /** One step; an action that is not possible changes nothing. */
  ghost function Next(s: Sys, a: Act): (s': Sys)
    requires HubOk(s.hub)
    ensures HubOk(s'.hub)
  {
    match a
    case Ask(mod, target, action, asker) =>
      Bridged(s, Order(s.bridge.counter, mod, target, action), asker, Bridge.Issued(s.bridge, asker))
    case AskInfo(mod, client) =>
      Bridged(s, Order(s.bridge.counter, mod, "D0", "STATUS"), Some(client), Bridge.InfoAsked(s.bridge, client))
    case BridgeSent(id, failed) => s.(bridge := Bridge.SendDone(s.bridge, id, failed))
    case BridgeTimer(timer) => s.(bridge := Bridge.TimerFired(s.bridge, timer))
    case BridgeHears(p) => if p in s.net && p.dst == s.site.bridge then Delivered(s, p.payload) else s
    case HubHears(p, t, issued) => if p in s.net && p.dst == s.site.hub then HubHandled(s, p, t, issued) else s
    case HubChecks(now) => s.(hub := HubRuns.Step(s.hub, HubRuns.Check(now)).0)
    case CallStarts(mod, target, action) => Called(s, Order(s.nextId, mod, target, action))
    case CallSends(id, failed) => Tried(s, id, failed)
    case CallWakes(id, timedOut) => Woken(s, id, timedOut)
    case DoorHears(mod, p, state) => if p in s.net && p.dst != s.site.hub then Replied(s, mod, p, state) else s
    case Noise(p) => if Stray(p.payload) then s.(net := s.net + {p}) else s
  }

  ghost function RunAll(site: Site, acts: seq<Act>): (s: Sys)
    ensures HubOk(s.hub)
  {
    if acts == [] then Start(site) else Next(RunAll(site, acts[..|acts| - 1]), acts[|acts| - 1])
  }

  // ---------- Every text in the network has an explanation ----------

  /** A COMMAND that was issued, perhaps cut, the FEEDBACK of a handled one, or neither kind of line. */
  ghost predicate Explained(text: string, trace: seq<Obs>) {
    || Stray(text)
    || (exists issuer, o :: Issued(issuer, o) in trace && Received(text) == Received(CommandText(o)))
    || (exists h, reply :: Handled(h, reply) in trace && text == FeedbackWire(h, reply))
  }

  ghost predicate NetExplained(s: Sys) {
    forall p | p in s.net :: Explained(p.payload, s.trace)
  }

  /** What a FEEDBACK for `h` with this reply shows: `h` with as much of the reply as fits for its action. */
  function Reports(h: Order, reply: string): Option<Order> {
    match Shown(h, reply)
    case None => None
    case Some(r) => Some(h.(action := r))
  }

  /** What must have happened before an observation. */
  ghost predicate Justified(past: seq<Obs>, x: Obs) {
    match x
    case Issued(_, o) => Sendable(o)
    case Handled(h, reply) => IsReply(h.action, reply) && exists issuer, o :: Issued(issuer, o) in past && Seen(o) == Some(h)
    case Answered(client, said) =>
      && (exists h, reply :: Handled(h, reply) in past && Reports(h, reply) == Some(said))
      && AskedFor(past, said.id, client)
    case Acked(o) => Issued(ByHub, o) in past && Echoed(past, o)
  }

  /** The bridge issued command `id` for `client`. */
  ghost predicate AskedFor(trace: seq<Obs>, id: int, client: Bridge.Client) {
    exists o :: Issued(ByBridge(Some(client)), o) in trace && o.id == id
  }

  /** The addressed module handled a command whose FEEDBACK passes for that of `o`. */
  ghost predicate Echoed(trace: seq<Obs>, o: Order) {
    exists h, reply :: Handled(h, reply) in trace && EchoOf(o, h, reply)
  }

  /** This or a later id, and target and shown reply, cut to 31 characters, are the target and action of `o`. */
  predicate EchoOf(o: Order, h: Order, reply: string) {
    && Shown(h, reply).Some? && h.id >= o.id && h.mod == o.mod
    && Clip(h.target, 31) == o.target && Clip(Shown(h, reply).value, 31) == o.action
  }

  ghost predicate TraceJustified(trace: seq<Obs>) {
    forall k | 0 <= k < |trace| :: Justified(trace[..k], trace[k])
  }

  /** The acknowledgement fields of a record come from a handled command of its module. */
  ghost predicate RecordBacked(d: DoorRec, trace: seq<Obs>) {
    d.feedbackId > 0 ==> exists h, reply :: Handled(h, reply) in trace && Holds(d, h, reply)
  }

  /** The record holds the FEEDBACK for `h` with this reply. */
  predicate Holds(d: DoorRec, h: Order, reply: string) {
    && Shown(h, reply).Some? && h.id == d.feedbackId && h.mod == d.id
    && d.feedbackTarget == Clip(h.target, 31) && d.feedbackAction == Clip(Shown(h, reply).value, 31)
  }

  ghost predicate RecordsBacked(s: Sys) {
    forall i | 0 <= i < |s.hub.doors| :: s.hub.doors[i].known ==> RecordBacked(s.hub.doors[i], s.trace)
  }

  /** Whoever waits for an id asked for it. */
  ghost predicate ClientsBacked(b: Bridge.BridgeState, trace: seq<Obs>) {
    && (forall id | id in b.pending :: AskedFor(trace, id, b.pending[id].client))
    && (forall id | id in b.sending && b.sending[id].ForCommand? && b.sending[id].asker.Some? ::
          AskedFor(trace, id, b.sending[id].asker.value))
  }

  ghost predicate CallOk(s: Sys, id: int, c: Call) {
    && c.order.id == id && Sendable(c.order) && 0 < id < s.nextId && Issued(ByHub, c.order) in s.trace
    && c.slot < |s.hub.doors| && Owns(s.hub.doors[c.slot], c.order.mod)
    && c.attempt <= ACK_RETRIES && c.sent <= c.attempt + (if c.waiting then 1 else 0)
  }

  ghost predicate CallsOk(s: Sys) {
    s.nextId >= 1 && forall id | id in s.calls :: CallOk(s, id, s.calls[id])
  }

  /** Either side numbers its commands upwards from 1. */
  ghost predicate Numbered(trace: seq<Obs>, nextId: int, counter: int) {
    && nextId >= 1 && counter >= 1
    && (forall k | 0 <= k < |trace| && trace[k].Issued? ::
          1 <= trace[k].order.id < if trace[k].issuer.ByHub? then nextId else counter)
    && (forall j, k | 0 <= j < k < |trace| && trace[j].Issued? && trace[k].Issued?
                      && trace[j].issuer.ByHub? == trace[k].issuer.ByHub? ::
          trace[j].order.id < trace[k].order.id)
  }

  ghost predicate Inv(s: Sys) {
    && NetExplained(s) && TraceJustified(s.trace) && RecordsBacked(s) && ClientsBacked(s.bridge, s.trace) && CallsOk(s)
    && Numbered(s.trace, s.nextId, s.bridge.counter)
  }

  // ---------- Reading a text from the network ----------

  lemma IssuedIsSendable(trace: seq<Obs>, issuer: Issuer, o: Order)
    requires TraceJustified(trace) && Issued(issuer, o) in trace
    ensures Sendable(o)
  {
    var k :| 0 <= k < |trace| && trace[k] == Issued(issuer, o);
    assert Justified(trace[..k], trace[k]);
  }

  lemma HandledIsWellFormed(trace: seq<Obs>, h: Order, reply: string)
    requires TraceJustified(trace) && Handled(h, reply) in trace
    ensures WellFormed(h) && IsReply(h.action, reply)
  {
    hide Seen, Sendable, WellFormed, IsReply;
    var k :| 0 <= k < |trace| && trace[k] == Handled(h, reply);
    assert Justified(trace[..k], trace[k]);
    var issuer, o :| Issued(issuer, o) in trace[..k] && Seen(o) == Some(h);
    IssuedIsSendable(trace, issuer, o);
    DoorReads(o, CommandText(o), o.mod);
  }

  /** A complete COMMAND at the hub is what a module sees in an issued one. */
  lemma HubReadsCommand(text: string, trace: seq<Obs>) returns (issuer: Issuer, o: Order)
    requires Explained(text, trace) && TraceJustified(trace)
    requires Complete(Tokens(Received(text), C_BLANKS), Command)
    ensures Issued(issuer, o) in trace && Sendable(o) && Received(text) == Received(CommandText(o))
    ensures var toks := Tokens(Received(text), C_BLANKS);
      toks[0] == o.mod && toks[2] == PrintInt(o.id) && Seen(o) == Some(Order(o.id, o.mod, toks[3], toks[4]))
  {
    hide TraceJustified, Sendable, WellFormed, IsReply, Tokens, Received, CommandText, FeedbackWire;
    Keywords();
    if i, p :| Issued(i, p) in trace && Received(text) == Received(CommandText(p)) {
      issuer, o := i, p;
      IssuedIsSendable(trace, i, p);
      CommandRead(o, text);
      NumberRoundTrip(o.id);
      hide KindOf, PrintInt, Atoi;
    } else {
      var h, reply :| Handled(h, reply) in trace && text == FeedbackWire(h, reply);
      HandledIsWellFormed(trace, h, reply);
      FeedbackRead(h, reply);
      hide KindOf;
      assert false;
    }
  }

  /** A complete FEEDBACK at the hub is a handler's reply. */
  lemma HubReadsFeedback(text: string, trace: seq<Obs>) returns (h: Order, reply: string)
    requires Explained(text, trace) && TraceJustified(trace)
    requires Complete(Tokens(Received(text), C_BLANKS), Feedback)
    ensures Handled(h, reply) in trace && WellFormed(h) && IsReply(h.action, reply)
    ensures text == FeedbackWire(h, reply) == Received(text) && Shown(h, reply).Some?
    ensures Tokens(Received(text), C_BLANKS) == [h.mod, "FEEDBACK", PrintInt(h.id), h.target, Shown(h, reply).value]
  {
    hide TraceJustified, Sendable, WellFormed, IsReply, Tokens, Received, CommandText, FeedbackWire;
    Keywords();
    hide KindOf;
    if p, r :| Handled(p, r) in trace && text == FeedbackWire(p, r) {
      h, reply := p, r;
      HandledIsWellFormed(trace, h, reply);
      FeedbackRead(h, reply);
    } else {
      var i, p :| Issued(i, p) in trace && Received(text) == Received(CommandText(p));
      IssuedIsSendable(trace, i, p);
      CommandRead(p, text);
      assert false;
    }
  }

  /** A command found by a module is what is seen in an issued one, addressed to this module. */
  lemma DoorReadsCommand(mod: string, text: string, trace: seq<Obs>) returns (issuer: Issuer, o: Order)
    requires Explained(text, trace) && TraceJustified(trace) && ReadCommand(mod, text).Some?
    ensures Issued(issuer, o) in trace && Seen(o) == ReadCommand(mod, text) && WellFormed(ReadCommand(mod, text).value)
  {
    issuer, o := HubReadsCommand(text, trace);
    hide Sendable, Seen, WellFormed;
    DoorReads(o, text, mod);
  }

  /** A FEEDBACK at the bridge is a handler's reply. */
  lemma BridgeReadsFeedback(text: string, trace: seq<Obs>) returns (h: Order, reply: string)
    requires Explained(text, trace) && TraceJustified(trace) && Bridge.FeedbackId(text).Some?
    ensures Handled(h, reply) in trace && WellFormed(h) && IsReply(h.action, reply) && text == FeedbackWire(h, reply)
    ensures Bridge.FeedbackId(text) == Some(h.id) && Shown(h, reply).Some?
    ensures |JsParts(text)| >= 5 && Bridge.FeedbackOf(text) == Bridge.Feedback(h.mod, h.target, Shown(h, reply).value)
  {
    hide TraceJustified, Sendable, WellFormed, IsReply, Bridge.FeedbackId, Bridge.FeedbackOf, CommandText, FeedbackWire, Received;
    if p, r :| Handled(p, r) in trace && text == FeedbackWire(p, r) {
      h, reply := p, r;
      HandledIsWellFormed(trace, h, reply);
      FeedbackRead(h, reply);
    } else {
      var i, p :| Issued(i, p) in trace && Received(text) == Received(CommandText(p));
      IssuedIsSendable(trace, i, p);
      CommandRead(p, text);
      assert false;
    }
  }

  /** What the hub sends on is the very text it received, so it needs no new explanation. */
  lemma HubPassesTextsOn(s: Sys, p: Packet, t: int, issued: int, o: Out)
    requires HubOk(s.hub) && Explained(p.payload, s.trace) && TraceJustified(s.trace)
    requires o in HandleLine(s.hub, Received(p.payload), p.src, t, issued).1
    ensures o.payload == Received(p.payload) && Explained(o.payload, s.trace)
  {
    var line := Received(p.payload);
    var toks := Tokens(line, C_BLANKS);
    hide Tokens, Received, Explained, TraceJustified, FindDoor, FreeDoor, DoorAfter, PendingAfter, LogAfter, WellFormed,
      IsReply, Sendable, FeedbackWire;
    if Complete(toks, Feedback) {
      var h, reply := HubReadsFeedback(p.payload, s.trace);
      FeedbackReprint(h, reply);
      NumberRoundTrip(h.id);
    } else if Complete(toks, Command) {
      var issuer, order := HubReadsCommand(p.payload, s.trace);
      ReceivedTwice(p.payload);
      assert Explained(line, s.trace) by { IssuedExplains(line, s.trace, issuer, order); }
    }
  }

  lemma IssuedExplains(text: string, trace: seq<Obs>, issuer: Issuer, o: Order)
    requires Issued(issuer, o) in trace && Received(text) == Received(CommandText(o))
    ensures Explained(text, trace)
  {
    hide Received, CommandText, Stray;
  }

  // ---------- Each part of the invariant survives each step ----------

  /** What is explained, backed or asked for stays so while the trace grows. */
  lemma TraceGrows(trace: seq<Obs>, more: seq<Obs>)
    requires trace <= more
    ensures forall text | Explained(text, trace) :: Explained(text, more)
    ensures forall d | RecordBacked(d, trace) :: RecordBacked(d, more)
    ensures forall id, client | AskedFor(trace, id, client) :: AskedFor(more, id, client)
    ensures forall x | x in trace :: x in more
  {
    hide Stray;
    assert forall x | x in trace :: x in more;
  }

  lemma TraceOnlyGrows(s: Sys, a: Act)
    requires HubOk(s.hub)
    ensures s.trace <= Next(s, a).trace && |Next(s, a).trace| <= |s.trace| + 1 && Next(s, a).site == s.site
  {
    hide HubRuns.Step, Stray, Sendable, ReadCommand, FindDoor, Acknowledges, Bridge.Answered, Bridge.FeedbackOf;
  }

  lemma NetStaysExplained(s: Sys, a: Act)
    requires HubOk(s.hub) && Inv(s)
    ensures NetExplained(Next(s, a))
  {
    hide HubOk, Sendable, ReadCommand, FindDoor, Acknowledges, Bridge.Answered, Bridge.FeedbackOf, TraceJustified, CommandText,
      FeedbackWire, RecordBacked, AskedFor, Stray, RecordsBacked, ClientsBacked, Numbered, HubHandled, Replied, HubRuns.Step,
      Bridge.Issued, Bridge.InfoAsked, Bridge.SendDone, Bridge.TimerFired, Bridge.MessageHandled, Explained, Received;
    var s' := Next(s, a);
    TraceOnlyGrows(s, a);
    TraceGrows(s.trace, s'.trace);
    match a
    case Ask(mod, target, action, asker) =>
      SendingStaysExplained(s, s', ByBridge(asker), Order(s.bridge.counter, mod, target, action));
    case AskInfo(mod, client) =>
      SendingStaysExplained(s, s', ByBridge(Some(client)), Order(s.bridge.counter, mod, "D0", "STATUS"));
    case CallSends(id, failed) =>
      if id in s.calls {
        ReceivedTwice(CommandText(s.calls[id].order));
        SendingStaysExplained(s, s', ByHub, s.calls[id].order);
      }
    case HubHears(p, t, issued) =>
      if p in s.net && p.dst == s.site.hub {
        HeardStaysExplained(s, p, t, issued);
      }
    case DoorHears(mod, p, state) =>
      if p in s.net && p.dst != s.site.hub {
        RepliedStaysExplained(s, mod, p, state);
      }
    case BridgeSent(_, _) =>
    case BridgeTimer(_) =>
    case BridgeHears(_) =>
    case HubChecks(_) =>
    case CallStarts(_, _, _) =>
    case CallWakes(_, _) =>
    case Noise(p) => if Stray(p.payload) { StrayIsExplained(p.payload, s.trace); }
  }

  lemma StrayIsExplained(text: string, trace: seq<Obs>)
    requires Stray(text)
    ensures Explained(text, trace)
  {
  }

  /** A step that puts at most the text of an issued command into the network. */
  lemma SendingStaysExplained(s: Sys, s': Sys, issuer: Issuer, o: Order)
    requires NetExplained(s) && s.trace <= s'.trace
    requires forall p | p in s'.net && p !in s.net ::
               Received(p.payload) == Received(CommandText(o)) && Issued(issuer, o) in s'.trace
    ensures NetExplained(s')
  {
    TraceGrows(s.trace, s'.trace);
    hide Stray, CommandText, FeedbackWire, Received;
    forall p | p in s'.net
      ensures Explained(p.payload, s'.trace)
    {
      if p in s.net {
        assert Explained(p.payload, s.trace);
      }
    }
  }

  lemma HeardStaysExplained(s: Sys, p: Packet, t: int, issued: int)
    requires HubOk(s.hub) && NetExplained(s) && TraceJustified(s.trace) && p in s.net
    ensures NetExplained(HubHandled(s, p, t, issued))
  {
    hide TraceJustified, Explained;
    forall q | q in HubHandled(s, p, t, issued).net
      ensures Explained(q.payload, s.trace)
    {
      if q !in s.net {
        var out := HandleLine(s.hub, Received(p.payload), p.src, t, issued).1;
        var o :| o in out && q == Packet(s.site.hub, o.dst, o.payload);
        HubPassesTextsOn(s, p, t, issued, o);
      }
    }
  }

  lemma RepliedStaysExplained(s: Sys, mod: string, p: Packet, state: DoorModule.DoorState)
    requires NetExplained(s) && TraceJustified(s.trace) && p in s.net
    ensures NetExplained(Replied(s, mod, p, state))
  {
    hide ReadCommand, DoorModule.Reply, TraceJustified, Stray, FeedbackWire, Received, CommandText;
    if ReadCommand(mod, p.payload).Some? {
      var h := ReadCommand(mod, p.payload).value;
      var reply := DoorModule.Reply(h.action, state);
      TraceGrows(s.trace, s.trace + [Handled(h, reply)]);
      assert Handled(h, reply) in s.trace + [Handled(h, reply)];
    }
  }

  lemma JustifiedNext(trace: seq<Obs>, x: Obs)
    requires TraceJustified(trace) && Justified(trace, x)
    ensures TraceJustified(trace + [x])
  {
    hide Justified;
    forall k | 0 <= k < |trace| + 1
      ensures Justified((trace + [x])[..k], (trace + [x])[k])
    {
      assert (trace + [x])[..k] == trace[..k];
      if k == |trace| {
        assert trace[..k] == trace;
      }
    }
  }

  lemma TraceStaysJustified(s: Sys, a: Act)
    requires HubOk(s.hub) && Inv(s)
    ensures TraceJustified(Next(s, a).trace)
  {
    hide HubRuns.Step, Stray, Sendable, ReadCommand, FindDoor, Acknowledges, Bridge.Answered, Bridge.FeedbackOf, Justified;
    match a
    case Ask(mod, target, action, asker) =>
      AskedIsJustified(s, Order(s.bridge.counter, mod, target, action), ByBridge(asker));
    case AskInfo(mod, client) =>
      AskedIsJustified(s, Order(s.bridge.counter, mod, "D0", "STATUS"), ByBridge(Some(client)));
    case BridgeHears(p) =>
      if p in s.net && p.dst == s.site.bridge { DeliveredIsJustified(s, p.payload); }
    case DoorHears(mod, p, state) =>
      if p in s.net && p.dst != s.site.hub { RepliedIsJustified(s, mod, p, state); }
    case CallStarts(mod, target, action) =>
      AskedIsJustified(s, Order(s.nextId, mod, target, action), ByHub);
    case CallWakes(id, timedOut) => WokenIsJustified(s, id, timedOut);
    case BridgeSent(_, _) =>
    case BridgeTimer(_) =>
    case HubHears(_, _, _) =>
    case HubChecks(_) =>
    case CallSends(_, _) =>
    case Noise(_) =>
  }

  lemma AskedIsJustified(s: Sys, o: Order, issuer: Issuer)
    requires TraceJustified(s.trace)
    ensures Sendable(o) ==> TraceJustified(s.trace + [Issued(issuer, o)])
  {
    hide Sendable, TraceJustified;
    if Sendable(o) {
      JustifiedNext(s.trace, Issued(issuer, o));
    }
  }

  lemma DeliveredIsJustified(s: Sys, msg: string)
    requires Explained(msg, s.trace) && TraceJustified(s.trace) && ClientsBacked(s.bridge, s.trace)
    ensures TraceJustified(Delivered(s, msg).trace)
  {
    hide TraceJustified, Explained, WellFormed, IsReply, Shown, FeedbackWire;
    if Bridge.Answered(s.bridge, msg).Some? {
      var h, reply := BridgeReadsFeedback(msg, s.trace);
      hide Bridge.FeedbackId, Bridge.FeedbackOf;
      var said := Order(h.id, h.mod, h.target, Shown(h, reply).value);
      assert Reports(h, reply) == Some(said);
      assert AskedFor(s.trace, h.id, s.bridge.pending[h.id].client);
      JustifiedNext(s.trace, Answered(s.bridge.pending[h.id].client, said));
    }
  }

  lemma RepliedIsJustified(s: Sys, mod: string, p: Packet, state: DoorModule.DoorState)
    requires NetExplained(s) && TraceJustified(s.trace) && p in s.net
    ensures TraceJustified(Replied(s, mod, p, state).trace)
  {
    hide ReadCommand, DoorModule.Reply, TraceJustified, Explained, Seen, WellFormed;
    if ReadCommand(mod, p.payload).Some? {
      var h := ReadCommand(mod, p.payload).value;
      var issuer, o := DoorReadsCommand(mod, p.payload, s.trace);
      JustifiedNext(s.trace, Handled(h, DoorModule.Reply(h.action, state)));
    }
  }

  /** A record that acknowledges a call was last written by a handler's echo. */
  lemma {:induction false} AcknowledgedIsEchoed(trace: seq<Obs>, d: DoorRec, o: Order)
    requires TraceJustified(trace) && RecordBacked(d, trace) && Acknowledges(d, o) && d.id == o.mod && o.id > 0
    ensures Echoed(trace, o)
  {
    hide Shown;
    var h, reply :| Handled(h, reply) in trace && Holds(d, h, reply);
    assert EchoOf(o, h, reply);
  }

  lemma WokenIsJustified(s: Sys, id: int, timedOut: bool)
    requires TraceJustified(s.trace) && RecordsBacked(s) && CallsOk(s)
    ensures TraceJustified(Woken(s, id, timedOut).trace)
  {
    hide TraceJustified, Sendable, RecordBacked, Echoed;
    if id in s.calls && s.calls[id].waiting && Acknowledges(s.hub.doors[s.calls[id].slot], s.calls[id].order) {
      var c := s.calls[id];
      AcknowledgedIsEchoed(s.trace, s.hub.doors[c.slot], c.order);
      JustifiedNext(s.trace, Acked(c.order));
    }
  }

  lemma RecordsStayBacked(s: Sys, a: Act)
    requires HubOk(s.hub) && Inv(s)
    ensures RecordsBacked(Next(s, a))
  {
    hide RecordBacked, RecordsBacked, TraceJustified, NetExplained, ClientsBacked, CallsOk, Numbered, HubRuns.Step, HubOk,
      Replied, Delivered, Tried, Woken, Called, Bridged;
    TraceOnlyGrows(s, a);
    match a
    case HubHears(p, t, issued) =>
      if p in s.net && p.dst == s.site.hub {
        assert Explained(p.payload, s.trace) by { NetText(s, p); }
        HeardStaysBacked(s, p, t, issued);
      }
    case HubChecks(now) => CheckedStaysBacked(s, now);
    case _ =>
      SameHub(s, a);
      GrownStaysBacked(s, Next(s, a));
  }

  lemma NetText(s: Sys, p: Packet)
    requires NetExplained(s) && p in s.net
    ensures Explained(p.payload, s.trace)
  {
    hide Explained;
  }

  lemma SameHub(s: Sys, a: Act)
    requires HubOk(s.hub) && !a.HubHears? && !a.HubChecks?
    ensures Next(s, a).hub == s.hub
  {
    hide Sendable, Stray, ReadCommand, FindDoor, Acknowledges, Bridge.Answered, Bridge.FeedbackOf, HubRuns.Step;
  }

  lemma GrownStaysBacked(s: Sys, s': Sys)
    requires RecordsBacked(s) && s'.hub == s.hub && s.trace <= s'.trace
    ensures RecordsBacked(s')
  {
    hide RecordBacked;
    TraceGrows(s.trace, s'.trace);
  }

  lemma CheckedStaysBacked(s: Sys, now: int)
    requires HubOk(s.hub) && RecordsBacked(s)
    ensures RecordsBacked(s.(hub := HubRuns.Step(s.hub, HubRuns.Check(now)).0))
  {
    hide RecordBacked, HandleLine, CheckEntries;
    forall d: DoorRec
      ensures RecordBacked(CheckDoor(d, now), s.trace) <==> RecordBacked(d, s.trace)
    {
      CheckedRecord(d, now, s.trace);
    }
    hide CheckDoor;
    CheckedOwners(s.hub, now);
  }

  lemma CheckedRecord(d: DoorRec, now: int, trace: seq<Obs>)
    ensures RecordBacked(CheckDoor(d, now), trace) <==> RecordBacked(d, trace)
  {
    assert CheckDoor(d, now).feedbackId == d.feedbackId && CheckDoor(d, now).feedbackTarget == d.feedbackTarget;
    assert CheckDoor(d, now).feedbackAction == d.feedbackAction && CheckDoor(d, now).id == d.id;
    hide CheckDoor, Shown;
  }

  lemma CheckedOwners(h: HubState, now: int)
    requires HubOk(h)
    ensures var doors' := HubRuns.Step(h, HubRuns.Check(now)).0.doors;
      |doors'| == |h.doors| && forall i | 0 <= i < |doors'| :: doors'[i] == CheckDoor(h.doors[i], now) && doors'[i].known == h.doors[i].known
  {
    hide CheckEntries;
  }

  lemma HeardStaysBacked(s: Sys, p: Packet, t: int, issued: int)
    requires HubOk(s.hub) && RecordsBacked(s) && Explained(p.payload, s.trace) && TraceJustified(s.trace)
    ensures RecordsBacked(HubHandled(s, p, t, issued))
  {
    var line := Received(p.payload);
    var toks := Tokens(line, C_BLANKS);
    hide RecordBacked, TraceJustified, Explained, Tokens, Received;
    HubTables.LineDoors(s.hub, line, p.src, t, issued);
    hide HandleLine;
    if |toks| >= 2 && DoorSlot(s.hub.doors, toks[0]) < |s.hub.doors| {
      ClaimedStaysBacked(s, p, t);
    }
  }

  /** The one record a line touches. */
  lemma ClaimedStaysBacked(s: Sys, p: Packet, t: int)
    requires RecordsBacked(s) && Explained(p.payload, s.trace) && TraceJustified(s.trace)
    requires |Tokens(Received(p.payload), C_BLANKS)| >= 2
    requires DoorSlot(s.hub.doors, Tokens(Received(p.payload), C_BLANKS)[0]) < |s.hub.doors|
    ensures var toks := Tokens(Received(p.payload), C_BLANKS);
      RecordBacked(DoorAfter(Heard(ClaimedDoor(s.hub.doors, toks[0]), toks, p.src), toks, t), s.trace)
  {
    var toks := Tokens(Received(p.payload), C_BLANKS);
    var d := Heard(ClaimedDoor(s.hub.doors, toks[0]), toks, p.src);
    var e := DoorAfter(d, toks, t);
    hide TraceJustified, Explained, Tokens, Received, FindDoor, FreeDoor;
    DoorAfterKeeps(d, toks, t);
    if Complete(toks, Feedback) {
      var h, reply := HubReadsFeedback(p.payload, s.trace);
      NumberRoundTrip(h.id);
      assert |h.mod| <= ID_CHARS;
      hide WellFormed, IsReply, FeedbackWire, Atoi, PrintInt, Shown;
      assert e.id == h.mod;
      assert e.feedbackId == h.id && e.feedbackTarget == Clip(h.target, 31);
      assert e.feedbackAction == Clip(Shown(h, reply).value, 31);
      assert Holds(e, h, reply);
    } else {
      hide DoorAfter;
      assert e.id == d.id;
    }
  }

  lemma ClientsStayBacked(s: Sys, a: Act)
    requires HubOk(s.hub) && Inv(s)
    ensures ClientsBacked(Next(s, a).bridge, Next(s, a).trace)
  {
    hide ReadCommand, FindDoor, Acknowledges, HubRuns.Step, TraceJustified, Explained, Stray, AskedFor, Sendable, RecordBacked,
      Bridge.SendDone, Bridge.TimerFired, Bridge.MessageHandled, Bridge.Answered, Bridge.FeedbackOf, CallsOk, Numbered,
      NetExplained, RecordsBacked;
    TraceOnlyGrows(s, a);
    TraceGrows(s.trace, Next(s, a).trace);
    BridgeStepsStayBacked(s.bridge, s.trace);
    match a
    case Ask(mod, target, action, asker) =>
      AskStaysBacked(s.bridge, s.trace, asker, Order(s.bridge.counter, mod, target, action));
    case AskInfo(mod, client) =>
      InfoStaysBacked(s.bridge, s.trace, client, Order(s.bridge.counter, mod, "D0", "STATUS"));
    case _ =>
  }

  lemma AskStaysBacked(b: Bridge.BridgeState, trace: seq<Obs>, asker: Option<Bridge.Client>, o: Order)
    requires ClientsBacked(b, trace) && o.id == b.counter
    ensures ClientsBacked(Bridge.Issued(b, asker), trace + [Issued(ByBridge(asker), o)])
  {
    var trace' := trace + [Issued(ByBridge(asker), o)];
    TraceGrows(trace, trace');
    assert asker.Some? ==> AskedFor(trace', o.id, asker.value) by { assert Issued(ByBridge(asker), o) in trace'; }
    hide AskedFor;
  }

  lemma InfoStaysBacked(b: Bridge.BridgeState, trace: seq<Obs>, client: Bridge.Client, o: Order)
    requires ClientsBacked(b, trace) && o.id == b.counter
    ensures ClientsBacked(Bridge.InfoAsked(b, client), trace + [Issued(ByBridge(Some(client)), o)])
  {
    var trace' := trace + [Issued(ByBridge(Some(client)), o)];
    TraceGrows(trace, trace');
    assert AskedFor(trace', o.id, client) by { assert Issued(ByBridge(Some(client)), o) in trace'; }
    hide AskedFor;
  }

  lemma BridgeStepsStayBacked(b: Bridge.BridgeState, trace: seq<Obs>)
    requires ClientsBacked(b, trace)
    ensures forall id, failed :: ClientsBacked(Bridge.SendDone(b, id, failed), trace)
    ensures forall timer :: ClientsBacked(Bridge.TimerFired(b, timer), trace)
    ensures forall msg :: ClientsBacked(Bridge.MessageHandled(b, msg), trace)
  {
    hide AskedFor, Bridge.Answered;
  }

  lemma CallsStayOk(s: Sys, a: Act)
    requires HubOk(s.hub) && Inv(s)
    ensures CallsOk(Next(s, a))
  {
    TraceOnlyGrows(s, a);
    hide Sendable, ReadCommand, FindDoor, Acknowledges, HandleLine, TraceJustified, Explained, RecordBacked, Stray,
      Bridge.Answered, Bridge.FeedbackOf, AskedFor, Tried, Woken, Called, HubRuns.Step, Next;
    match a
    case HubHears(p, t, issued) => HubStepStaysOk(s, a, HubRuns.Arrive(Received(p.payload), p.src, t, issued));
    case HubChecks(now) => HubStepStaysOk(s, a, HubRuns.Check(now));
    case CallStarts(mod, target, action) => CalledStaysOk(s, Order(s.nextId, mod, target, action));
    case CallSends(id, failed) => TriedStaysOk(s, id, failed);
    case CallWakes(id, timedOut) => WokenStaysOk(s, id, timedOut);
    case _ => CallsFrame(s, a);
  }

  lemma CallsFrame(s: Sys, a: Act)
    requires HubOk(s.hub) && CallsOk(s) && s.trace <= Next(s, a).trace
    requires !a.HubHears? && !a.HubChecks? && !a.CallStarts? && !a.CallSends? && !a.CallWakes?
    ensures CallsOk(Next(s, a))
  {
    hide Sendable, ReadCommand, Stray, Bridge.Answered, Bridge.FeedbackOf;
  }

  lemma HubStepStaysOk(s: Sys, a: Act, e: HubRuns.Ev)
    requires HubOk(s.hub) && CallsOk(s)
    requires (a.HubChecks? && e == HubRuns.Check(a.now))
          || (a.HubHears? && e == HubRuns.Arrive(Received(a.p.payload), a.p.src, a.t, a.issued))
    ensures CallsOk(Next(s, a))
  {
    SlotsStayOwned(s, e);
    hide Sendable, HubRuns.Step;
  }

  lemma CalledStaysOk(s: Sys, o: Order)
    requires CallsOk(s) && o.id == s.nextId
    ensures CallsOk(Called(s, o))
  {
    hide Sendable, FindDoor;
  }

  lemma TriedStaysOk(s: Sys, id: int, failed: bool)
    requires CallsOk(s)
    ensures CallsOk(Tried(s, id, failed))
  {
    hide Sendable;
  }

  lemma WokenStaysOk(s: Sys, id: int, timedOut: bool)
    requires CallsOk(s)
    ensures CallsOk(Woken(s, id, timedOut))
  {
    hide Sendable;
  }

  lemma SlotsStayOwned(s: Sys, e: HubRuns.Ev)
    requires HubOk(s.hub)
    ensures forall i, mod | 0 <= i < |s.hub.doors| && Owns(s.hub.doors[i], mod) :: Owns(HubRuns.Step(s.hub, e).0.doors[i], mod)
  {
    hide HubRuns.Step;
    forall i, mod | 0 <= i < |s.hub.doors| && Owns(s.hub.doors[i], mod)
      ensures Owns(HubRuns.Step(s.hub, e).0.doors[i], mod)
    {
      HubRuns.StepKeepsOwner(s.hub, e, i);
    }
  }

  lemma StaysNumbered(s: Sys, a: Act)
    requires HubOk(s.hub) && Inv(s)
    ensures Numbered(Next(s, a).trace, Next(s, a).nextId, Next(s, a).bridge.counter)
  {
    hide Sendable, ReadCommand, FindDoor, Acknowledges, HubRuns.Step, Stray, Bridge.Answered, Bridge.FeedbackOf,
      RecordsBacked, NetExplained, ClientsBacked, TraceJustified, CallsOk, Numbered;
    match a
    case Ask(mod, target, action, asker) =>
      IssueStaysNumbered(s, ByBridge(asker), Order(s.bridge.counter, mod, target, action));
    case AskInfo(mod, client) =>
      IssueStaysNumbered(s, ByBridge(Some(client)), Order(s.bridge.counter, mod, "D0", "STATUS"));
    case CallStarts(mod, target, action) => IssueStaysNumbered(s, ByHub, Order(s.nextId, mod, target, action));
    case BridgeHears(p) => OtherStaysNumbered(s, Next(s, a).trace);
    case DoorHears(_, _, _) => OtherStaysNumbered(s, Next(s, a).trace);
    case CallWakes(_, _) => OtherStaysNumbered(s, Next(s, a).trace);
    case _ =>
  }

  lemma IssueStaysNumbered(s: Sys, issuer: Issuer, o: Order)
    requires Numbered(s.trace, s.nextId, s.bridge.counter)
    requires o.id == if issuer.ByHub? then s.nextId else s.bridge.counter
    ensures Numbered(s.trace + [Issued(issuer, o)], if issuer.ByHub? then s.nextId + 1 else s.nextId,
                     if issuer.ByHub? then s.bridge.counter else s.bridge.counter + 1)
  {
  }

  lemma OtherStaysNumbered(s: Sys, trace': seq<Obs>)
    requires Numbered(s.trace, s.nextId, s.bridge.counter)
    requires s.trace <= trace' && |trace'| <= |s.trace| + 1
    requires |trace'| > |s.trace| ==> !trace'[|s.trace|].Issued?
    ensures Numbered(trace', s.nextId, s.bridge.counter)
  {
  }

  lemma NextKeepsInv(s: Sys, a: Act)
    requires HubOk(s.hub) && Inv(s)
    ensures Inv(Next(s, a))
  {
    NetStaysExplained(s, a);
    TraceStaysJustified(s, a);
    RecordsStayBacked(s, a);
    ClientsStayBacked(s, a);
    CallsStayOk(s, a);
    StaysNumbered(s, a);
    hide Next, NetExplained, TraceJustified, RecordsBacked, ClientsBacked, CallsOk, Numbered;
  }

  /** The invariant holds in every reachable state. */
  lemma {:induction false} InvAlways(site: Site, acts: seq<Act>)
    ensures Inv(RunAll(site, acts))
  {
    hide Next, Inv;
    if acts == [] {
      InvAtStart(site);
    } else {
      InvAlways(site, acts[..|acts| - 1]);
      NextKeepsInv(RunAll(site, acts[..|acts| - 1]), acts[|acts| - 1]);
    }
  }

  lemma InvAtStart(site: Site)
    ensures Inv(Start(site))
  {
  }
}
