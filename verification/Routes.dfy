/** The hub's pending table also keeps answers apart by module: what reaches the bridge was asked for by it. */
module Routes {
  import opened Prelude
  import opened Wire
  import opened HubModel
  import opened Orders
  import opened HubSend
  import opened System
  import opened Provenance
  import HubRuns
  import Bridge
  import DoorModule

  /** The bridge issued a command with this id to this module, in which a module sees something. */
  ghost predicate Asked(trace: seq<Obs>, id: int, mod: string) {
    exists asker, o :: Issued(ByBridge(asker), o) in trace && o.id == id && o.mod == mod && Seen(o).Some?
  }

  lemma AskedStays(trace: seq<Obs>, more: seq<Obs>)
    requires trace <= more
    ensures forall id, mod | Asked(trace, id, mod) :: Asked(more, id, mod)
  {
    assert forall x | x in trace :: x in more;
  }

  /** The text, if it is of this kind, names an id and a module for which the bridge issued a command. */
  ghost predicate Wanted(text: string, kind: Kind, trace: seq<Obs>) {
    var toks := Tokens(Received(text), C_BLANKS);
    Complete(toks, kind) ==> Asked(trace, Atoi(toks[2]), toks[0])
  }

  ghost predicate PacketRight(site: Site, p: Packet, trace: seq<Obs>) {
    (p.src == site.bridge ==> Wanted(p.payload, Command, trace)) && (p.dst == site.bridge ==> Wanted(p.payload, Feedback, trace))
  }

  ghost predicate PendingRight(site: Site, ps: seq<Pending>, trace: seq<Obs>) {
    forall i | 0 <= i < |ps| && ps[i].client == site.bridge && ps[i].id != 0 :: Asked(trace, ps[i].id, ps[i].mod)
  }

  /** An answer names the module its id was issued for. */
  ghost predicate AnswersRight(trace: seq<Obs>) {
    forall k | 0 <= k < |trace| && trace[k].Answered? :: Asked(trace[..k], trace[k].order.id, trace[k].order.mod)
  }

  ghost predicate Routed(s: Sys) {
    && (forall p | p in s.net :: PacketRight(s.site, p, s.trace))
    && PendingRight(s.site, s.hub.pending, s.trace) && AnswersRight(s.trace)
  }

  /** Texts that are of another kind, or that the bridge itself wrote. */
  lemma CommandWanted(o: Order, text: string, trace: seq<Obs>)
    requires Sendable(o) && Received(text) == Received(CommandText(o))
    ensures Wanted(text, Feedback, trace)
    ensures (Seen(o).Some? ==> Asked(trace, o.id, o.mod)) ==> Wanted(text, Command, trace)
  {
    CommandRead(o, text);
    Keywords();
    NumberRoundTrip(o.id);
    hide KindOf, Tokens, Received, Atoi, PrintInt, CommandText, Asked, PlainBlanks;
  }

  lemma FeedbackWanted(h: Order, reply: string, trace: seq<Obs>)
    requires WellFormed(h) && IsReply(h.action, reply)
    ensures Wanted(FeedbackWire(h, reply), Command, trace)
    ensures Shown(h, reply).Some? ==> (Wanted(FeedbackWire(h, reply), Feedback, trace) <==> Asked(trace, h.id, h.mod))
    ensures Shown(h, reply) == None ==> Wanted(FeedbackWire(h, reply), Feedback, trace)
  {
    FeedbackRead(h, reply);
    Keywords();
    NumberRoundTrip(h.id);
    hide KindOf, Tokens, Received, Atoi, PrintInt, FeedbackWire, Asked, WellFormed, IsReply;
  }

  lemma StrayWanted(text: string, trace: seq<Obs>)
    requires Stray(text)
    ensures Wanted(text, Command, trace) && Wanted(text, Feedback, trace)
  {
    hide Tokens, Received, KindOf;
  }

  // ---------- Each step ----------

  /** Old packets stay right, so only new ones matter. */
  lemma NewPackets(s: Sys, s': Sys)
    requires s'.site == s.site && s.trace <= s'.trace
    requires forall p | p in s.net :: PacketRight(s.site, p, s.trace)
    requires forall p | p in s'.net && p !in s.net :: PacketRight(s.site, p, s'.trace)
    ensures forall p | p in s'.net :: PacketRight(s'.site, p, s'.trace)
  {
    AskedStays(s.trace, s'.trace);
    hide Asked, Complete, Tokens, Received, Atoi;
    forall p | p in s'.net
      ensures PacketRight(s'.site, p, s'.trace)
    {
      if p in s.net {
        assert PacketRight(s.site, p, s.trace);
      }
    }
  }

  lemma AnswersStay(trace: seq<Obs>, x: Obs)
    requires AnswersRight(trace) && (x.Answered? ==> Asked(trace, x.order.id, x.order.mod))
    ensures AnswersRight(trace + [x])
  {
    hide Asked;
    forall k | 0 <= k < |trace| + 1 && (trace + [x])[k].Answered?
      ensures Asked((trace + [x])[..k], (trace + [x])[k].order.id, (trace + [x])[k].order.mod)
    {
      assert (trace + [x])[..k] == trace[..k];
      if k == |trace| {
        assert trace[..k] == trace;
      }
    }
  }

  lemma BridgedStaysRouted(s: Sys, o: Order, asker: Option<Bridge.Client>, b: Bridge.BridgeState)
    requires Routed(s) && s.site.hub != s.site.bridge
    ensures Routed(Bridged(s, o, asker, b))
  {
    hide Wanted, CommandText, Seen, Asked, Sendable;
    var s' := Bridged(s, o, asker, b);
    if Sendable(o) {
      var x := Issued(ByBridge(asker), o);
      JustAsked(s.trace, asker, o);
      CommandWanted(o, CommandText(o), s'.trace);
      NewPackets(s, s');
      AskedStays(s.trace, s'.trace);
      AnswersStay(s.trace, x);
    }
  }

  lemma JustAsked(trace: seq<Obs>, asker: Option<Bridge.Client>, o: Order)
    ensures Seen(o).Some? ==> Asked(trace + [Issued(ByBridge(asker), o)], o.id, o.mod)
  {
    hide Seen;
    assert Issued(ByBridge(asker), o) in trace + [Issued(ByBridge(asker), o)];
  }

  lemma RepliedStaysRouted(s: Sys, mod: string, p: Packet, state: DoorModule.DoorState)
    requires Routed(s) && Inv(s) && p in s.net && s.site.hub != s.site.bridge
    ensures Routed(Replied(s, mod, p, state))
  {
    hide Asked, Wanted, FeedbackWire, ReadCommand, DoorModule.Reply, Inv;
    var s' := Replied(s, mod, p, state);
    if ReadCommand(mod, p.payload).Some? {
      var h := ReadCommand(mod, p.payload).value;
      var reply := DoorModule.Reply(h.action, state);
      ReplyWanted(s, mod, p, state, s'.trace);
      NewPackets(s, s');
      AskedStays(s.trace, s'.trace);
      AnswersStay(s.trace, Handled(h, reply));
    }
  }

  /** A module's FEEDBACK is no COMMAND. */
  lemma ReplyWanted(s: Sys, mod: string, p: Packet, state: DoorModule.DoorState, trace: seq<Obs>)
    requires Inv(s) && p in s.net && ReadCommand(mod, p.payload).Some?
    ensures var h := ReadCommand(mod, p.payload).value;
      Wanted(FeedbackWire(h, DoorModule.Reply(h.action, state)), Command, trace)
  {
    hide Wanted, FeedbackWire, ReadCommand, DoorModule.Reply, Numbered, CallsOk, ClientsBacked, RecordsBacked, NetExplained,
      TraceJustified, Explained, Seen;
    var h := ReadCommand(mod, p.payload).value;
    NetTexts(s, p);
    var issuer, o := DoorReadsCommand(mod, p.payload, s.trace);
    hide WellFormed;
    assert IsReply(h.action, DoorModule.Reply(h.action, state));
    FeedbackWanted(h, DoorModule.Reply(h.action, state), trace);
  }

  lemma TriedStaysRouted(s: Sys, id: int, failed: bool)
    requires Routed(s) && Inv(s) && s.site.hub != s.site.bridge
    ensures Routed(Tried(s, id, failed))
  {
    hide Wanted, Asked, CommandText, NetExplained, TraceJustified, RecordsBacked, ClientsBacked, Numbered, Received;
    if id in s.calls {
      var text := CommandText(s.calls[id].order);
      ReceivedTwice(text);
      CommandWanted(s.calls[id].order, Clip(text, 255), s.trace) by { assert CallOk(s, id, s.calls[id]); }
      hide Sendable;
      NewPackets(s, Tried(s, id, failed));
    }
  }

  lemma DeliveredStaysRouted(s: Sys, p: Packet)
    requires Routed(s) && Inv(s) && p in s.net && p.dst == s.site.bridge
    ensures Routed(Delivered(s, p.payload))
  {
    hide Asked, FeedbackWire, Numbered, CallsOk, ClientsBacked, RecordsBacked, Wanted, Bridge.FeedbackOf, TraceJustified, Shown;
    if Bridge.Answered(s.bridge, p.payload).Some? {
      NetTexts(s, p);
      hide NetExplained, Explained, WellFormed, IsReply;
      assert PacketRight(s.site, p, s.trace);
      var h, reply := BridgeReadsFeedback(p.payload, s.trace);
      FeedbackWanted(h, reply, s.trace);
      hide Bridge.FeedbackId;
      var x := Answered(s.bridge.pending[h.id].client, Order(h.id, h.mod, h.target, Shown(h, reply).value));
      AskedStays(s.trace, s.trace + [x]);
      AnswersStay(s.trace, x);
      NewPackets(s, Delivered(s, p.payload));
    }
  }

  /** Ids in use are positive, so they are never mistaken for the free mark. */
  lemma HandledIdIsPositive(s: Sys, h: Order, reply: string)
    requires TraceJustified(s.trace) && Numbered(s.trace, s.nextId, s.bridge.counter) && Handled(h, reply) in s.trace
    ensures h.id >= 1
  {
    hide WellFormed, IsReply, Seen;
    assert s.trace[..|s.trace|] == s.trace;
    HandledWasIssued(s.trace, |s.trace|, h, reply);
    var issuer, o, i: nat, j: nat :| IssuedThenHandled(s.trace, i, j, |s.trace|, issuer, o, h, reply);
    SeenKeepsId(s.trace, issuer, o, h);
    assert s.trace[i].Issued?;
  }

  /** Registering and clearing keep the pending table right. */
  lemma PendingStaysRight(s: Sys, p: Packet, issued: int)
    requires Routed(s) && Explained(p.payload, s.trace) && TraceJustified(s.trace) && PacketRight(s.site, p, s.trace)
    requires HubOk(s.hub)
    ensures PendingRight(s.site, PendingAfter(s.hub.pending, Tokens(Received(p.payload), C_BLANKS), p.src, issued), s.trace)
  {
    hide Asked, TraceJustified, Explained, Tokens, Received, RegisterSlot, Seen;
    var toks := Tokens(Received(p.payload), C_BLANKS);
    if Complete(toks, Command) {
      var issuer, o := HubReadsCommand(p.payload, s.trace);
      assert |toks[0]| <= ID_CHARS by { SendableId(o); }
      assert p.src == s.site.bridge ==> Asked(s.trace, Atoi(toks[2]), toks[0]);
    }
    hide KindOf, Atoi, CommandText, Sendable;
  }

  lemma SendableId(o: Order)
    requires Sendable(o)
    ensures |o.mod| <= ID_CHARS
  {
  }

  /** What the hub sends out goes to the bridge only if the bridge asked. */
  lemma OutIsRight(s: Sys, p: Packet, t: int, issued: int, out: Out)
    requires Routed(s) && Inv(s) && HubOk(s.hub) && p in s.net && s.site.hub != s.site.bridge
    requires out in HandleLine(s.hub, Received(p.payload), p.src, t, issued).1
    ensures PacketRight(s.site, Packet(s.site.hub, out.dst, out.payload), s.trace)
  {
    hide Asked, Tokens, Received, TraceJustified, NetExplained, Numbered, Explained, CallsOk, ClientsBacked, RecordsBacked,
      FindDoor, FreeDoor, DoorAfter, PendingAfter, LogAfter, Sendable, WellFormed, IsReply, Wanted, CommandText, FeedbackWire, Seen;
    assert Explained(p.payload, s.trace) by { NetTexts(s, p); }
    HubPassesTextsOn(s, p, t, issued, out);
    var toks := Tokens(Received(p.payload), C_BLANKS);
    if Complete(toks, Feedback) {
      var h, reply := HubReadsFeedback(p.payload, s.trace);
      HandledIdIsPositive(s, h, reply);
      NumberRoundTrip(h.id);
      FeedbackWanted(h, reply, s.trace);
      hide Atoi, PrintInt;
      var i := FindPending(s.hub.pending, h.mod, h.id);
      assert s.hub.pending[i].client == out.dst;
    } else if Complete(toks, Command) {
      var issuer, o := HubReadsCommand(p.payload, s.trace);
      ReceivedTwice(p.payload);
      CommandWanted(o, out.payload, s.trace);
    }
  }

  lemma NetTexts(s: Sys, p: Packet)
    requires NetExplained(s) && p in s.net
    ensures Explained(p.payload, s.trace)
  {
  }

  lemma HeardStaysRouted(s: Sys, p: Packet, t: int, issued: int)
    requires Routed(s) && Inv(s) && HubOk(s.hub) && p in s.net && s.site.hub != s.site.bridge
    ensures Routed(HubHandled(s, p, t, issued))
  {
    hide Asked, Wanted, TraceJustified, Numbered, Explained, CallsOk, ClientsBacked, RecordsBacked, PacketRight,
      PendingRight, AnswersRight, PendingAfter;
    var s' := HubHandled(s, p, t, issued);
    NetTexts(s, p);
    PendingStaysRight(s, p, issued);
    HeardPending(s, p, t, issued);
    forall q | q in s'.net && q !in s.net
      ensures PacketRight(s.site, q, s'.trace)
    {
      var out := HandleLine(s.hub, Received(p.payload), p.src, t, issued).1;
      var o :| o in out && q == Packet(s.site.hub, o.dst, o.payload);
      OutIsRight(s, p, t, issued, o);
    }
    hide HubRuns.Step, NetExplained, HandleLine;
    NewPackets(s, s');
  }

  lemma HeardPending(s: Sys, p: Packet, t: int, issued: int)
    requires HubOk(s.hub)
    ensures var ps := HubHandled(s, p, t, issued).hub.pending;
      ps == s.hub.pending || ps == PendingAfter(s.hub.pending, Tokens(Received(p.payload), C_BLANKS), p.src, issued)
  {
    hide Tokens, Received, DoorAfter, PendingAfter, LogAfter;
  }

  lemma NextStaysRouted(s: Sys, a: Act)
    requires HubOk(s.hub) && Inv(s) && Routed(s) && s.site.hub != s.site.bridge
    ensures Routed(Next(s, a))
  {
    hide Asked, Inv, HubHandled, Replied, Delivered, Bridged, Tried, Called, Woken, Stray, PacketRight, Sendable, Bridge.SendDone, Bridge.TimerFired,
      FindDoor, Acknowledges, PendingRight;
    match a
    case Ask(mod, target, action, asker) =>
      BridgedStaysRouted(s, Order(s.bridge.counter, mod, target, action), asker, Bridge.Issued(s.bridge, asker));
    case AskInfo(mod, client) =>
      BridgedStaysRouted(s, Order(s.bridge.counter, mod, "D0", "STATUS"), Some(client), Bridge.InfoAsked(s.bridge, client));
    case HubHears(p, t, issued) => if p in s.net && p.dst == s.site.hub { HeardStaysRouted(s, p, t, issued); }
    case BridgeHears(p) => if p in s.net && p.dst == s.site.bridge { DeliveredStaysRouted(s, p); }
    case DoorHears(mod, p, state) => if p in s.net && p.dst != s.site.hub { RepliedStaysRouted(s, mod, p, state); }
    case CallSends(id, failed) => TriedStaysRouted(s, id, failed);
    case CallStarts(mod, target, action) => CalledStaysRouted(s, Order(s.nextId, mod, target, action));
    case CallWakes(id, timedOut) => WokenStaysRouted(s, id, timedOut);
    case Noise(p) => if Stray(p.payload) { NoiseStaysRouted(s, p); }
    case BridgeSent(_, _) =>
    case BridgeTimer(_) =>
    case HubChecks(_) =>
  }

  /** A step of a call that is neither an answer nor a datagram. */
  lemma SeenStaysRouted(s: Sys, s': Sys, x: Obs)
    requires Routed(s) && s'.site == s.site && s'.net == s.net && s'.hub == s.hub && !x.Answered?
    requires s'.trace == s.trace || s'.trace == s.trace + [x]
    ensures Routed(s')
  {
    hide Asked, Wanted;
    NewPackets(s, s');
    AskedStays(s.trace, s'.trace);
    AnswersStay(s.trace, x);
  }

  lemma CalledStaysRouted(s: Sys, o: Order)
    requires Routed(s)
    ensures Routed(Called(s, o))
  {
    hide Sendable, FindDoor, Routed;
    SeenStaysRouted(s, Called(s, o), Issued(ByHub, o));
  }

  lemma WokenStaysRouted(s: Sys, id: int, timedOut: bool)
    requires Routed(s)
    ensures Routed(Woken(s, id, timedOut))
  {
    hide Acknowledges, Routed;
    SeenStaysRouted(s, Woken(s, id, timedOut), Acked(if id in s.calls then s.calls[id].order else Order(0, "", "", "")));
  }

  lemma NoiseStaysRouted(s: Sys, p: Packet)
    requires Routed(s) && Stray(p.payload)
    ensures Routed(s.(net := s.net + {p}))
  {
    StrayWanted(p.payload, s.trace);
    hide Asked, Wanted, Stray;
    NewPackets(s, s.(net := s.net + {p}));
  }

  lemma {:induction false} AlwaysRouted(site: Site, acts: seq<Act>)
    requires site.hub != site.bridge
    ensures Routed(RunAll(site, acts)) && RunAll(site, acts).site == site
  {
    hide Next, Routed;
    if acts == [] {
      RoutedAtStart(site);
    } else {
      var past, a := acts[..|acts| - 1], acts[|acts| - 1];
      AlwaysRouted(site, past);
      InvAlways(site, past);
      hide Inv;
      TraceOnlyGrows(RunAll(site, past), a);
      NextStaysRouted(RunAll(site, past), a);
    }
  }

  lemma RoutedAtStart(site: Site)
    ensures Routed(Start(site))
  {
  }

  /**
   An answer always comes from the module its client addressed: the hub keeps the bridge's commands
   apart by module and id, although the bridge looks at the id alone.
   */
  lemma {:induction false} AnswersNameTheAddressedModule(site: Site, acts: seq<Act>, k: nat)
    requires site.hub != site.bridge
    ensures var trace := RunAll(site, acts).trace;
      k < |trace| && trace[k].Answered? ==>
        exists o :: Issued(ByBridge(Some(trace[k].client)), o) in trace[..k]
                    && o.id == trace[k].order.id && o.mod == trace[k].order.mod && Seen(o).Some?
  {
    hide RunAll, Numbered, Seen, TraceJustified;
    AlwaysRouted(site, acts);
    TraceOfRun(site, acts);
    var s := RunAll(site, acts);
    var trace := s.trace;
    if k < |trace| && trace[k].Answered? {
      assert Asked(trace[..k], trace[k].order.id, trace[k].order.mod);
      var asker, o :| Issued(ByBridge(asker), o) in trace[..k]
                      && o.id == trace[k].order.id && o.mod == trace[k].order.mod && Seen(o).Some?;
      var i :| 0 <= i < k && trace[..k][i] == Issued(ByBridge(asker), o);
      AskerIsTheIssuer(trace, s.nextId, s.bridge.counter, k, i);
    }
  }
}
