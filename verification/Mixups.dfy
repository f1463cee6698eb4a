/**
 The bridge and the hub both number their commands from 1, and the hub accepts later ids than a call's
 own. Exactly which commands can be mixed up: `AnswerProvenance` and `AckIsSound` need their
 conditions, and need no more.
 */
module Mixups {
  import opened Prelude
  import opened Wire
  import opened HubModel
  import opened Orders
  import opened HubSend
  import opened System
  import opened Provenance
  import opened Routes
  import opened Staging
  import HubRuns
  import Bridge
  import DoorModule

  // ---------- Which answers can mislead ----------

  /**
   A client that asked for `o` is answered at `k`, but not about its own command, and of the hub's
   commands only `x` could have been meant.
   */
  ghost predicate Misled(trace: seq<Obs>, k: nat, o: Order, x: Order) {
    && k < |trace| && trace[k].Answered? && trace[k].order.id == o.id
    && Issued(ByBridge(Some(trace[k].client)), o) in trace[..k]
    && (forall o', h, reply :: !OwnAnswer(trace, k, o', h, reply))
    && forall i | 0 <= i < k && trace[i].Issued? && trace[i].issuer.ByHub? && About(trace[i].order, trace[k].order) ::
         trace[i].order == x
  }

  /** Same id, same module, both commands are read as something, and the FEEDBACK for `x` has room for a reply. */
  predicate Confusable(o: Order, x: Order) {
    o.id == x.id && o.mod == x.mod && Seen(o).Some? && Seen(x).Some? && Room(Seen(x).value) > 0
  }

  lemma MisledRun(site: Site, o: Order, x: Order)
    requires Sendable(o) && Sendable(x) && o.id >= 1 && Confusable(o, x)
    ensures exists acts, k :: Misled(RunAll(site, acts).trace, k, o, x)
  {
    hide RunAll, Next, Sendable, CommandText, FeedbackWire, Knows, Seen, DoorModule.Reply, IsReply, Shown, WellFormed, Received,
      InitialHub, Room, Holds;
    var at, client, h := ModuleAddress(site), 0, Seen(x).value;
    var reply := DoorModule.Reply(h.action, DoorModule.UNKNOWN);
    SendableName(o);
    SendableDigits(o);
    var acts := GreetedRun(site, o.mod, at);
    var start := RunAll(site, acts);
    acts := AskedUpTo(site, acts, o.mod, o.id);
    var s1 := RunAll(site, acts);
    acts := CalledUpTo(site, acts, o.mod, at, x.id);
    IdledOn(start, s1, RunAll(site, acts));
    QuietFromStart(start, RunAll(site, acts));
    var past := RunAll(site, acts).trace;
    acts := CalledRun(site, acts, x, at);
    var text := Clip(CommandText(x), 255);
    ReceivedTwice(CommandText(x));
    SiteStays(site, acts);
    KnownOk(RunAll(site, acts).hub, x.mod, at);
    HandleOne(RunAll(site, acts), x, text, at, DoorModule.UNKNOWN);
    acts := Extend(site, acts, DoorHears(x.mod, Packet(site.hub, at, text), DoorModule.UNKNOWN));
    acts := ForwardedRun(site, acts, o, at, client);
    SiteStays(site, acts);
    RelayOne(RunAll(site, acts), h, reply, at);
    acts := Extend(site, acts, HubHears(Packet(at, site.hub, FeedbackWire(h, reply)), 0, 0));
    KnownOk(RunAll(site, acts).hub, x.mod, at);
    AnswerOne(RunAll(site, acts), h, reply, client);
    acts := Extend(site, acts, BridgeHears(Packet(site.hub, site.bridge, FeedbackWire(h, reply))));
    MisledTrace(past, o, x, h, reply, client);
    assert Misled(RunAll(site, acts).trace, |past| + 3, o, x);
  }

  lemma SendableDigits(o: Order)
    requires Sendable(o)
    ensures |PrintInt(o.id)| <= ID_DIGITS
  {
  }

  lemma QuietFromStart(s: Sys, s': Sys)
    requires s.trace == [] && Idled(s, s')
    ensures Quiet(s'.trace)
  {
    hide Seen;
    assert s'.trace[0..] == s'.trace;
  }

  lemma MisledTrace(past: seq<Obs>, o: Order, x: Order, h: Order, reply: string, client: Bridge.Client)
    requires Quiet(past) && Shown(h, reply).Some? && Seen(x) == Some(h) && h.id == x.id == o.id
    ensures var said := h.(action := Shown(h, reply).value);
      Misled(past + [Issued(ByHub, x)] + [Handled(h, reply)] + [Issued(ByBridge(Some(client)), o)] + [Answered(client, said)],
             |past| + 3, o, x)
  {
    hide Seen, Shown;
    var said, k := h.(action := Shown(h, reply).value), |past| + 3;
    var trace := past + [Issued(ByHub, x)] + [Handled(h, reply)] + [Issued(ByBridge(Some(client)), o)] + [Answered(client, said)];
    assert forall i | 0 <= i < |past| :: trace[i] == past[i];
    assert trace[..k] == past + [Issued(ByHub, x)] + [Handled(h, reply)] + [Issued(ByBridge(Some(client)), o)];
    forall o', h', r
      ensures !OwnAnswer(trace, k, o', h', r)
    {
      assert forall i: nat, j: nat :: !IssuedThenHandled(trace, i, j, k, ByBridge(Some(client)), o', h', r);
    }
  }

  /**
   A client's command `o` and a command `x` of the hub can be mixed up in an answer exactly when they
   are confusable.
   */
  lemma {:induction false} MisledIff(site: Site, o: Order, x: Order)
    requires Sendable(o) && Sendable(x) && o.id >= 1 && x.id >= 1 && site.hub != site.bridge
    ensures (exists acts, k :: Misled(RunAll(site, acts).trace, k, o, x)) <==> Confusable(o, x)
  {
    hide RunAll, Sendable, Seen, OwnAnswer;
    if Confusable(o, x) {
      MisledRun(site, o, x);
    }
    if acts: seq<Act>, k: nat :| Misled(RunAll(site, acts).trace, k, o, x) {
      MisledMeans(site, acts, k, o, x);
    }
  }

  lemma MisledMeans(site: Site, acts: seq<Act>, k: nat, o: Order, x: Order)
    requires Misled(RunAll(site, acts).trace, k, o, x) && site.hub != site.bridge
    ensures Confusable(o, x)
  {
    hide RunAll, Seen, OwnAnswer, Numbered, TraceJustified, IsReply, Shown, Room;
    var s := RunAll(site, acts);
    var trace, said := s.trace, s.trace[k].order;
    TraceOfRun(site, acts);
    if NotTheHubs(trace, k, said) {
      AnswerProvenance(site, acts, k);
    }
    var i :| 0 <= i < k && trace[i].Issued? && trace[i].issuer.ByHub? && About(trace[i].order, said);
    assert trace[i].order == x;
    SeenKeepsId(trace, ByHub, x, Seen(x).value);
    AnswersNameTheAddressedModule(site, acts, k);
    var asker := ByBridge(Some(trace[k].client));
    var o' :| Issued(asker, o') in trace[..k] && o'.id == said.id && o'.mod == said.mod && Seen(o').Some?;
    SameOrder(s, k, asker, o, o');
    AnswersComeFromHandlers(site, acts, k);
    AboutHasRoom(trace, k, x, said);
  }

  lemma SameOrder(s: Sys, k: nat, issuer: Issuer, o: Order, o': Order)
    requires Numbered(s.trace, s.nextId, s.bridge.counter) && k <= |s.trace| && o.id == o'.id
    requires Issued(issuer, o) in s.trace[..k] && Issued(issuer, o') in s.trace[..k]
    ensures o == o'
  {
    hide Numbered;
    var i :| 0 <= i < k && s.trace[..k][i] == Issued(issuer, o);
    var j :| 0 <= j < k && s.trace[..k][j] == Issued(issuer, o');
    SameIdSameIssue(s.trace, s.nextId, s.bridge.counter, i, j);
  }

  /** An answer's FEEDBACK had room, and room depends on id, module and target alone. */
  lemma AboutHasRoom(trace: seq<Obs>, k: nat, x: Order, said: Order)
    requires FromAHandler(trace, k, said) && About(x, said)
    ensures Room(Seen(x).value) > 0
  {
    hide Seen, IsReply;
    var issuer, o, h, reply, i: nat, j: nat :|
      IssuedThenHandled(trace, i, j, k, issuer, o, h, reply) && Reports(h, reply) == Some(said) && IsReply(h.action, reply);
  }

  // ---------- Which acknowledgements can be stale ----------

  /**
   The hub's call for `x` is acknowledged at `k` without having been handled, and the only command that
   can be to blame is `o`, issued by the hub itself or by the bridge.
   */
  ghost predicate StaleAck(trace: seq<Obs>, k: nat, byHub: bool, o: Order, x: Order) {
    && k < |trace| && trace[k] == Acked(x) && !HandledDuringCall(trace, k, x)
    && forall i | 0 <= i < k && trace[i].Issued? && CouldEcho(x, trace[i].order) ::
         trace[i] == Issued(ByHub, x) || (trace[i].order == o && trace[i].issuer.ByHub? == byHub)
  }

  /** By a command of the bridge, handled before the call began. */
  lemma StaleRunOfBridge(site: Site, o: Order, x: Order, state: DoorModule.DoorState)
    requires Sendable(o) && Sendable(x) && o.id >= 1 && x.id >= 1 && Seen(o).Some? && o.mod == x.mod
    requires EchoOf(x, Seen(o).value, DoorModule.Reply(Seen(o).value.action, state))
    ensures exists acts, k :: StaleAck(RunAll(site, acts).trace, k, false, o, x)
  {
    hide RunAll, Next, Sendable, CommandText, FeedbackWire, Knows, Seen, DoorModule.Reply, IsReply, Shown, WellFormed, Received,
      InitialHub, Holds, Acknowledges;
    var at, client, h := ModuleAddress(site), 0, Seen(o).value;
    var reply := DoorModule.Reply(h.action, state);
    SendableName(o);
    SendableDigits(o);
    SendableDigits(x);
    var acts := GreetedRun(site, o.mod, at);
    var start := RunAll(site, acts);
    acts := AskedUpTo(site, acts, o.mod, o.id);
    var s1 := RunAll(site, acts);
    acts := CalledUpTo(site, acts, o.mod, at, x.id);
    IdledOn(start, s1, RunAll(site, acts));
    QuietFromStart(start, RunAll(site, acts));
    var past := RunAll(site, acts).trace;
    acts := ForwardedRun(site, acts, o, at, client);
    ReceivedTwice(CommandText(o));
    acts := HandledRun(site, acts, o, Received(CommandText(o)), at, state);
    EchoAcknowledges(RunAll(site, acts).hub.doors[0], x, h, reply);
    acts := CalledRun(site, acts, x, at);
    WakeOne(RunAll(site, acts), x, at);
    acts := Extend(site, acts, CallWakes(x.id, false));
    StaleTraceOfBridge(past, o, x, h, reply, client);
    assert StaleAck(RunAll(site, acts).trace, |past| + 3, false, o, x);
  }

  lemma StaleTraceOfBridge(past: seq<Obs>, o: Order, x: Order, h: Order, reply: string, client: Bridge.Client)
    requires Quiet(past)
    ensures StaleAck(past + [Issued(ByBridge(Some(client)), o)] + [Handled(h, reply)] + [Issued(ByHub, x)] + [Acked(x)],
                     |past| + 3, false, o, x)
  {
    hide Seen, EchoOf;
    var trace := past + [Issued(ByBridge(Some(client)), o)] + [Handled(h, reply)] + [Issued(ByHub, x)] + [Acked(x)];
    assert forall i | 0 <= i < |past| :: trace[i] == past[i];
    assert !HandledDuringCall(trace, |past| + 3, x);
  }

  /** By a later command of the hub, whose call overlaps. */
  lemma StaleRunOfHub(site: Site, o: Order, x: Order, state: DoorModule.DoorState)
    requires Sendable(o) && Sendable(x) && o.id > x.id >= 1 && Seen(o).Some? && o.mod == x.mod
    requires EchoOf(x, Seen(o).value, DoorModule.Reply(Seen(o).value.action, state))
    ensures exists acts, k :: StaleAck(RunAll(site, acts).trace, k, true, o, x)
  {
    hide RunAll, Next, Sendable, CommandText, FeedbackWire, Knows, Seen, DoorModule.Reply, IsReply, Shown, WellFormed, Received,
      InitialHub, Holds, Acknowledges;
    var at, h := ModuleAddress(site), Seen(o).value;
    var reply := DoorModule.Reply(h.action, state);
    SendableName(o);
    SendableDigits(o);
    SendableDigits(x);
    var acts := GreetedRun(site, o.mod, at);
    var start := RunAll(site, acts);
    acts := CalledUpTo(site, acts, o.mod, at, x.id);
    QuietFromStart(start, RunAll(site, acts));
    var past := RunAll(site, acts).trace;
    acts := CalledRun(site, acts, x, at);
    var called := RunAll(site, acts);
    acts := CalledUpTo(site, acts, o.mod, at, o.id);
    var more := RunAll(site, acts).trace[|called.trace|..];
    assert RunAll(site, acts).trace == called.trace + more;
    acts := CalledRun(site, acts, o, at);
    ReceivedTwice(CommandText(o));
    acts := HandledRun(site, acts, o, Clip(CommandText(o), 255), at, state);
    EchoAcknowledges(RunAll(site, acts).hub.doors[0], x, h, reply);
    KnownOk(RunAll(site, acts).hub, o.mod, at);
    WakeOne(RunAll(site, acts), x, at);
    acts := Extend(site, acts, CallWakes(x.id, false));
    HeardId(o, x, h, reply);
    StaleTraceOfHub(past, more, o, x, h, reply);
    assert StaleAck(RunAll(site, acts).trace, |past| + |more| + 3, true, o, x);
  }

  lemma HeardId(o: Order, x: Order, h: Order, reply: string)
    requires Sendable(o) && Seen(o) == Some(h) && o.id > x.id
    ensures h != x
  {
    DoorReads(o, CommandText(o), o.mod);
  }

  lemma StaleTraceOfHub(past: seq<Obs>, more: seq<Obs>, o: Order, x: Order, h: Order, reply: string)
    requires Quiet(past) && Quiet(more) && h != x
    ensures StaleAck(past + [Issued(ByHub, x)] + more + [Issued(ByHub, o)] + [Handled(h, reply)] + [Acked(x)],
                     |past| + |more| + 3, true, o, x)
  {
    hide Seen, EchoOf;
    var trace := past + [Issued(ByHub, x)] + more + [Issued(ByHub, o)] + [Handled(h, reply)] + [Acked(x)];
    assert forall i | 0 <= i < |past| :: trace[i] == past[i];
    assert forall i | |past| < i <= |past| + |more| :: trace[i] == more[i - |past| - 1];
    assert !HandledDuringCall(trace, |past| + |more| + 3, x);
  }

  /**
   A command `o` can acknowledge a call of the hub for `x` that nothing has handled exactly when it could
   echo it, for a command of the bridge; and exactly when it is also a later one, for a command of the
   hub itself. These are the commands that `AckIsSound` excludes, and no others.
   */
  lemma {:induction false} StaleAckIff(site: Site, o: Order, x: Order)
    requires Sendable(o) && Sendable(x) && o.id >= 1 && x.id >= 1
    ensures (exists acts, k :: StaleAck(RunAll(site, acts).trace, k, false, o, x)) <==> CouldEcho(x, o)
    ensures (exists acts, k :: StaleAck(RunAll(site, acts).trace, k, true, o, x)) <==> CouldEcho(x, o) && o.id > x.id
  {
    hide RunAll, Sendable, Seen, EchoOf;
    if CouldEcho(x, o) {
      var state: DoorModule.DoorState :| EchoOf(x, Seen(o).value, DoorModule.Reply(Seen(o).value.action, state));
      assert o.mod == x.mod by { EchoesSameModule(x, o, Seen(o).value, DoorModule.Reply(Seen(o).value.action, state)); }
      StaleRunOfBridge(site, o, x, state);
      if o.id > x.id {
        StaleRunOfHub(site, o, x, state);
      }
    }
    if acts: seq<Act>, k: nat :| StaleAck(RunAll(site, acts).trace, k, false, o, x) {
      StaleAckMeans(site, acts, k, false, o, x);
    }
    if acts: seq<Act>, k: nat :| StaleAck(RunAll(site, acts).trace, k, true, o, x) {
      StaleAckMeans(site, acts, k, true, o, x);
    }
  }

  lemma EchoesSameModule(x: Order, o: Order, h: Order, reply: string)
    requires Sendable(o) && Seen(o) == Some(h) && EchoOf(x, h, reply)
    ensures o.mod == x.mod
  {
    DoorReads(o, CommandText(o), o.mod);
  }

  lemma StaleAckMeans(site: Site, acts: seq<Act>, k: nat, byHub: bool, o: Order, x: Order)
    requires StaleAck(RunAll(site, acts).trace, k, byHub, o, x)
    ensures CouldEcho(x, o) && (byHub ==> o.id > x.id)
  {
    hide RunAll, CouldEcho, Numbered, HandledDuringCall, Ackable, TraceJustified;
    TraceOfRun(site, acts);
    var s := RunAll(site, acts);
    var trace := s.trace;
    if NothingElseEchoes(trace, k, x) {
      AckIsSound(site, acts, k);
    }
    var i :| 0 <= i < k && trace[i].Issued? && CouldEcho(x, trace[i].order) && trace[i] != Issued(ByHub, x);
    if byHub {
      EchoNeedsLaterId(trace, trace[i].issuer, o, x);
      CallWasIssued(trace, k, x);
      var j :| 0 <= j < k && trace[j] == Issued(ByHub, x);
      if o.id == x.id {
        SameIdSameIssue(trace, s.nextId, s.bridge.counter, i, j);
      }
    }
  }

  lemma CallWasIssued(trace: seq<Obs>, k: nat, x: Order)
    requires TraceJustified(trace) && k < |trace| && trace[k] == Acked(x)
    ensures exists j :: 0 <= j < k && trace[j] == Issued(ByHub, x)
  {
    hide Echoed;
    assert Justified(trace[..k], trace[k]);
    var j :| 0 <= j < k && trace[..k][j] == Issued(ByHub, x);
  }

  // ---------- Which calls can succeed at all ----------

  /** A call can be acknowledged by its own handling exactly for these targets and actions. */
  lemma AckIff(site: Site, x: Order)
    requires Sendable(x) && x.id >= 1
    ensures (exists acts, k :: OwnAck(RunAll(site, acts).trace, k, x)) <==> Ackable(x)
  {
    hide RunAll, Sendable, Ackable;
    if Ackable(x) {
      AckRun(site, x);
    }
    if acts: seq<Act>, k: nat :| OwnAck(RunAll(site, acts).trace, k, x) {
      OwnAckMeans(site, acts, k, x);
    }
  }

  /** `hub_udp_send_command` returned true for `x` at `k`, after the module had handled it during the call. */
  ghost predicate OwnAck(trace: seq<Obs>, k: nat, x: Order) {
    k < |trace| && trace[k] == Acked(x) && HandledDuringCall(trace, k, x)
  }

  lemma OwnAckMeans(site: Site, acts: seq<Act>, k: nat, x: Order)
    requires OwnAck(RunAll(site, acts).trace, k, x)
    ensures Ackable(x)
  {
    hide RunAll, Numbered, Seen, ShortWords;
    AckLimits(site, acts, k);
    TraceOfRun(site, acts);
    var trace := RunAll(site, acts).trace;
    var i: nat, j: nat :| IssuedThenHandled(trace, i, j, k, ByHub, x, x, x.action);
    HandledIsWellFormed(trace, x, x.action);
    var state: DoorModule.DoorState :| x.action == DoorModule.Reply(x.action, state);
    ReplyText(x.action, state);
  }

  lemma AckRun(site: Site, x: Order)
    requires Sendable(x) && x.id >= 1 && Ackable(x)
    ensures exists acts, k :: OwnAck(RunAll(site, acts).trace, k, x)
  {
    hide RunAll, Next, Sendable, CommandText, FeedbackWire, Knows, Seen, DoorModule.Reply, IsReply, Shown, WellFormed, Received,
      InitialHub, Holds, Acknowledges, Ackable;
    var at, state := ModuleAddress(site), DoorModule.UNKNOWN;
    AckableIsSeen(x);
    assert IsReply(x.action, DoorModule.Reply(x.action, state)) by { RepliesSomehow(x.action, state); }
    AckableReply(x, DoorModule.Reply(x.action, state));
    SendableName(x);
    SendableDigits(x);
    var acts := GreetedRun(site, x.mod, at);
    acts := CalledUpTo(site, acts, x.mod, at, x.id);
    var past := RunAll(site, acts).trace;
    acts := CalledRun(site, acts, x, at);
    ReceivedTwice(CommandText(x));
    acts := HandledRun(site, acts, x, Clip(CommandText(x), 255), at, state);
    AckableEchoes(x);
    EchoAcknowledges(RunAll(site, acts).hub.doors[0], x, x, x.action);
    KnownOk(RunAll(site, acts).hub, x.mod, at);
    WakeOne(RunAll(site, acts), x, at);
    acts := Extend(site, acts, CallWakes(x.id, false));
    OwnAckTrace(past, x);
    assert OwnAck(RunAll(site, acts).trace, |past| + 2, x);
  }

  lemma RepliesSomehow(action: string, state: DoorModule.DoorState)
    ensures IsReply(action, DoorModule.Reply(action, state))
  {
  }

  lemma AckableEchoes(x: Order)
    requires Ackable(x) && Shown(x, x.action) == Some(x.action)
    ensures EchoOf(x, x, x.action)
  {
    hide Shown;
  }

  lemma OwnAckTrace(past: seq<Obs>, x: Order)
    requires Seen(x) == Some(x)
    ensures OwnAck(past + [Issued(ByHub, x)] + [Handled(x, x.action)] + [Acked(x)], |past| + 2, x)
  {
    hide Seen;
    var trace := past + [Issued(ByHub, x)] + [Handled(x, x.action)] + [Acked(x)];
    assert IssuedThenHandled(trace, |past|, |past| + 1, |past| + 2, ByHub, x, x, x.action);
  }

  // ---------- The plain case ----------

  /** When the hub makes no calls of its own, the bridge is the only source of ids and no answer can be about the hub's. */
  lemma {:induction false} OnlyTheBridge(site: Site, acts: seq<Act>, k: nat, said: Order)
    requires forall n | 0 <= n < |acts| :: !acts[n].CallStarts?
    requires k <= |RunAll(site, acts).trace|
    ensures NotTheHubs(RunAll(site, acts).trace, k, said)
  {
    hide RunAll, About;
    NoCallsOfTheHub(site, acts);
  }

  ghost predicate BridgeOnly(trace: seq<Obs>) {
    forall i | 0 <= i < |trace| && trace[i].Issued? :: !trace[i].issuer.ByHub?
  }

  lemma {:induction false} NoCallsOfTheHub(site: Site, acts: seq<Act>)
    requires forall n | 0 <= n < |acts| :: !acts[n].CallStarts?
    ensures BridgeOnly(RunAll(site, acts).trace)
  {
    hide Next;
    if acts != [] {
      NoCallsOfTheHub(site, acts[..|acts| - 1]);
      NextStaysBridgeOnly(RunAll(site, acts[..|acts| - 1]), acts[|acts| - 1]);
    }
  }

  lemma NextStaysBridgeOnly(s: Sys, a: Act)
    requires HubOk(s.hub) && BridgeOnly(s.trace) && !a.CallStarts?
    ensures BridgeOnly(Next(s, a).trace)
  {
    hide Sendable, Stray, ReadCommand, Acknowledges, Bridge.Answered, Bridge.FeedbackOf, Called, HubRuns.Step, FeedbackWire,
      CommandText;
  }

  /** The client that asked for `o` is answered at `k`, and no command of the hub could have been meant. */
  ghost predicate PlainAnswer(trace: seq<Obs>, k: nat, o: Order) {
    && k < |trace| && trace[k].Answered? && trace[k].order.id == o.id && NotTheHubs(trace, k, trace[k].order)
    && Issued(ByBridge(Some(trace[k].client)), o) in trace
  }

  /** `WholeRequestProvenance` is about something: every request of words that fits can be answered so. */
  lemma {:induction false} PlainAnswerHappens(site: Site, o: Order)
    requires Fits(o) && o.id >= 1
    ensures exists acts, k :: PlainAnswer(RunAll(site, acts).trace, k, o)
  {
    hide RunAll, Next, Fits, Sendable, CommandText, FeedbackWire, Knows, Seen, DoorModule.Reply, IsReply, Shown, WellFormed,
      Received, InitialHub, Holds;
    var at, client := ModuleAddress(site), 0;
    var reply := DoorModule.Reply(o.action, DoorModule.UNKNOWN);
    RepliesSomehow(o.action, DoorModule.UNKNOWN);
    FitsIsSendable(o);
    FeedbackFits(o, reply);
    SendableName(o);
    SendableDigits(o);
    var acts := GreetedRun(site, o.mod, at);
    var start := RunAll(site, acts);
    acts := AskedUpTo(site, acts, o.mod, o.id);
    QuietFromStart(start, RunAll(site, acts));
    var past := RunAll(site, acts).trace;
    acts := ForwardedRun(site, acts, o, at, client);
    SiteStays(site, acts);
    ReceivedTwice(CommandText(o));
    KnownOk(RunAll(site, acts).hub, o.mod, at);
    HandleOne(RunAll(site, acts), o, Received(CommandText(o)), at, DoorModule.UNKNOWN);
    acts := Extend(site, acts, DoorHears(o.mod, Packet(site.hub, at, Received(CommandText(o))), DoorModule.UNKNOWN));
    RelayOne(RunAll(site, acts), o, reply, at);
    acts := Extend(site, acts, HubHears(Packet(at, site.hub, FeedbackWire(o, reply)), 0, 0));
    KnownOk(RunAll(site, acts).hub, o.mod, at);
    AnswerOne(RunAll(site, acts), o, reply, client);
    acts := Extend(site, acts, BridgeHears(Packet(site.hub, site.bridge, FeedbackWire(o, reply))));
    PlainTrace(past, o, reply, client);
    assert PlainAnswer(RunAll(site, acts).trace, |past| + 2, o);
  }

  lemma FitsIsSendable(o: Order)
    requires Fits(o)
    ensures Sendable(o) && WellFormed(o)
  {
  }

  lemma PlainTrace(past: seq<Obs>, o: Order, reply: string, client: Bridge.Client)
    requires Quiet(past) && Shown(o, reply).Some?
    ensures PlainAnswer(past + [Issued(ByBridge(Some(client)), o)] + [Handled(o, reply)]
                        + [Answered(client, o.(action := Shown(o, reply).value))], |past| + 2, o)
  {
    hide Seen, Shown;
    var trace := past + [Issued(ByBridge(Some(client)), o)] + [Handled(o, reply)]
                 + [Answered(client, o.(action := Shown(o, reply).value))];
    assert forall i | 0 <= i < |past| :: trace[i] == past[i];
    assert trace[|past|] == Issued(ByBridge(Some(client)), o);
  }
}
