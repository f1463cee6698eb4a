/** Pieces from which whole system runs are put together, for showing that something can happen. */
module Staging {
  import opened Prelude
  import opened Wire
  import opened HubModel
  import opened HubTables
  import opened Orders
  import opened HubSend
  import opened System
  import Bridge
  import DoorModule

  // ---------- The hub's tables ----------

  /** A usable module name. */
  ghost predicate GoodName(mod: string) {
    Word(mod, JS_BLANKS) && |mod| <= ID_CHARS && '\0' !in mod
  }

  lemma SendableName(o: Order)
    requires Sendable(o)
    ensures GoodName(o.mod)
  {
  }

  lemma HelloIsStray(mod: string)
    requires GoodName(mod)
    ensures Tokens(Received(HelloLine(mod)), C_BLANKS) == [mod, "HELLO"] && Stray(HelloLine(mod))
  {
    BlankSets();
    WordsAnywhere(mod);
    HelloRoundTrip(mod, C_BLANKS);
    HelloRoundTrip(mod, JS_BLANKS);
    assert '\0' !in " HELLO\n";
    ReceivedWhole(HelloLine(mod));
  }

  /** Slot 0 is `mod`'s, and both tables say it lives at `at`. */
  ghost predicate Knows(h: HubState, mod: string, at: Addr) {
    HubOk(h) && Owns(h.doors[0], mod) && h.doors[0].addr == Some(at) && Route(h.endpoints, mod) == Some(at)
  }

  lemma KnownSlot(h: HubState, mod: string, at: Addr)
    requires Knows(h, mod, at)
    ensures FindDoor(h.doors, mod) == DoorSlot(h.doors, mod) == 0 && ClaimedDoor(h.doors, mod) == h.doors[0]
    ensures Reachable(h.doors, mod) && HubOk(h)
  {
  }

  lemma AfterHello(mod: string, at: Addr)
    requires GoodName(mod)
    ensures var h := HandleLine(InitialHub(), Received(HelloLine(mod)), at, 0, 0).0;
      Knows(h, mod, at) && h.pending == InitialHub().pending
  {
    HelloIsStray(mod);
    Keywords();
    var h, toks := InitialHub(), [mod, "HELLO"];
    hide Tokens, KindOf, Received, HelloLine, Word;
    assert forall i | 0 <= i < |h.doors| :: h.doors[i] == BLANK_DOOR;
    assert FindDoor(h.doors, mod) == |h.doors| && FreeDoor(h.doors) == 0;
    assert Learn(h.endpoints, mod, at) == [Endpoint(mod, at)];
    DoorAfterKeeps(Heard(NewDoor(mod), toks, at), toks, 0);
    LineKeepsHubOk(h, Received(HelloLine(mod)), at, 0, 0);
  }

  /** A COMMAND in which its module sees something is registered and forwarded. */
  lemma AfterCommand(h: HubState, o: Order, at: Addr, client: Addr)
    requires Knows(h, o.mod, at) && h.pending == InitialHub().pending && Sendable(o) && Seen(o).Some?
    ensures var (h', out) := HandleLine(h, Received(CommandText(o)), client, 0, 0);
      Knows(h', o.mod, at) && h'.pending[0] == Pending(o.id, client, o.mod, 0) && out == [Out(at, Received(CommandText(o)))]
  {
    SendableName(o);
    CommandRead(o, CommandText(o));
    SeenIsComplete(o);
    hide Tokens, KindOf, Received, CommandText, Word, FindDoor, PrintInt, Atoi, Sendable, Seen, FreeDoor, OldestPending,
      FindPending, LogAfter;
    NumberRoundTrip(o.id);
    Keywords();
    KnownSlot(h, o.mod, at);
    LineKeepsHubOk(h, Received(CommandText(o)), client, 0, 0);
    assert FreePending(h.pending) == 0;
  }

  lemma SeenIsComplete(o: Order)
    requires Seen(o).Some?
    ensures Complete(Tokens(Received(CommandText(o)), C_BLANKS), Command)
  {
    hide Tokens, Received, CommandText, KindOf;
  }

  /** A FEEDBACK leaves its mark in the record, and goes to the client if one is registered in slot 0. */
  lemma AfterFeedback(h: HubState, x: Order, reply: string, at: Addr)
    requires Knows(h, x.mod, at) && WellFormed(x) && IsReply(x.action, reply) && Shown(x, reply).Some?
    ensures var (h', out) := HandleLine(h, Received(FeedbackWire(x, reply)), at, 0, 0);
      && Knows(h', x.mod, at)
      && (h.pending[0].id == x.id && h.pending[0].mod == x.mod ==> out == [Out(h.pending[0].client, FeedbackWire(x, reply))])
    ensures Holds(HandleLine(h, Received(FeedbackWire(x, reply)), at, 0, 0).0.doors[0], x, reply)
  {
    hide Tokens, KindOf, Received, FeedbackWire, Word, FindDoor, PrintInt, Atoi, WellFormed, IsReply, Shown, FeedbackLine;
    LearnOneRoute(h.endpoints, x.mod, at, x.mod) by { NameFits(x); }
    FeedbackRead(x, reply);
    FeedbackReprint(x, reply);
    NumberRoundTrip(x.id);
    Keywords();
    KnownSlot(h, x.mod, at);
    LineKeepsHubOk(h, Received(FeedbackWire(x, reply)), at, 0, 0);
    assert h.pending[0].id == x.id && h.pending[0].mod == x.mod ==> FindPending(h.pending, x.mod, x.id) == 0;
  }

  lemma NameFits(x: Order)
    requires WellFormed(x)
    ensures |x.mod| <= ID_CHARS
  {
  }

  // ---------- Building a run ----------

  /** One more action of a run. */
  lemma Extend(site: Site, acts: seq<Act>, a: Act) returns (acts': seq<Act>)
    ensures RunAll(site, acts') == Next(RunAll(site, acts), a)
    ensures RunAll(site, acts').site == site
  {
    acts' := acts + [a];
    assert acts'[..|acts|] == acts;
    SiteStays(site, acts');
  }

  lemma {:induction false} SiteStays(site: Site, acts: seq<Act>)
    ensures RunAll(site, acts).site == site
  {
    hide Next;
    if acts != [] {
      SiteStays(site, acts[..|acts| - 1]);
      TraceOnlyGrows(RunAll(site, acts[..|acts| - 1]), acts[|acts| - 1]);
    }
  }

  /** An address that is neither the hub's nor the bridge's. */
  function ModuleAddress(site: Site): (at: Addr)
    ensures at != site.hub && at != site.bridge
  {
    Addr(site.hub.ip + site.bridge.ip + 1, 0)
  }

  /** The module at `at` has said HELLO, and nothing else has happened. */
  ghost predicate Greeted(s: Sys, mod: string, at: Addr) {
    && Knows(s.hub, mod, at) && s.hub.pending == InitialHub().pending && s.bridge == Bridge.INITIAL_BRIDGE
    && s.calls == map[] && s.nextId == 1 && s.trace == []
  }

  lemma Greet(s: Sys, mod: string, at: Addr)
    requires s == Start(s.site) && GoodName(mod)
    ensures var hello := Packet(at, s.site.hub, HelloLine(mod));
      Greeted(Next(Next(s, Noise(hello)), HubHears(hello, 0, 0)), mod, at)
  {
    hide Stray, Word, HelloLine, HandleLine, Received, Knows;
    HelloIsStray(mod);
    AfterHello(mod, at);
  }

  lemma GreetedRun(site: Site, mod: string, at: Addr) returns (acts: seq<Act>)
    requires GoodName(mod)
    ensures Greeted(RunAll(site, acts), mod, at)
  {
    var hello := Packet(at, site.hub, HelloLine(mod));
    acts := [];
    Greet(Start(site), mod, at);
    acts := Extend(site, acts, Noise(hello));
    acts := Extend(site, acts, HubHears(hello, 0, 0));
  }

  // ---------- Using up ids ----------

  /** Commands were issued in which nobody sees anything and for which nobody waits. */
  ghost predicate Quiet(trace: seq<Obs>) {
    forall k | 0 <= k < |trace| :: trace[k].Issued? && Seen(trace[k].order) == None
  }

  /** Between `s` and `s'` ids were used up and nothing else happened. */
  ghost predicate Idled(s: Sys, s': Sys) {
    && s'.site == s.site && s'.hub == s.hub && s.net <= s'.net && s'.bridge.pending == s.bridge.pending
    && s.trace <= s'.trace && Quiet(s'.trace[|s.trace|..])
    && (forall id | id in s.calls :: id in s'.calls && s'.calls[id] == s.calls[id])
  }

  lemma IdledOn(s: Sys, s1: Sys, s2: Sys)
    requires Idled(s, s1) && Idled(s1, s2)
    ensures Idled(s, s2)
  {
    hide Seen;
    assert s2.trace[|s.trace|..] == s1.trace[|s.trace|..] + s2.trace[|s1.trace|..];
  }

  lemma IdledByOne(s: Sys, s': Sys, x: Obs)
    requires s'.site == s.site && s'.hub == s.hub && s.net <= s'.net && s'.bridge.pending == s.bridge.pending
    requires forall id | id in s.calls :: id in s'.calls && s'.calls[id] == s.calls[id]
    requires s'.trace == s.trace + [x] && x.Issued? && Seen(x.order) == None
    ensures Idled(s, s')
  {
    hide Seen;
    assert s'.trace[|s.trace|..] == [x];
  }

  /** A command without an action. */
  function Blank(mod: string, id: int): Order { Order(id, mod, "D0", "") }

  lemma BlankIsUnseen(mod: string, id: int)
    requires GoodName(mod) && |PrintInt(id)| <= ID_DIGITS
    ensures Sendable(Blank(mod, id)) && Seen(Blank(mod, id)) == None
  {
    var o := Blank(mod, id);
    assert '0' !in JS_BLANKS && 'D' !in JS_BLANKS;
    hide PrintInt;
    assert Sendable(o);
    HeadShape(o);
    HeadHasNoNul(o, "COMMAND");
    WordsAnywhere(mod);
    hide Head, Sendable, Word;
    var line := "D0" + " " + "" + "\n";
    ReceivedWhole(Head(o, "COMMAND") + line);
    BlankTokens(o, line);
    hide Tokens, Received;
  }

  lemma BlankTokens(o: Order, line: string)
    requires Word(o.mod, C_BLANKS) && line == "D0 \n"
    ensures |Tokens(Head(o, "COMMAND") + line, C_BLANKS)| == 4
  {
    hide Head;
    BlankSets();
    HeadTokens(o, "COMMAND", line, C_BLANKS);
    assert Word("D0", C_BLANKS);
    hide Word, Tokens;
    assert line == "D0" + " \n";
    TokensOfWord("D0", " \n", C_BLANKS);
    assert " \n" == [' '] + "\n" && "\n" == ['\n'] + "";
    TokensAfterBlank(' ', "\n", C_BLANKS);
    TokensAfterBlank('\n', "", C_BLANKS);
    NoTokens();
  }

  lemma NoTokens()
    ensures Tokens("", C_BLANKS) == []
  {
  }

  lemma {:induction false} ShorterNumber(j: nat, n: nat)
    requires j <= n
    ensures |PrintNat(j)| <= |PrintNat(n)|
  {
    if n >= 10 && j >= 10 {
      ShorterNumber(j / 10, n / 10);
    }
  }

  lemma BlankAsk(s: Sys, mod: string)
    requires HubOk(s.hub) && GoodName(mod) && |PrintInt(s.bridge.counter)| <= ID_DIGITS
    ensures var s' := Next(s, Ask(mod, "D0", "", None));
      Idled(s, s') && s'.bridge.counter == s.bridge.counter + 1 && s'.nextId == s.nextId
  {
    hide GoodName, Seen, CommandText, Sendable, PrintInt;
    var o := Blank(mod, s.bridge.counter);
    BlankIsUnseen(mod, s.bridge.counter);
    IdledByOne(s, Next(s, Ask(mod, "D0", "", None)), Issued(ByBridge(None), o));
  }

  lemma BlankCall(s: Sys, mod: string, at: Addr)
    requires Knows(s.hub, mod, at) && GoodName(mod) && |PrintInt(s.nextId)| <= ID_DIGITS && s.nextId !in s.calls
    ensures var s' := Next(s, CallStarts(mod, "D0", ""));
      Idled(s, s') && s'.bridge == s.bridge && s'.nextId == s.nextId + 1
  {
    hide GoodName, Seen, CommandText, Sendable, FindDoor, PrintInt, Bridged, HubHandled, Replied, Delivered, Tried, Woken,
      Route;
    KnownSlot(s.hub, mod, at);
    var o := Blank(mod, s.nextId);
    BlankIsUnseen(mod, s.nextId);
    IdledByOne(s, Next(s, CallStarts(mod, "D0", "")), Issued(ByHub, o));
  }

  lemma NextIdIsFree(site: Site, acts: seq<Act>)
    ensures RunAll(site, acts).nextId !in RunAll(site, acts).calls
  {
    hide RunAll;
    InvAlways(site, acts);
    var s := RunAll(site, acts);
    assert s.nextId in s.calls ==> CallOk(s, s.nextId, s.calls[s.nextId]);
  }

  /** The bridge uses up ids until it is about to use `n`. */
  lemma {:induction false} AskedUpTo(site: Site, past: seq<Act>, mod: string, n: nat) returns (acts: seq<Act>)
    requires GoodName(mod) && 1 <= RunAll(site, past).bridge.counter <= n && |PrintInt(n)| <= ID_DIGITS
    ensures var s, s' := RunAll(site, past), RunAll(site, acts);
      Idled(s, s') && s'.bridge.counter == n && s'.nextId == s.nextId
    decreases n
  {
    hide RunAll, Next, GoodName, Seen;
    if n == RunAll(site, past).bridge.counter {
      acts := past;
      assert RunAll(site, past).trace[|RunAll(site, past).trace|..] == [];
    } else {
      ShorterNumber(n - 1, n);
      acts := AskedUpTo(site, past, mod, n - 1);
      var s1 := RunAll(site, acts);
      BlankAsk(s1, mod);
      acts := Extend(site, acts, Ask(mod, "D0", "", None));
      IdledOn(RunAll(site, past), s1, RunAll(site, acts));
    }
  }

  /** The hub uses up ids until it is about to use `m`. */
  lemma {:induction false} CalledUpTo(site: Site, past: seq<Act>, mod: string, at: Addr, m: nat) returns (acts: seq<Act>)
    requires GoodName(mod) && Knows(RunAll(site, past).hub, mod, at)
    requires 1 <= RunAll(site, past).nextId <= m && |PrintInt(m)| <= ID_DIGITS
    ensures var s, s' := RunAll(site, past), RunAll(site, acts);
      Idled(s, s') && s'.bridge == s.bridge && s'.nextId == m
    decreases m
  {
    hide RunAll, Next, GoodName, Seen, Knows;
    if m == RunAll(site, past).nextId {
      acts := past;
      assert RunAll(site, past).trace[|RunAll(site, past).trace|..] == [];
    } else {
      ShorterNumber(m - 1, m);
      acts := CalledUpTo(site, past, mod, at, m - 1);
      var s1 := RunAll(site, acts);
      NextIdIsFree(site, acts);
      BlankCall(s1, mod, at);
      acts := Extend(site, acts, CallStarts(mod, "D0", ""));
      IdledOn(RunAll(site, past), s1, RunAll(site, acts));
    }
  }

  // ---------- Single scenes ----------

  /** The bridge issues `o` for a client and its datagram leaves. */
  lemma SendOne(s: Sys, o: Order, client: Bridge.Client)
    requires HubOk(s.hub) && Sendable(o) && s.bridge.counter == o.id
    ensures var s' := Next(Next(s, Ask(o.mod, o.target, o.action, Some(client))), BridgeSent(o.id, false));
      && s'.site == s.site && s'.hub == s.hub && s'.nextId == s.nextId && s'.calls == s.calls && s.net <= s'.net
      && s'.trace == s.trace + [Issued(ByBridge(Some(client)), o)]
      && o.id in s'.bridge.pending && s'.bridge.pending[o.id].client == client
      && Packet(s.site.bridge, s.site.hub, CommandText(o)) in s'.net
  {
    hide Sendable, CommandText;
  }

  /** The hub registers and forwards it. */
  lemma ForwardOne(s: Sys, o: Order, at: Addr)
    requires Knows(s.hub, o.mod, at) && s.hub.pending == InitialHub().pending && Sendable(o) && Seen(o).Some?
    requires Packet(s.site.bridge, s.site.hub, CommandText(o)) in s.net
    ensures var s' := Next(s, HubHears(Packet(s.site.bridge, s.site.hub, CommandText(o)), 0, 0));
      && Knows(s'.hub, o.mod, at) && s'.hub.pending[0] == Pending(o.id, s.site.bridge, o.mod, 0) && Elsewhere(s, s')
      && Packet(s.site.hub, at, Received(CommandText(o))) in s'.net
  {
    hide Sendable, CommandText, HandleLine, Received, Seen, Bridged, Called, Delivered, Replied, Tried, Woken;
    AfterCommand(s.hub, o, at, s.site.bridge);
    hide Knows;
    KnownOk(s.hub, o.mod, at);
    assert Out(at, Received(CommandText(o))) in [Out(at, Received(CommandText(o)))];
  }

  lemma KnownOk(h: HubState, mod: string, at: Addr)
    requires Knows(h, mod, at)
    ensures HubOk(h)
  {
  }

  /** A step of hub or module that concerns neither the bridge nor the calls, and is not seen. */
  ghost predicate Elsewhere(s: Sys, s': Sys) {
    && s'.site == s.site && s'.bridge == s.bridge && s'.calls == s.calls && s'.nextId == s.nextId
    && s'.trace == s.trace && s.net <= s'.net
  }

  /** The module handles what it sees in `o`. */
  lemma HandleOne(s: Sys, o: Order, text: string, at: Addr, state: DoorModule.DoorState)
    requires HubOk(s.hub) && Sendable(o) && Seen(o).Some? && Received(text) == Received(CommandText(o))
    requires Packet(s.site.hub, at, text) in s.net && at != s.site.hub
    ensures var h := Seen(o).value;
      var reply := DoorModule.Reply(h.action, state);
      var s' := Next(s, DoorHears(o.mod, Packet(s.site.hub, at, text), state));
      && h.mod == o.mod && h.id == o.id && WellFormed(h) && IsReply(h.action, reply)
      && Packet(at, s.site.hub, FeedbackWire(h, reply)) in s'.net
      && s'.site == s.site && s'.bridge == s.bridge && s'.calls == s.calls && s'.nextId == s.nextId && s'.hub == s.hub
      && s'.trace == s.trace + [Handled(h, reply)] && s.net <= s'.net
  {
    hide Sendable, CommandText, FeedbackWire, Received, ReadCommand, Seen, DoorModule.Reply, HubHandled, Bridged, Called,
      Delivered, WellFormed;
    DoorReads(o, text, o.mod);
    assert IsReply(Seen(o).value.action, DoorModule.Reply(Seen(o).value.action, state));
    hide IsReply;
  }

  /** Its FEEDBACK reaches the hub, and through it the bridge if that is registered in slot 0. */
  lemma RelayOne(s: Sys, x: Order, reply: string, at: Addr)
    requires Knows(s.hub, x.mod, at) && WellFormed(x) && IsReply(x.action, reply) && Shown(x, reply).Some?
    requires Packet(at, s.site.hub, FeedbackWire(x, reply)) in s.net
    ensures var s' := Next(s, HubHears(Packet(at, s.site.hub, FeedbackWire(x, reply)), 0, 0));
      && Knows(s'.hub, x.mod, at) && Elsewhere(s, s') && Holds(s'.hub.doors[0], x, reply)
      && (s.hub.pending[0] == Pending(x.id, s.site.bridge, x.mod, 0) ==>
            Packet(s.site.hub, s.site.bridge, FeedbackWire(x, reply)) in s'.net)
  {
    hide WellFormed, FeedbackWire, HandleLine, Received, IsReply, Shown, Replied, Bridged, Called, Delivered, Tried, Woken,
      Holds;
    AfterFeedback(s.hub, x, reply, at);
    KnownOk(s.hub, x.mod, at);
    hide Knows;
    assert Out(s.site.bridge, FeedbackWire(x, reply)) in [Out(s.site.bridge, FeedbackWire(x, reply))];
  }

  /** The hub issues its own command `x` to a module it knows, and sends it once. */
  lemma CallOne(s: Sys, x: Order, at: Addr)
    requires Knows(s.hub, x.mod, at) && Sendable(x) && x.id == s.nextId && s.nextId !in s.calls
    ensures var s' := Next(Next(s, CallStarts(x.mod, x.target, x.action)), CallSends(x.id, false));
      && s'.site == s.site && s'.bridge == s.bridge && s'.hub == s.hub && s'.trace == s.trace + [Issued(ByHub, x)]
      && s'.nextId == s.nextId + 1 && Packet(s.site.hub, at, Clip(CommandText(x), 255)) in s'.net && s.net <= s'.net
      && x.id in s'.calls && s'.calls[x.id] == Call(x, 0, at, 0, 1, true)
      && (forall id | id in s.calls :: id in s'.calls && s'.calls[id] == s.calls[id])
  {
    hide Sendable, CommandText, FindDoor, Bridged, HubHandled, Replied, Delivered, Woken, Route;
    KnownSlot(s.hub, x.mod, at);
  }

  lemma AnswerOne(s: Sys, x: Order, reply: string, client: Bridge.Client)
    requires WellFormed(x) && IsReply(x.action, reply) && Shown(x, reply).Some?
    requires x.id in s.bridge.pending && s.bridge.pending[x.id].client == client
    requires HubOk(s.hub) && Packet(s.site.hub, s.site.bridge, FeedbackWire(x, reply)) in s.net
    ensures Next(s, BridgeHears(Packet(s.site.hub, s.site.bridge, FeedbackWire(x, reply)))).trace
            == s.trace + [Answered(client, x.(action := Shown(x, reply).value))]
  {
    hide WellFormed, FeedbackWire, Bridge.FeedbackId, Bridge.FeedbackOf, IsReply, Shown, Bridged, HubHandled, Replied,
      Called, Tried, Woken;
    FeedbackRead(x, reply);
  }

  /** A waiting call finds its acknowledgement in slot 0. */
  lemma WakeOne(s: Sys, x: Order, at: Addr)
    requires HubOk(s.hub) && x.id in s.calls && s.calls[x.id] == Call(x, 0, at, 0, 1, true)
    requires Acknowledges(s.hub.doors[0], x)
    ensures Next(s, CallWakes(x.id, false)).trace == s.trace + [Acked(x)]
  {
  }

  lemma EchoAcknowledges(d: DoorRec, x: Order, h: Order, reply: string)
    requires Holds(d, h, reply) && EchoOf(x, h, reply)
    ensures Acknowledges(d, x)
  {
    hide Shown;
  }

  // ---------- Longer stretches ----------

  /** From a state where the hub may send to the module: it handles what it sees in `o` and the hub has the FEEDBACK. */
  lemma HandledRun(site: Site, past: seq<Act>, o: Order, text: string, at: Addr, state: DoorModule.DoorState)
    returns (acts: seq<Act>)
    requires Sendable(o) && Seen(o).Some? && Received(text) == Received(CommandText(o)) && at != site.hub
    requires Knows(RunAll(site, past).hub, o.mod, at) && Packet(site.hub, at, text) in RunAll(site, past).net
    requires Shown(Seen(o).value, DoorModule.Reply(Seen(o).value.action, state)).Some?
    ensures var s, s', h := RunAll(site, past), RunAll(site, acts), Seen(o).value;
      var reply := DoorModule.Reply(h.action, state);
      && Knows(s'.hub, o.mod, at) && Holds(s'.hub.doors[0], h, reply) && s'.calls == s.calls && s'.nextId == s.nextId
      && s'.bridge == s.bridge && s'.trace == s.trace + [Handled(h, reply)]
  {
    SiteStays(site, past);
    hide RunAll, Next, Sendable, CommandText, FeedbackWire, DoorModule.Reply, IsReply, WellFormed, Route, Seen, Shown, Holds,
      Received;
    var h := Seen(o).value;
    var reply := DoorModule.Reply(h.action, state);
    KnownOk(RunAll(site, past).hub, o.mod, at);
    HandleOne(RunAll(site, past), o, text, at, state);
    acts := Extend(site, past, DoorHears(o.mod, Packet(site.hub, at, text), state));
    RelayOne(RunAll(site, acts), h, reply, at);
    acts := Extend(site, acts, HubHears(Packet(at, site.hub, FeedbackWire(h, reply)), 0, 0));
  }

  /** The hub issues its own command `x` and sends it once. */
  lemma CalledRun(site: Site, past: seq<Act>, x: Order, at: Addr) returns (acts: seq<Act>)
    requires Knows(RunAll(site, past).hub, x.mod, at) && Sendable(x) && x.id == RunAll(site, past).nextId
    ensures var s, s' := RunAll(site, past), RunAll(site, acts);
      && s'.bridge == s.bridge && s'.hub == s.hub && s'.trace == s.trace + [Issued(ByHub, x)] && s'.nextId == s.nextId + 1
      && Packet(site.hub, at, Clip(CommandText(x), 255)) in s'.net
      && x.id in s'.calls && s'.calls[x.id] == Call(x, 0, at, 0, 1, true)
      && (forall id | id in s.calls :: id in s'.calls && s'.calls[id] == s.calls[id])
  {
    hide RunAll, Next, Sendable, CommandText, Knows;
    SiteStays(site, past);
    NextIdIsFree(site, past);
    CallOne(RunAll(site, past), x, at);
    acts := Extend(site, past, CallStarts(x.mod, x.target, x.action));
    acts := Extend(site, acts, CallSends(x.id, false));
  }

  /** The bridge issues `o` for a client, and the hub registers and forwards it. */
  lemma ForwardedRun(site: Site, past: seq<Act>, o: Order, at: Addr, client: Bridge.Client) returns (acts: seq<Act>)
    requires Sendable(o) && Seen(o).Some? && RunAll(site, past).bridge.counter == o.id
    requires Knows(RunAll(site, past).hub, o.mod, at) && RunAll(site, past).hub.pending == InitialHub().pending
    ensures var s, s' := RunAll(site, past), RunAll(site, acts);
      && Knows(s'.hub, o.mod, at) && s'.hub.pending[0] == Pending(o.id, site.bridge, o.mod, 0)
      && s'.nextId == s.nextId && s'.calls == s.calls && s.net <= s'.net
      && s'.trace == s.trace + [Issued(ByBridge(Some(client)), o)]
      && o.id in s'.bridge.pending && s'.bridge.pending[o.id].client == client
      && Packet(site.hub, at, Received(CommandText(o))) in s'.net
  {
    SiteStays(site, past);
    hide RunAll, Next, Sendable, CommandText, Knows, InitialHub, Seen, Received;
    SendOne(RunAll(site, past), o, client);
    acts := Extend(site, past, Ask(o.mod, o.target, o.action, Some(client)));
    acts := Extend(site, acts, BridgeSent(o.id, false));
    ForwardOne(RunAll(site, acts), o, at);
    acts := Extend(site, acts, HubHears(Packet(site.bridge, site.hub, CommandText(o)), 0, 0));
  }
}
