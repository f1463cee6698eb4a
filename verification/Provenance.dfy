/** What a web client, or a caller of the hub, may conclude from an answer. */
module Provenance {
  import opened Prelude
  import opened Wire
  import opened HubModel
  import opened Orders
  import opened HubSend
  import opened System
  import HubRuns
  import Bridge
  import DoorModule

  lemma {:induction false} TraceOfRun(site: Site, acts: seq<Act>)
    ensures TraceJustified(RunAll(site, acts).trace)
    ensures Numbered(RunAll(site, acts).trace, RunAll(site, acts).nextId, RunAll(site, acts).bridge.counter)
  {
    hide RunAll;
    InvAlways(site, acts);
  }

  /** Entry `i` issues `o`, and at entry `j` the addressed module handles what it saw in it with `reply`; both before entry `k`. */
  ghost predicate IssuedThenHandled(trace: seq<Obs>, i: nat, j: nat, k: nat, issuer: Issuer, o: Order, h: Order, reply: string) {
    i < j < k <= |trace| && trace[i] == Issued(issuer, o) && Seen(o) == Some(h) && trace[j] == Handled(h, reply)
  }

  lemma HandledWasIssued(trace: seq<Obs>, k: nat, h: Order, reply: string)
    requires TraceJustified(trace) && k <= |trace| && Handled(h, reply) in trace[..k]
    ensures exists issuer, o, i, j :: IssuedThenHandled(trace, i, j, k, issuer, o, h, reply)
    ensures IsReply(h.action, reply) && WellFormed(h)
  {
    hide WellFormed, IsReply, Seen;
    var j :| 0 <= j < k && trace[..k][j] == Handled(h, reply);
    assert Justified(trace[..j], trace[j]);
    var issuer, o :| Issued(issuer, o) in trace[..j] && Seen(o) == Some(h);
    var i :| 0 <= i < j && trace[..j][i] == Issued(issuer, o);
    assert IssuedThenHandled(trace, i, j, k, issuer, o, h, reply);
    HandledIsWellFormed(trace, h, reply);
  }

  /** Before entry `k`, some command was issued and then handled whose FEEDBACK reports `said`. */
  ghost predicate FromAHandler(trace: seq<Obs>, k: nat, said: Order) {
    exists issuer, o, h, reply, i, j ::
      IssuedThenHandled(trace, i, j, k, issuer, o, h, reply) && Reports(h, reply) == Some(said) && IsReply(h.action, reply)
  }

  /**
   Whoever issues ids: a direct answer reports what the handler of the named module replied to some
   command with this very id and target, issued before it was handled.
   */
  lemma {:induction false} AnswersComeFromHandlers(site: Site, acts: seq<Act>, k: nat)
    ensures var trace := RunAll(site, acts).trace;
      k < |trace| && trace[k].Answered? ==> FromAHandler(trace, k, trace[k].order)
  {
    hide RunAll, IsReply, Reports, Seen, WellFormed;
    TraceOfRun(site, acts);
    var trace := RunAll(site, acts).trace;
    if k < |trace| && trace[k].Answered? {
      assert Justified(trace[..k], trace[k]);
      var h, reply :| Handled(h, reply) in trace[..k] && Reports(h, reply) == Some(trace[k].order);
      HandledWasIssued(trace, k, h, reply);
    }
  }

  /** The answer is about `o`: what its module saw in it has the answer's id, module and target. */
  predicate About(o: Order, said: Order) {
    match Seen(o)
    case None => false
    case Some(h) => said == h.(action := said.action)
  }

  /** No command of the hub itself is one that this answer could be about; so it is when only the bridge issues ids. */
  predicate NotTheHubs(trace: seq<Obs>, k: nat, said: Order)
    requires k <= |trace|
  {
    forall i | 0 <= i < k && trace[i].Issued? && trace[i].issuer.ByHub? :: !About(trace[i].order, said)
  }

  /** Two issues by the same side with the same id are one and the same. */
  lemma SameIdSameIssue(trace: seq<Obs>, nextId: int, counter: int, i: nat, j: nat)
    requires Numbered(trace, nextId, counter) && i < |trace| && j < |trace| && trace[i].Issued? && trace[j].Issued?
    requires trace[i].issuer.ByHub? == trace[j].issuer.ByHub? && trace[i].order.id == trace[j].order.id
    ensures i == j
  {
  }

  /** The client answered at `k` had itself issued `o`, whose handling after that the answer reports. */
  ghost predicate OwnAnswer(trace: seq<Obs>, k: nat, o: Order, h: Order, reply: string)
    requires k < |trace| && trace[k].Answered?
  {
    && (exists i, j :: IssuedThenHandled(trace, i, j, k, ByBridge(Some(trace[k].client)), o, h, reply))
    && Reports(h, reply) == Some(trace[k].order) && IsReply(h.action, reply)
  }

  /**
   End-to-end provenance. When a client gets a direct answer for id c and the hub itself has not used
   c for that module and target, then this client's own command c was handled by the module it was
   addressed to, after it was sent, with the target and action that the module saw in it, and the
   answer shows the handler's reply, or as much of it as fits.
   */
  lemma {:induction false} AnswerProvenance(site: Site, acts: seq<Act>, k: nat)
    requires k < |RunAll(site, acts).trace| && RunAll(site, acts).trace[k].Answered?
    requires NotTheHubs(RunAll(site, acts).trace, k, RunAll(site, acts).trace[k].order)
    ensures exists o, h, reply :: OwnAnswer(RunAll(site, acts).trace, k, o, h, reply)
  {
    hide RunAll, IsReply, Numbered, TraceJustified, Shown, Seen;
    AnswersComeFromHandlers(site, acts, k);
    TraceOfRun(site, acts);
    var s := RunAll(site, acts);
    var trace, said, client := s.trace, s.trace[k].order, s.trace[k].client;
    var issuer, o, h, reply, i: nat, j: nat :|
      IssuedThenHandled(trace, i, j, k, issuer, o, h, reply) && Reports(h, reply) == Some(said) && IsReply(h.action, reply);
    assert About(o, said);
    SeenKeepsId(trace, issuer, o, h);
    AskerIsTheIssuer(trace, s.nextId, s.bridge.counter, k, i);
    assert IssuedThenHandled(trace, i, j, k, ByBridge(Some(client)), o, h, reply);
    assert OwnAnswer(trace, k, o, h, reply);
  }

  lemma SeenKeepsId(trace: seq<Obs>, issuer: Issuer, o: Order, h: Order)
    requires TraceJustified(trace) && Issued(issuer, o) in trace && Seen(o) == Some(h)
    ensures h.id == o.id && h.mod == o.mod
  {
    hide Seen, WellFormed;
    IssuedIsSendable(trace, issuer, o);
    DoorReads(o, CommandText(o), o.mod);
  }

  /** The bridge's command with the id of an answer was issued for the client answered. */
  lemma AskerIsTheIssuer(trace: seq<Obs>, nextId: int, counter: int, k: nat, i: nat)
    requires TraceJustified(trace) && Numbered(trace, nextId, counter) && i < k < |trace| && trace[k].Answered?
    requires trace[i].Issued? && !trace[i].issuer.ByHub? && trace[i].order.id == trace[k].order.id
    ensures trace[i].issuer == ByBridge(Some(trace[k].client))
  {
    hide Numbered, Sendable, Reports, Seen;
    assert Justified(trace[..k], trace[k]);
    var o :| Issued(ByBridge(Some(trace[k].client)), o) in trace[..k] && o.id == trace[k].order.id;
    var m :| 0 <= m < k && trace[..k][m] == Issued(ByBridge(Some(trace[k].client)), o);
    SameIdSameIssue(trace, nextId, counter, i, m);
  }

  /**
   For a request of words that fits the buffers, the answer proves that the module handled the very
   target and action the client sent, and it shows the whole reply.
   */
  lemma {:induction false} WholeRequestProvenance(site: Site, acts: seq<Act>, k: nat, o: Order)
    requires k < |RunAll(site, acts).trace| && RunAll(site, acts).trace[k].Answered?
    requires NotTheHubs(RunAll(site, acts).trace, k, RunAll(site, acts).trace[k].order)
    requires Issued(ByBridge(Some(RunAll(site, acts).trace[k].client)), o) in RunAll(site, acts).trace
    requires o.id == RunAll(site, acts).trace[k].order.id && Fits(o)
    ensures var trace := RunAll(site, acts).trace;
      OwnAnswer(trace, k, o, o, trace[k].order.action) && trace[k].order == o.(action := trace[k].order.action)
  {
    hide RunAll, IsReply, Numbered, Shown, Fits, Seen, TraceJustified;
    AnswerProvenance(site, acts, k);
    TraceOfRun(site, acts);
    var s := RunAll(site, acts);
    var trace := s.trace;
    var o', h, reply :| OwnAnswer(trace, k, o', h, reply);
    var i: nat, j: nat :| IssuedThenHandled(trace, i, j, k, ByBridge(Some(trace[k].client)), o', h, reply);
    var m :| 0 <= m < |trace| && trace[m] == Issued(ByBridge(Some(trace[k].client)), o);
    SeenKeepsId(trace, ByBridge(Some(trace[k].client)), o', h);
    SameIdSameIssue(trace, s.nextId, s.bridge.counter, i, m);
    SeenWhole(o);
    FeedbackFits(o, reply);
  }

  lemma SeenWhole(o: Order)
    requires Fits(o)
    ensures Seen(o) == Some(o)
  {
    hide Seen, Fits;
    assert IsReply(o.action, DoorModule.Reply(o.action, DoorModule.UNKNOWN));
    FeedbackFits(o, DoorModule.Reply(o.action, DoorModule.UNKNOWN));
  }

  // ---------- Acknowledged calls of the hub ----------

  /** Handling what is seen in `o` can acknowledge a call for `x`: a matter of comparing their fields. */
  ghost predicate CouldEcho(x: Order, o: Order) {
    match Seen(o)
    case None => false
    case Some(h) => exists state: DoorModule.DoorState :: EchoOf(x, h, DoorModule.Reply(h.action, state))
  }

  /** No command issued so far, apart from the call itself, could acknowledge it. */
  ghost predicate NothingElseEchoes(trace: seq<Obs>, k: nat, x: Order)
    requires k <= |trace|
  {
    forall i | 0 <= i < k && trace[i].Issued? && CouldEcho(x, trace[i].order) :: trace[i] == Issued(ByHub, x)
  }

  /** Target and action are words of at most 31 characters. */
  ghost predicate ShortWords(x: Order) {
    && |x.target| <= 31 && |x.action| <= 31
    && Word(x.target, C_BLANKS) && Word(x.action, C_BLANKS) && '\0' !in x.target && '\0' !in x.action
  }

  /** The calls that their own FEEDBACK can acknowledge. */
  ghost predicate Ackable(x: Order) { x.action != "STATUS" && ShortWords(x) }

  lemma AckableIsSeen(x: Order)
    requires Sendable(x) && Ackable(x)
    ensures Seen(x) == Some(x)
  {
    HeadShape(x);
    SeenWholeIff(x);
    hide Head, Seen, PlainBlanks;
  }

  lemma AckableReply(x: Order, reply: string)
    requires Sendable(x) && Ackable(x) && IsReply(x.action, reply)
    ensures reply == x.action && Shown(x, reply) == Some(reply)
  {
    FeedbackHeadShape(x, reply);
    hide Head, PlainBlanks, Word;
  }

  /** If the FEEDBACK for what was seen in a call passes for the call's own, then the call was seen as it was made and is acknowledgeable. */
  lemma OwnEcho(x: Order, h: Order, reply: string)
    requires Sendable(x) && Seen(x) == Some(h) && IsReply(h.action, reply) && EchoOf(x, h, reply)
    ensures h == x && reply == x.action && Ackable(x)
  {
    DoorReads(x, CommandText(x), x.mod);
    EchoedWords(x, h, reply);
    HeadShape(x);
    SeenWholeIff(x);
    hide Seen, Sendable, Shown;
    EchoedReply(x, reply);
  }

  /** Beginnings of words are words. */
  lemma EchoedWords(x: Order, h: Order, reply: string)
    requires WellFormed(h) && IsReply(h.action, reply) && EchoOf(x, h, reply)
    ensures ShortWords(x)
  {
    ReplyIsWord(h.action, reply);
    WordsAnywhere(h.target);
    WordsAnywhere(reply);
    hide DoorModule.Reply;
    assert x.target <= h.target && x.action <= reply;
  }

  lemma EchoedReply(x: Order, reply: string)
    requires WellFormed(x) && IsReply(x.action, reply) && EchoOf(x, x, reply) && |x.target| <= 31 && |x.action| <= 31
    ensures reply == x.action && x.action != "STATUS"
  {
    FeedbackHeadShape(x, reply);
    var state: DoorModule.DoorState :| reply == DoorModule.Reply(x.action, state);
    ReplyText(x.action, state);
    assert Shown(x, reply) == Some(reply);
  }

  /**
   What every acknowledgement needs, whoever's FEEDBACK it came from: target and action are words of at
   most 31 characters. A STATUS call needs a foreign FEEDBACK whose overlong target cut its reply down.
   */
  lemma {:induction false} AckLimits(site: Site, acts: seq<Act>, k: nat)
    ensures var trace := RunAll(site, acts).trace;
      k < |trace| && trace[k].Acked? ==>
        ShortWords(trace[k].order) && (trace[k].order.action == "STATUS" ==> |trace[k].order.target| == 31)
  {
    hide RunAll, ShortWords, EchoOf, WellFormed, IsReply, Sendable, Numbered, IssuedThenHandled;
    TraceOfRun(site, acts);
    var trace := RunAll(site, acts).trace;
    if k < |trace| && trace[k].Acked? {
      var x := trace[k].order;
      assert Justified(trace[..k], trace[k]);
      var h, reply :| Handled(h, reply) in trace[..k] && EchoOf(x, h, reply);
      HandledWasIssued(trace, k, h, reply);
      EchoedWords(x, h, reply);
      if x.action == "STATUS" {
        CutToStatus(x, h, reply);
      }
    }
  }

  /** A reply passes for STATUS only when the line had no room for more, behind a very long target. */
  lemma CutToStatus(x: Order, h: Order, reply: string)
    requires WellFormed(h) && IsReply(h.action, reply) && EchoOf(x, h, reply) && x.action == "STATUS"
    ensures |x.target| == 31 && |h.target| > 200
  {
    var state: DoorModule.DoorState :| reply == DoorModule.Reply(h.action, state);
    ReplyText(h.action, state);
    FeedbackHeadShape(h, reply);
    assert |Clip(Shown(h, reply).value, 31)| == 6;
    assert h.action == "STATUS" || reply == h.action;
    assert Shown(h, reply).value == "STATUS";
    assert h.action == "STATUS" ==> reply != "STATUS";
  }

  /**
   `hub_udp_send_command` returning true means that the addressed module handled this very command,
   with this id, target and action, after the call began, provided that no other command could have
   acknowledged it.
   */
  lemma {:induction false} AckIsSound(site: Site, acts: seq<Act>, k: nat)
    requires k < |RunAll(site, acts).trace| && RunAll(site, acts).trace[k].Acked?
    requires NothingElseEchoes(RunAll(site, acts).trace, k, RunAll(site, acts).trace[k].order)
    ensures HandledDuringCall(RunAll(site, acts).trace, k, RunAll(site, acts).trace[k].order)
    ensures Ackable(RunAll(site, acts).trace[k].order)
  {
    hide RunAll, Ackable, EchoOf, Sendable, WellFormed, Numbered, Seen;
    TraceOfRun(site, acts);
    var trace := RunAll(site, acts).trace;
    var x := trace[k].order;
    assert Justified(trace[..k], trace[k]);
    var h, reply :| Handled(h, reply) in trace[..k] && EchoOf(x, h, reply);
    HandledWasIssued(trace, k, h, reply);
    var issuer, o, i: nat, j: nat :| IssuedThenHandled(trace, i, j, k, issuer, o, h, reply);
    assert CouldEcho(x, o);
    IssuedIsSendable(trace, issuer, o);
    OwnEcho(x, h, reply);
    assert IssuedThenHandled(trace, i, j, k, ByHub, x, x, x.action);
  }

  /** The module handled this very command between the start of the call and entry `k`. */
  ghost predicate HandledDuringCall(trace: seq<Obs>, k: nat, x: Order) {
    exists i, j :: IssuedThenHandled(trace, i, j, k, ByHub, x, x, x.action)
  }

  /**
   When the record of a waiting call holds the FEEDBACK of the call's own command, the call succeeds
   exactly for these targets and actions; otherwise it goes on to its next pass or gives up.
   */
  lemma {:induction false} OwnFeedbackAcks(s: Sys, id: int, timedOut: bool, h: Order, reply: string)
    requires HubOk(s.hub) && CallsOk(s) && id in s.calls && s.calls[id].waiting
    requires Seen(s.calls[id].order) == Some(h) && IsReply(h.action, reply) && Holds(s.hub.doors[s.calls[id].slot], h, reply)
    ensures (Woken(s, id, timedOut).trace == s.trace + [Acked(s.calls[id].order)]) <==> Ackable(s.calls[id].order)
    ensures !Ackable(s.calls[id].order) ==> Woken(s, id, timedOut) == NextPass(s, id)
  {
    hide Seen, Ackable, Sendable, IsReply, Holds, Acknowledges;
    assert CallOk(s, id, s.calls[id]);
    var d, x := s.hub.doors[s.calls[id].slot], s.calls[id].order;
    OwnFeedbackInRecord(d, x, h, reply);
    assert |s.trace + [Acked(x)]| > |s.trace|;
  }

  lemma OwnFeedbackInRecord(d: DoorRec, x: Order, h: Order, reply: string)
    requires Sendable(x) && d.id == x.mod && Seen(x) == Some(h) && IsReply(h.action, reply) && Holds(d, h, reply)
    ensures Acknowledges(d, x) <==> Ackable(x)
    ensures d.feedbackId == x.id
  {
    hide Seen, Ackable, CommandText, Shown, IsReply, Sendable, WellFormed;
    DoorReads(x, CommandText(x), x.mod);
    if Ackable(x) {
      AckableIsSeen(x);
      AckableReply(x, reply);
      AckableFits(x);
    }
    if Acknowledges(d, x) {
      assert EchoOf(x, h, reply);
      OwnEcho(x, h, reply);
    }
  }

  lemma AckableFits(x: Order)
    requires Ackable(x)
    ensures Clip(x.target, 31) == x.target && Clip(x.action, 31) == x.action
  {
  }

  /** Calls are made one after another and the bridge sends nothing. */
  ghost predicate HubAlone(site: Site, acts: seq<Act>) {
    && (forall n | 0 <= n < |acts| :: !acts[n].Ask? && !acts[n].AskInfo?)
    && (forall n | 0 <= n < |acts| && acts[n].CallStarts? :: RunAll(site, acts[..n]).calls == map[])
  }

  /** Only the latest call is in progress, and only the hub has issued ids. */
  ghost predicate Serial(s: Sys) {
    && (forall id | id in s.calls :: id == s.nextId - 1)
    && (forall k | 0 <= k < |s.trace| && s.trace[k].Issued? :: s.trace[k].issuer.ByHub?)
  }

  lemma NextKeepsSerial(s: Sys, a: Act)
    requires HubOk(s.hub) && Serial(s) && !a.Ask? && !a.AskInfo? && (a.CallStarts? ==> s.calls == map[])
    ensures Serial(Next(s, a))
  {
    hide Sendable, ReadCommand, FindDoor, Acknowledges, Stray, Bridge.Answered, Bridge.FeedbackOf;
  }

  /** An acknowledgement in a serial state is the latest call's. */
  lemma SerialAckIsNewest(s: Sys, id: int, timedOut: bool)
    requires Serial(s) && Inv(s) && |Woken(s, id, timedOut).trace| > |s.trace|
    ensures var trace' := Woken(s, id, timedOut).trace; NothingElseEchoes(trace', |s.trace|, trace'[|s.trace|].order)
  {
    hide NetExplained, TraceJustified, RecordsBacked, ClientsBacked, Sendable, Acknowledges, CouldEcho;
    var x := s.calls[id].order;
    assert CallOk(s, id, s.calls[id]);
    var m :| 0 <= m < |s.trace| && s.trace[m] == Issued(ByHub, x);
    forall i | 0 <= i < |s.trace| && s.trace[i].Issued? && CouldEcho(x, s.trace[i].order)
      ensures s.trace[i] == Issued(ByHub, x)
    {
      EchoNeedsLaterId(s.trace, s.trace[i].issuer, s.trace[i].order, x);
      SameIdSameIssue(s.trace, s.nextId, s.bridge.counter, i, m);
    }
  }

  lemma EchoNeedsLaterId(trace: seq<Obs>, issuer: Issuer, o: Order, x: Order)
    requires TraceJustified(trace) && Issued(issuer, o) in trace && CouldEcho(x, o)
    ensures o.id >= x.id && o.mod == x.mod
  {
    hide Seen;
    SeenKeepsId(trace, issuer, o, Seen(o).value);
  }

  /** Every true result up to here came after this very command was issued and handled. */
  ghost predicate AcksSound(trace: seq<Obs>) {
    forall k | 0 <= k < |trace| && trace[k].Acked? :: HandledDuringCall(trace, k, trace[k].order)
  }

  lemma HandledStays(trace: seq<Obs>, more: seq<Obs>, k: nat, x: Order)
    requires trace <= more && HandledDuringCall(trace, k, x)
    ensures HandledDuringCall(more, k, x)
  {
    hide Seen;
    var i: nat, j: nat :| IssuedThenHandled(trace, i, j, k, ByHub, x, x, x.action);
    assert IssuedThenHandled(more, i, j, k, ByHub, x, x, x.action);
  }

  /** With the hub as the only source of ids and one call at a time, every true result is sound. */
  lemma {:induction false} SerialAcksAreSound(site: Site, acts: seq<Act>)
    requires HubAlone(site, acts)
    ensures Serial(RunAll(site, acts)) && AcksSound(RunAll(site, acts).trace)
  {
    hide Next, Serial, AcksSound;
    if acts == [] {
      SerialAtStart(site);
    } else {
      var past, a := acts[..|acts| - 1], acts[|acts| - 1];
      assert forall n | 0 <= n < |past| :: past[n] == acts[n] && past[..n] == acts[..n];
      SerialAcksAreSound(site, past);
      NextKeepsSerial(RunAll(site, past), a);
      NextAckIsSound(site, past, a);
    }
  }

  lemma SerialAtStart(site: Site)
    ensures Serial(Start(site)) && AcksSound(Start(site).trace)
  {
  }

  lemma RunOneMore(site: Site, past: seq<Act>, a: Act)
    ensures RunAll(site, past + [a]) == Next(RunAll(site, past), a)
  {
    assert (past + [a])[..|past|] == past;
  }

  lemma NextAckIsSound(site: Site, past: seq<Act>, a: Act)
    requires Serial(RunAll(site, past)) && AcksSound(RunAll(site, past).trace)
    ensures AcksSound(Next(RunAll(site, past), a).trace)
  {
    hide RunAll, Next, Serial, Inv, Woken, NothingElseEchoes, HandledDuringCall;
    var s := RunAll(site, past);
    InvAlways(site, past);
    TraceOnlyGrows(s, a);
    RunOneMore(site, past, a);
    var trace, trace' := s.trace, Next(s, a).trace;
    if |trace'| > |trace| && trace'[|trace|].Acked? {
      AckedOnlyByWaking(s, a);
      SerialAckIsNewest(s, a.id, a.timedOut);
      AckIsSound(site, past + [a], |trace|);
    }
    forall k | 0 <= k < |trace'| && trace'[k].Acked?
      ensures HandledDuringCall(trace', k, trace'[k].order)
    {
      if k < |trace| {
        HandledStays(trace, trace', k, trace[k].order);
      }
    }
  }

  lemma AckedOnlyByWaking(s: Sys, a: Act)
    requires HubOk(s.hub) && |Next(s, a).trace| > |s.trace| && Next(s, a).trace[|s.trace|].Acked?
    ensures a.CallWakes? && Next(s, a) == Woken(s, a.id, a.timedOut)
  {
    hide Sendable, ReadCommand, FindDoor, Acknowledges, HubRuns.Step, Stray, Bridge.Answered, Bridge.FeedbackOf;
  }

  // ---------- The retry loop ends ----------

  /** Steps left to a call: each pass is a send and a wait. */
  function StepsLeft(s: Sys, id: int): int {
    if id !in s.calls then 0
    else 2 * (ACK_RETRIES + 1 - s.calls[id].attempt) - if s.calls[id].waiting then 1 else 0
  }

  /** At most three datagrams leave, and every send and every expired wait brings the call closer to its end. */
  lemma {:induction false} RetryLoopEnds(site: Site, acts: seq<Act>, id: int, outcome: bool)
    ensures var s := RunAll(site, acts);
      id in s.calls ==>
        && s.calls[id].sent <= 3
        && StepsLeft(s, id) > 0
        && (if s.calls[id].waiting then 0 <= StepsLeft(Woken(s, id, true), id) < StepsLeft(s, id)
            else 0 <= StepsLeft(Tried(s, id, outcome), id) < StepsLeft(s, id))
  {
    hide RunAll, Sendable, Acknowledges;
    InvAlways(site, acts);
    var s := RunAll(site, acts);
    if id in s.calls {
      assert CallOk(s, id, s.calls[id]);
      hide CallOk;
    }
  }

  // ---------- Print, parse, print again ----------

  /** Whatever the hub relays or forwards in a run is, character for character, what it received. */
  lemma {:induction false} RelayIsIdentity(site: Site, acts: seq<Act>, p: Packet, t: int, issued: int)
    ensures var s := RunAll(site, acts);
      p in s.net ==> forall o | o in HandleLine(s.hub, Received(p.payload), p.src, t, issued).1 :: o.payload == Received(p.payload)
  {
    hide RunAll, HandleLine, Received;
    InvAlways(site, acts);
    var s := RunAll(site, acts);
    if p in s.net {
      forall o | o in HandleLine(s.hub, Received(p.payload), p.src, t, issued).1
        ensures o.payload == Received(p.payload)
      {
        HubPassesTextsOn(s, p, t, issued, o);
      }
    }
  }
}
