/** The Node bridge between web clients and the hub: it numbers commands and answers each requester. */
module Bridge {
  import opened Prelude
  import opened Wire

  /** Whoever waits for a command: a web socket, or the callback wrapped as one. */
  type Client = nat

  /** A `pending` entry. */
  datatype Waiting = Waiting(client: Client, timer: nat)

  /** What a running timer's closure remembers. */
  datatype Timer = Timer(id: int, client: Client)

  /** What the completion callback of a datagram still being sent remembers. */
  datatype Sending = ForCommand(asker: Option<Client>) | ForInfo(client: Client, timer: nat)

  datatype BridgeState = BridgeState(
    counter: int, pending: map<int, Waiting>, timers: map<nat, Timer>, nextTimer: nat, sending: map<int, Sending>)

  datatype Outcome = Feedback(mod: string, target: string, action: string) | SendError | Timeout

  /** A direct answer to one client. */
  datatype Answer = Answer(id: int, client: Client, outcome: Outcome)

  const INITIAL_BRIDGE := BridgeState(1, map[], map[], 0, map[])

  /** `sendCommand` up to its return. */
  function Issued(s: BridgeState, client: Option<Client>): BridgeState {
    s.(counter := s.counter + 1, sending := s.sending[s.counter := ForCommand(client)])
  }

  /** The handler of `get-door-info`: registered before the datagram is sent. */
  function InfoAsked(s: BridgeState, client: Client): BridgeState {
    Registered(s, s.counter, client)
      .(counter := s.counter + 1, sending := s.sending[s.counter := ForInfo(client, s.nextTimer)])
  }

  /** A new timer and the `pending` entry that names it. */
  function Registered(s: BridgeState, id: int, client: Client): BridgeState {
    s.(pending := s.pending[id := Waiting(client, s.nextTimer)],
       timers := s.timers[s.nextTimer := Timer(id, client)], nextTimer := s.nextTimer + 1)
  }

  function Forgotten(s: BridgeState, id: int, timer: nat): BridgeState {
    s.(pending := s.pending - {id}, timers := s.timers - {timer})
  }

  /** The completion callback of the datagram that carried `id`. */
  function SendDone(s: BridgeState, id: int, failed: bool): BridgeState {
    if id !in s.sending then s
    else
      var s' := s.(sending := s.sending - {id});
      match s.sending[id]
      case ForCommand(client) => if !failed && client.Some? then Registered(s', id, client.value) else s'
      case ForInfo(_, timer) => if failed then Forgotten(s', id, timer) else s'
  }

  function SendDoneAnswers(s: BridgeState, id: int, failed: bool): seq<Answer> {
    if !failed || id !in s.sending then []
    else
      match s.sending[id]
      case ForCommand(client) => if client.Some? then [Answer(id, client.value, SendError)] else []
      case ForInfo(client, _) => [Answer(id, client, SendError)]
  }

  /** `parts.join(' ')`. */
  function Join(parts: seq<string>): string {
    if parts == [] then "" else if |parts| == 1 then parts[0] else parts[0] + " " + Join(parts[1..])
  }

  /** The id a FEEDBACK message is about; `None` when it is no complete FEEDBACK or carries no number. */
  function FeedbackId(msg: string): Option<int> {
    var parts := JsParts(msg);
    if |parts| >= 5 && parts[1] == "FEEDBACK" then ParseInt(parts[2]) else None
  }

  function FeedbackOf(msg: string): Outcome
    requires |JsParts(msg)| >= 5
  {
    var parts := JsParts(msg);
    Feedback(parts[0], parts[3], Join(parts[4..]))
  }

  /** The pending command a message answers. */
  function Answered(s: BridgeState, msg: string): (id: Option<int>)
    ensures id.Some? ==> id.value in s.pending && |JsParts(msg)| >= 5
  {
    match FeedbackId(msg)
    case None => None
    case Some(id) => if id in s.pending then Some(id) else None
  }

  function MessageHandled(s: BridgeState, msg: string): BridgeState {
    match Answered(s, msg)
    case None => s
    case Some(id) => Forgotten(s, id, s.pending[id].timer)
  }

  function MessageAnswers(s: BridgeState, msg: string): seq<Answer> {
    match Answered(s, msg)
    case None => []
    case Some(id) => [Answer(id, s.pending[id].client, FeedbackOf(msg))]
  }

  function TimerFired(s: BridgeState, timer: nat): BridgeState {
    if timer in s.timers then Forgotten(s, s.timers[timer].id, timer) else s
  }

  function TimerAnswers(s: BridgeState, timer: nat): seq<Answer> {
    if timer in s.timers then [Answer(s.timers[timer].id, s.timers[timer].client, Timeout)] else []
  }

  /** The bridge itself; `sending` and `timers` are what Node's event loop holds for it. */
  class Bridge {
    var cmdCounter: int
    var pending: map<int, Waiting>
    var timers: map<nat, Timer>
    var nextTimer: nat
    var sending: map<int, Sending>

    ghost function State(): BridgeState
      reads this
    {
      BridgeState(cmdCounter, pending, timers, nextTimer, sending)
    }

    constructor ()
      ensures State() == INITIAL_BRIDGE
    {
      cmdCounter, pending, timers, nextTimer, sending := 1, map[], map[], 0, map[];
    }

    method SetTimeout(id: int, client: Client) returns (timer: nat)
      modifies this
      ensures timer == old(nextTimer)
      ensures State() == old(State()).(timers := old(timers)[timer := Timer(id, client)], nextTimer := timer + 1)
    {
      timer := nextTimer;
      timers := timers[timer := Timer(id, client)];
      nextTimer := nextTimer + 1;
    }

    method ClearTimeout(timer: nat)
      modifies this
      ensures State() == old(State()).(timers := old(timers) - {timer})
    {
      timers := timers - {timer};
    }

    /** `sendCommand` with its defaults; `payload` goes to the hub. */
    method SendCommand(moduleId: string, target: string, action: string, client: Option<Client>) returns (payload: string)
      modifies this
      ensures State() == Issued(old(State()), client)
      ensures payload == CommandLine(if moduleId == "" then "D1" else moduleId, old(cmdCounter),
                                     if target == "" then "D0" else target, action)
    {
      var mod, tgt := moduleId, target;
      if mod == "" { mod := "D1"; }
      if tgt == "" { tgt := "D0"; }
      var cmdid := cmdCounter;
      cmdCounter := cmdCounter + 1;
      payload := CommandLine(mod, cmdid, tgt, action);
      sending := sending[cmdid := ForCommand(client)];
    }

    /** The `send-command` handler; an empty text stands for a missing one. */
    method OnSendCommand(moduleId: string, target: string, action: string, client: Client) returns (payload: string)
      modifies this
      ensures State() == Issued(old(State()), Some(client))
      ensures payload == CommandLine(if moduleId == "" then "D1" else moduleId, old(cmdCounter),
                                     if target == "" then "D0" else target, if action == "" then "STATUS" else action)
    {
      var mod := if moduleId == "" then "D1" else moduleId;
      var tgt := if target == "" then "D0" else target;
      var act := if action == "" then "STATUS" else action;
      payload := SendCommand(mod, tgt, act, Some(client));
    }

    /** The `get-door-info` handler. */
    method GetDoorInfo(moduleId: string, client: Client) returns (payload: string)
      modifies this
      ensures State() == InfoAsked(old(State()), client)
      ensures payload == CommandLine(if "D" <= moduleId then moduleId else "D" + moduleId, old(cmdCounter), "D0", "STATUS")
    {
      var mod := if "D" <= moduleId then moduleId else "D" + moduleId;
      var cmdid := cmdCounter;
      cmdCounter := cmdCounter + 1;
      payload := CommandLine(mod, cmdid, "D0", "STATUS");
      var timer := SetTimeout(cmdid, client);
      pending := pending[cmdid := Waiting(client, timer)];
      sending := sending[cmdid := ForInfo(client, timer)];
    }

    /** The callback of either `udpSocket.send`. */
    method OnSendDone(cmdid: int, failed: bool) returns (answers: seq<Answer>)
      requires cmdid in sending
      modifies this
      ensures State() == SendDone(old(State()), cmdid, failed)
      ensures answers == SendDoneAnswers(old(State()), cmdid, failed)
    {
      answers := [];
      var closure := sending[cmdid];
      sending := sending - {cmdid};
      match closure
      case ForCommand(client) =>
        if client.Some? {
          if failed {
            answers := [Answer(cmdid, client.value, SendError)];
          } else {
            var timer := SetTimeout(cmdid, client.value);
            pending := pending[cmdid := Waiting(client.value, timer)];
          }
        }
      case ForInfo(client, timer) =>
        if failed {
          ClearTimeout(timer);
          pending := pending - {cmdid};
          answers := [Answer(cmdid, client, SendError)];
        }
    }

    /** The socket's `message` handler. */
    method OnMessage(msg: string) returns (answers: seq<Answer>)
      modifies this
      ensures State() == MessageHandled(old(State()), msg)
      ensures answers == MessageAnswers(old(State()), msg)
    {
      answers := [];
      var parts := JsParts(msg);
      if |parts| >= 5 && parts[1] == "FEEDBACK" {
        var cmdid := ParseInt(parts[2]);
        if cmdid.Some? && cmdid.value in pending {
          var p := pending[cmdid.value];
          answers := [Answer(cmdid.value, p.client, Feedback(parts[0], parts[3], Join(parts[4..])))];
          ClearTimeout(p.timer);
          pending := pending - {cmdid.value};
        }
      }
    }

    /** The callback of either `setTimeout`. */
    method OnTimer(timer: nat) returns (answers: seq<Answer>)
      requires timer in timers
      modifies this
      ensures State() == TimerFired(old(State()), timer)
      ensures answers == TimerAnswers(old(State()), timer)
    {
      var t := timers[timer];
      timers := timers - {timer};
      pending := pending - {t.id};
      answers := [Answer(t.id, t.client, Timeout)];
    }
  }

  // ---------- Runs ----------

  datatype Happening =
    | Command(asker: Option<Client>)
    | Info(client: Client)
    | Sent(id: int, failed: bool)
    | Message(msg: string)
    | Fire(timer: nat)

  function Next(s: BridgeState, e: Happening): BridgeState {
    match e
    case Command(client) => Issued(s, client)
    case Info(client) => InfoAsked(s, client)
    case Sent(id, failed) => SendDone(s, id, failed)
    case Message(msg) => MessageHandled(s, msg)
    case Fire(timer) => TimerFired(s, timer)
  }

  function Emits(s: BridgeState, e: Happening): (a: seq<Answer>)
    ensures |a| <= 1
  {
    match e
    case Command(_) => []
    case Info(_) => []
    case Sent(id, failed) => SendDoneAnswers(s, id, failed)
    case Message(msg) => MessageAnswers(s, msg)
    case Fire(timer) => TimerAnswers(s, timer)
  }

  function RunAll(es: seq<Happening>): BridgeState {
    if es == [] then INITIAL_BRIDGE else Next(RunAll(es[..|es| - 1]), es[|es| - 1])
  }

  /** All direct answers of a run, in order. */
  function Answers(es: seq<Happening>): seq<Answer> {
    if es == [] then [] else Answers(es[..|es| - 1]) + Emits(RunAll(es[..|es| - 1]), es[|es| - 1])
  }

  /** The ids issued in a run, in order. */
  function Ids(es: seq<Happening>): seq<int> {
    if es == [] then []
    else
      var last := es[|es| - 1];
      Ids(es[..|es| - 1]) + if last.Command? || last.Info? then [RunAll(es[..|es| - 1]).counter] else []
  }

  /** Ids are never reused: the n-th command of a run has id n. */
  lemma {:induction false} IdsCountUp(es: seq<Happening>)
    ensures RunAll(es).counter == |Ids(es)| + 1
    ensures forall i | 0 <= i < |Ids(es)| :: Ids(es)[i] == i + 1
  {
    hide Answered;
    if es != [] {
      IdsCountUp(es[..|es| - 1]);
    }
  }

  /** Live timers and `pending` entries name each other one to one, and closures agree with both. */
  ghost predicate Consistent(s: BridgeState) {
    && (forall id | id in s.pending ::
          id < s.counter && s.pending[id].timer in s.timers
          && s.timers[s.pending[id].timer] == Timer(id, s.pending[id].client))
    && (forall h | h in s.timers ::
          h < s.nextTimer && s.timers[h].id in s.pending && s.pending[s.timers[h].id].timer == h)
    && (forall id | id in s.sending :: id < s.counter && SendingFits(s, id, s.sending[id]))
  }

  ghost predicate SendingFits(s: BridgeState, id: int, sending: Sending) {
    match sending
    case ForCommand(_) => id !in s.pending
    case ForInfo(client, timer) =>
      timer < s.nextTimer && (id in s.pending ==> s.pending[id] == Waiting(client, timer))
      && (timer in s.timers ==> s.timers[timer].id == id)
  }

  lemma NextKeepsConsistent(s: BridgeState, e: Happening)
    requires Consistent(s)
    ensures Consistent(Next(s, e))
  {
    match e
    case Command(_) =>
    case Info(_) =>
    case Sent(id, failed) => SendDoneKeepsConsistent(s, id, failed);
    case Message(msg) =>
      if Answered(s, msg).Some? {
        var id := Answered(s, msg).value;
        ForgottenKeepsConsistent(s, id, s.pending[id].timer);
      }
    case Fire(timer) =>
      if timer in s.timers {
        ForgottenKeepsConsistent(s, s.timers[timer].id, timer);
      }
  }

  lemma SendDoneKeepsConsistent(s: BridgeState, id: int, failed: bool)
    requires Consistent(s)
    ensures Consistent(SendDone(s, id, failed))
  {
  }

  lemma ForgottenKeepsConsistent(s: BridgeState, id: int, timer: nat)
    requires Consistent(s) && timer in s.timers && s.timers[timer].id == id
    ensures Consistent(Forgotten(s, id, timer))
  {
  }

  /** After every event of every run the live timers are exactly those of the keys in `pending`. */
  lemma {:induction false} TimersMatchPending(es: seq<Happening>)
    ensures Consistent(RunAll(es))
  {
    hide Next, Consistent;
    if es == [] {
      NothingPending();
    } else {
      TimersMatchPending(es[..|es| - 1]);
      NextKeepsConsistent(RunAll(es[..|es| - 1]), es[|es| - 1]);
    }
  }

  lemma NothingPending()
    ensures Consistent(INITIAL_BRIDGE)
  {
  }

  // ---------- How often a command is answered ----------

  function CountFor(answers: seq<Answer>, id: int): nat {
    if answers == [] then 0
    else CountFor(answers[..|answers| - 1], id) + if answers[|answers| - 1].id == id then 1 else 0
  }

  /** A door-info datagram's error is reported after the command was answered in another way. */
  predicate LateError(s: BridgeState, e: Happening, id: int) {
    e == Sent(id, true) && id in s.sending && s.sending[id].ForInfo? && id !in s.pending
  }

  predicate HadLateError(es: seq<Happening>, id: int) {
    es != [] && (HadLateError(es[..|es| - 1], id) || LateError(RunAll(es[..|es| - 1]), es[|es| - 1], id))
  }

  /** Who asked for command `id` in a run; `None` when it was not issued or nobody waits for it. */
  function Requester(es: seq<Happening>, id: int): Option<Client> {
    if es == [] then None
    else
      var before, e := es[..|es| - 1], es[|es| - 1];
      if id == RunAll(before).counter && e.Command? then e.asker
      else if id == RunAll(before).counter && e.Info? then Some(e.client)
      else Requester(before, id)
  }

  /** The ledger of one id: `n` answers so far, `late` whether a late error came, `who` asked. */
  ghost predicate Tally(s: BridgeState, id: int, n: nat, late: bool, who: Option<Client>) {
    && (id >= s.counter ==> n == 0 && !late && who == None)
    && (id in s.pending ==> n == 0 && !late && who == Some(s.pending[id].client))
    && (id in s.sending && s.sending[id].ForCommand? ==> n == 0 && !late && who == s.sending[id].asker)
    && (id in s.sending && s.sending[id].ForInfo? ==>
          !late && who == Some(s.sending[id].client) && (id !in s.pending ==> n == 1))
    && (late ==> n == 2)
    && (!late ==> n <= 1)
    && (who == None ==> n == 0)
    && (who != None && id !in s.pending && id !in s.sending ==> n >= 1)
  }

  function WhoAfter(s: BridgeState, e: Happening, id: int, who: Option<Client>): Option<Client> {
    if id == s.counter && e.Command? then e.asker
    else if id == s.counter && e.Info? then Some(e.client)
    else who
  }

  lemma TallyStep(s: BridgeState, e: Happening, id: int, n: nat, late: bool, who: Option<Client>)
    requires Consistent(s) && Tally(s, id, n, late, who)
    ensures Tally(Next(s, e), id, n + CountFor(Emits(s, e), id), late || LateError(s, e, id), WhoAfter(s, e, id, who))
    ensures forall a | a in Emits(s, e) && a.id == id :: who == Some(a.client)
    ensures who != None ==> WhoAfter(s, e, id, who) == who
  {
    hide Answered, FeedbackOf, CountFor;
    CountOne(Emits(s, e), id);
    match e
    case Command(_) =>
    case Info(_) =>
    case Sent(sent, failed) => TallySent(s, sent, failed, id, n, late, who);
    case Message(_) =>
    case Fire(_) =>
  }

  lemma TallySent(s: BridgeState, sent: int, failed: bool, id: int, n: nat, late: bool, who: Option<Client>)
    requires Consistent(s) && Tally(s, id, n, late, who)
    ensures Tally(SendDone(s, sent, failed), id, n + CountFor(SendDoneAnswers(s, sent, failed), id),
                  late || LateError(s, Sent(sent, failed), id), who)
    ensures forall a | a in SendDoneAnswers(s, sent, failed) && a.id == id :: who == Some(a.client)
  {
    hide CountFor;
    CountOne(SendDoneAnswers(s, sent, failed), id);
  }

  lemma CountOne(answers: seq<Answer>, id: int)
    requires |answers| <= 1
    ensures CountFor(answers, id) == if answers != [] && answers[0].id == id then 1 else 0
  {
    if answers != [] {
      assert answers[..0] == [];
    }
  }

  lemma CountForAppend(a: seq<Answer>, b: seq<Answer>, id: int)
    requires |b| <= 1
    ensures CountFor(a + b, id) == CountFor(a, id) + CountFor(b, id)
  {
    if b == [] {
      assert a + b == a;
    } else {
      assert (a + b)[..|a|] == a && b[..0] == [];
    }
  }

  lemma {:induction false} TallyOfRun(es: seq<Happening>, id: int)
    ensures Tally(RunAll(es), id, CountFor(Answers(es), id), HadLateError(es, id), Requester(es, id))
    ensures forall a | a in Answers(es) && a.id == id :: Requester(es, id) == Some(a.client)
  {
    hide Next, Emits, Tally, LateError;
    if es == [] {
      assert Tally(INITIAL_BRIDGE, id, 0, false, None) by { TallyAtStart(id); }
    } else {
      var before, e := es[..|es| - 1], es[|es| - 1];
      TallyOfRun(before, id);
      TimersMatchPending(before);
      TallyStep(RunAll(before), e, id, CountFor(Answers(before), id), HadLateError(before, id), Requester(before, id));
      CountForAppend(Answers(before), Emits(RunAll(before), e), id);
    }
  }

  lemma TallyAtStart(id: int)
    ensures Tally(INITIAL_BRIDGE, id, 0, false, None)
  {
  }

  /**
   A command is answered at most once unless the error of a door-info datagram is reported after the
   command was answered; then it is answered exactly twice.
   */
  lemma AnsweredOnceIff(es: seq<Happening>, id: int)
    ensures CountFor(Answers(es), id) <= 1 <==> !HadLateError(es, id)
    ensures CountFor(Answers(es), id) <= 2
  {
    hide RunAll, Answers, HadLateError, Requester;
    TallyOfRun(es, id);
  }

  /** Answers go to whoever asked. */
  lemma AnswersGoToTheRequester(es: seq<Happening>, a: Answer)
    requires a in Answers(es)
    ensures Requester(es, a.id) == Some(a.client)
  {
    TallyOfRun(es, a.id);
  }

  /** Nobody is forgotten: a requester is without an answer exactly while its datagram or its timer is outstanding. */
  lemma {:induction false} UnansweredIffOutstanding(es: seq<Happening>, id: int)
    requires Requester(es, id) != None
    ensures CountFor(Answers(es), id) == 0 <==>
            id in RunAll(es).pending || (id in RunAll(es).sending && RunAll(es).sending[id].ForCommand?)
  {
    hide RunAll, Answers, HadLateError, Requester;
    TallyOfRun(es, id);
  }

  /** It does happen: a timeout, then the error of the very same door-info datagram. */
  lemma LateErrorAnswersTwice(client: Client)
    ensures var s0 := Next(INITIAL_BRIDGE, Info(client));
      var s1 := Next(s0, Fire(0));
      Emits(s0, Fire(0)) == [Answer(1, client, Timeout)] && Emits(s1, Sent(1, true)) == [Answer(1, client, SendError)]
  {
  }

  /** Every answer has its cause: a failed send an error, an expired wait a timeout, and only a FEEDBACK line feedback. */
  lemma WhatAnswersSay(s: BridgeState, e: Happening, a: Answer)
    requires a in Emits(s, e)
    ensures match a.outcome
      case SendError => e == Sent(a.id, true)
      case Timeout => e.Fire? && e.timer in s.timers && s.timers[e.timer].id == a.id
      case Feedback(mod, target, action) =>
        && e.Message? && a.id in s.pending
        && var parts := JsParts(e.msg);
           |parts| >= 5 && parts[1] == "FEEDBACK" && ParseInt(parts[2]) == Some(a.id)
           && mod == parts[0] && target == parts[3] && action + "\n" == Line(parts[4..])
  {
    if e.Message? {
      JoinIsLine(JsParts(e.msg)[4..]);
    }
    hide JsParts, Join, Line;
  }

  /** `join(' ')` puts single spaces between. */
  lemma {:induction false} JoinIsLine(ws: seq<string>)
    ensures Join(ws) + "\n" == Line(ws)
  {
    if |ws| > 1 {
      JoinIsLine(ws[1..]);
      assert Join(ws) + "\n" == ws[0] + " " + (Join(ws[1..]) + "\n");
    }
  }

  // ---------- At most one feedback ----------

  /** How many of the answers to a command are feedback. */
  function FeedbackCount(answers: seq<Answer>, id: int): nat {
    if answers == [] then 0
    else
      var last := answers[|answers| - 1];
      FeedbackCount(answers[..|answers| - 1], id) + if last.id == id && last.outcome.Feedback? then 1 else 0
  }

  lemma FeedbackCountAppend(a: seq<Answer>, b: seq<Answer>, id: int)
    requires |b| <= 1
    ensures FeedbackCount(a + b, id)
            == FeedbackCount(a, id) + if b != [] && b[0].id == id && b[0].outcome.Feedback? then 1 else 0
  {
    if b == [] {
      assert a + b == a;
    } else {
      assert (a + b)[..|a|] == a;
    }
  }

  lemma {:induction false} LateErrorsAreNoFeedback(es: seq<Happening>, id: int)
    ensures FeedbackCount(Answers(es), id) + (if HadLateError(es, id) then 1 else 0) <= CountFor(Answers(es), id)
  {
    hide Next;
    if es != [] {
      var before, e := es[..|es| - 1], es[|es| - 1];
      LateErrorsAreNoFeedback(before, id);
      TallyOfRun(before, id);
      assert HadLateError(before, id) ==> id !in RunAll(before).sending;
      var emitted := Emits(RunAll(before), e);
      CountForAppend(Answers(before), emitted, id);
      FeedbackCountAppend(Answers(before), emitted, id);
      CountOne(emitted, id);
      hide RunAll, Answered, FeedbackOf, CountFor;
    }
  }

  /** Without any exception: no command is answered with feedback twice. */
  lemma {:induction false} FeedbackAtMostOnce(es: seq<Happening>, id: int)
    ensures FeedbackCount(Answers(es), id) <= 1
  {
    hide RunAll, Answers, HadLateError;
    LateErrorsAreNoFeedback(es, id);
    AnsweredOnceIff(es, id);
  }
}
