/**
 The system with its door modules in it: what a client is told about a bolt, and where the bolt was when
 the module handled the command.
 */
module Stations {
  import opened Prelude
  import opened Wire
  import opened Orders
  import opened System
  import opened Provenance
  import opened DoorReport
  import opened DoorModule
  import HubModel
  import HubRuns
  import Replica
  import Bridge

  /** A door module: its configuration and its state. */
  datatype Unit = Unit(config: Config, m: Module)

  /** One handling seen at the module: its bolt before and after, and what its sensor read. */
  datatype Work = Work(before: nat, after: nat, s: Surroundings)

  /** `works` keeps the work behind every handling in the trace, by its place there. */
  datatype Full = Full(sys: Sys, units: map<string, Unit>, works: map<nat, Work>)

  datatype Deed =
    | Other(a: Act)                                       // anything but a module's handling of a datagram
    | Handles(mod: string, p: System.Packet, s: Surroundings)
    | Samples(mod: string, distance: Reading, t: int)     // the heartbeat thread

  /** A module can make something of this datagram. */
  predicate Effective(f: Full, mod: string, p: System.Packet) {
    mod in f.units && Sound(f.units[mod].m) && p in f.sys.net && p.dst != f.sys.site.hub && ReadCommand(mod, p.payload).Some?
  }

  function HandlingOutcome(f: Full, mod: string, p: System.Packet, s: Surroundings): Outcome
    requires Effective(f, mod, p)
  {
    Run(f.units[mod].config, f.units[mod].m, ReadCommand(mod, p.payload).value.action, s)
  }

  /** The step of the system that a deed is, if it is one. */
  function AsAct(f: Full, d: Deed): Option<Act> {
    match d
    case Other(a) => if a.DoorHears? then None else Some(a)
    case Handles(mod, p, s) =>
      if Effective(f, mod, p) then Some(DoorHears(mod, p, HandlingOutcome(f, mod, p, s).state)) else None
    case Samples(_, _, _) => None
  }

  /** The module's own lines are not put into the network here: like all such lines they may appear there at any time. */
  ghost function NextFull(f: Full, d: Deed): (f': Full)
    requires HubModel.HubOk(f.sys.hub)
    ensures HubModel.HubOk(f'.sys.hub)
  {
    var sys' := match AsAct(f, d) case None => f.sys case Some(a) => Next(f.sys, a);
    match d
    case Other(_) => f.(sys := sys')
    case Handles(mod, p, s) =>
      if !Effective(f, mod, p) then f
      else
        var m := HandlingOutcome(f, mod, p, s).m;
        var w := Work(f.units[mod].m.motor.position, m.motor.position, s);
        Full(sys', f.units[mod := f.units[mod].(m := m)], f.works[|f.sys.trace| := w])
    case Samples(mod, distance, t) =>
      if mod !in f.units then f
      else
        var u := f.units[mod];
        var r := Update(u.config, u.m.reporter, TakeSample(u.m.motor.position, distance), t).0;
        f.(units := f.units[mod := u.(m := u.m.(reporter := r))])
  }

  ghost function RunFull(site: Site, units: map<string, Unit>, deeds: seq<Deed>): (f: Full)
    ensures HubModel.HubOk(f.sys.hub)
  {
    if deeds == [] then Full(Start(site), units, map[])
    else NextFull(RunFull(site, units, deeds[..|deeds| - 1]), deeds[|deeds| - 1])
  }

  /** The lines of a report are no commands and no feedback to anyone. */
  lemma ReportsAreStray(c: Config, r: Reporter, s: Sample, t: int, i: nat)
    requires Word(c.id, JS_BLANKS) && Replica.GoodId(c.id) && i < |Update(c, r, s, t).1|
    ensures Stray(Update(c, r, s, t).1[i].line)
  {
    hide Word, Tokens, Received, HubModel.KindOf, StateToken, OpenText, LockText, HeartbeatLine, EventLine;
    BeatIsStray(c.id, s.d0Open, s.d1Locked);
    EventsAreStray(c.id, s.d0Open, s.d1Locked);
  }

  lemma BeatIsStray(id: string, open: bool, locked: bool)
    requires Word(id, JS_BLANKS) && Replica.GoodId(id)
    ensures Stray(HeartbeatLine(id, open, locked))
  {
    hide Tokens, Received, StateToken, HeartbeatLine;
    BlankSets();
    Replica.ReportLinesFit(id, open, locked);
    HubModel.Keywords();
    HeartbeatRoundTrip(id, open, locked, C_BLANKS);
    HeartbeatRoundTrip(id, open, locked, JS_BLANKS);
  }

  lemma EventsAreStray(id: string, open: bool, locked: bool)
    requires Word(id, JS_BLANKS) && Replica.GoodId(id)
    ensures Stray(EventLine(id, "D0", "DOOR", OpenText(open))) && Stray(EventLine(id, "D1", "LOCK", LockText(locked)))
  {
    hide Tokens, Received, EventLine;
    BlankSets();
    Replica.ReportLinesFit(id, open, locked);
    HubModel.Keywords();
    assert Plain("D0") && Plain("D1") && Plain("DOOR") && Plain("LOCK") && Plain(OpenText(open)) && Plain(LockText(locked));
    hide Plain;
    EventIsStray(id, "D0", "DOOR", OpenText(open));
    EventIsStray(id, "D1", "LOCK", LockText(locked));
  }

  lemma EventIsStray(id: string, which: string, what: string, state: string)
    requires Word(id, JS_BLANKS) && Plain(which) && Plain(what) && Plain(state)
    requires Received(EventLine(id, which, what, state)) == EventLine(id, which, what, state)
    ensures Stray(EventLine(id, which, what, state))
  {
    BlankSets();
    WordsAnywhere(id);
    EventSplits(id, which, what, state, C_BLANKS);
    EventSplits(id, which, what, state, JS_BLANKS);
    hide Tokens, EventLine, Received, Plain, Word;
    SecondIsEvent(EventLine(id, which, what, state));
  }

  lemma EventSplits(id: string, which: string, what: string, state: string, d: set<char>)
    requires BlankSet(d) && Word(id, d) && Plain(which) && Plain(what) && Plain(state)
    ensures Tokens(EventLine(id, which, what, state), d) == [id, "EVENT", which, what, state]
  {
    hide Tokens, EventLine;
    PlainIsWord(which, d);
    PlainIsWord(what, d);
    PlainIsWord(state, d);
    EventRoundTrip(id, which, what, state, d);
  }

  lemma SecondIsEvent(text: string)
    requires Received(text) == text
    requires |Tokens(text, C_BLANKS)| >= 2 && Tokens(text, C_BLANKS)[1] == "EVENT"
    requires |Tokens(text, JS_BLANKS)| >= 2 && Tokens(text, JS_BLANKS)[1] == "EVENT"
    ensures Stray(text)
  {
    hide Tokens, Received;
    HubModel.Keywords();
    assert "EVENT"[0] == 'E' && "FEEDBACK"[0] == 'F';
  }

  // ---------- A run with modules is a run of the system ----------

  ghost function ActsOf(site: Site, units: map<string, Unit>, deeds: seq<Deed>): seq<Act> {
    if deeds == [] then []
    else
      ActsOf(site, units, deeds[..|deeds| - 1])
      + match AsAct(RunFull(site, units, deeds[..|deeds| - 1]), deeds[|deeds| - 1]) case None => [] case Some(a) => [a]
  }

  lemma NextFullSys(f: Full, d: Deed)
    requires HubModel.HubOk(f.sys.hub)
    ensures NextFull(f, d).sys == match AsAct(f, d) case None => f.sys case Some(a) => Next(f.sys, a)
  {
    hide Next, Effective, HandlingOutcome, Update;
  }

  /** The modules only choose what the system leaves open, so everything proved of system runs holds here. */
  lemma {:induction false} FullRunIsASystemRun(site: Site, units: map<string, Unit>, deeds: seq<Deed>)
    ensures RunFull(site, units, deeds).sys == RunAll(site, ActsOf(site, units, deeds))
  {
    hide Next, NextFull, AsAct;
    if deeds != [] {
      var past, d := deeds[..|deeds| - 1], deeds[|deeds| - 1];
      FullRunIsASystemRun(site, units, past);
      var f, acts := RunFull(site, units, past), ActsOf(site, units, past);
      NextFullSys(f, d);
      match AsAct(f, d)
      case None => assert acts + [] == acts;
      case Some(a) => RunOneMore(site, acts, a);
    }
  }

  // ---------- What the handled commands did to the bolts ----------

  /** What a command of this kind does to a bolt at rest, and what is replied. */
  predicate Done(action: string, reply: string, w: Work) {
    && (action == "LOCK" ==> w.after == if SeenShut(w.s.window) then 2048 else w.before)
    && (action == "UNLOCK" ==> w.after == 0)
    && (action != "LOCK" && action != "UNLOCK" ==> w.after == w.before)
    && (action != "STATUS" ==> reply == action)
    && (action == "STATUS" ==>
          reply == if w.before == 2048 then "STATUS_LOCKED" else if w.s.distance == -1 then "STATUS_UNKNOWN"
                   else if w.s.distance < 10 then "STATUS_UNLOCKED" else "STATUS_OPEN")
  }

  predicate Resting(position: nat) { position == 0 || position == 2048 }

  /** All bolts are at rest, and every command handled so far did what it should. */
  ghost predicate AllDone(f: Full) {
    && (forall mod | mod in f.units :: AtRest(f.units[mod].m))
    && (forall k | 0 <= k < |f.sys.trace| && f.sys.trace[k].Handled? ::
          k in f.works && Resting(f.works[k].before) && Done(f.sys.trace[k].order.action, f.sys.trace[k].reply, f.works[k]))
  }

  predicate NoPinFails(d: Deed) { d.Handles? ==> d.s.failAt == None }

  lemma RunIsDone(c: Config, m: Module, action: string, s: Surroundings)
    requires AtRest(m) && s.failAt == None
    ensures var o := Run(c, m, action, s);
      AtRest(o.m) && Done(action, Reply(action, o.state), Work(m.motor.position, o.m.motor.position, s))
  {
    AtRestIsSound(m);
    RunEffect(c, m, action, s);
    hide Run, SeenShut;
    StatusTexts();
  }

  lemma StatusTexts()
    ensures Reply("STATUS", LOCKED) == "STATUS_LOCKED" && Reply("STATUS", UNLOCKED) == "STATUS_UNLOCKED"
    ensures Reply("STATUS", OPEN) == "STATUS_OPEN" && Reply("STATUS", UNKNOWN) == "STATUS_UNKNOWN"
  {
  }

  lemma NextKeepsDone(f: Full, d: Deed)
    requires HubModel.HubOk(f.sys.hub) && AllDone(f) && NoPinFails(d)
    ensures AllDone(NextFull(f, d))
  {
    hide Run, Update, Done, AtRest, Next, ReadCommand, Reply;
    var f' := NextFull(f, d);
    NextFullSys(f, d);
    match d
    case Other(a) =>
      if !a.DoorHears? {
        TraceOnlyGrows(f.sys, a);
        NothingHandled(f.sys, a);
      }
    case Samples(mod, distance, t) => SamplesRest(f, mod, distance, t);
    case Handles(mod, p, s) =>
      if Effective(f, mod, p) {
        var h := ReadCommand(mod, p.payload).value;
        RunIsDone(f.units[mod].config, f.units[mod].m, h.action, s);
        AtRestIsResting(f.units[mod].m);
        HandledNow(f.sys, mod, p, HandlingOutcome(f, mod, p, s).state);
      }
  }

  lemma AtRestIsResting(m: Module)
    ensures AtRest(m) <==> Resting(m.motor.position)
  {
  }

  lemma SamplesRest(f: Full, mod: string, distance: Reading, t: int)
    requires HubModel.HubOk(f.sys.hub) && AllDone(f)
    ensures AllDone(NextFull(f, Samples(mod, distance, t)))
  {
    hide Update, Done;
  }

  lemma NothingHandled(s: Sys, a: Act)
    requires HubModel.HubOk(s.hub) && !a.DoorHears?
    ensures forall k | |s.trace| <= k < |Next(s, a).trace| :: !Next(s, a).trace[k].Handled?
  {
    hide Sendable, Stray, HubRuns.Step, Bridge.Answered, Bridge.FeedbackOf, HubModel.FindDoor;
  }

  lemma HandledNow(s: Sys, mod: string, p: System.Packet, state: DoorState)
    requires HubModel.HubOk(s.hub) && p in s.net && p.dst != s.site.hub && ReadCommand(mod, p.payload).Some?
    ensures var h := ReadCommand(mod, p.payload).value;
      Next(s, DoorHears(mod, p, state)).trace == s.trace + [Handled(h, Reply(h.action, state))] && h.mod == mod
  {
    hide ReadCommand, Reply, FeedbackWire;
    ReadByItself(mod, p.payload);
  }

  lemma ReadByItself(mod: string, text: string)
    ensures ReadCommand(mod, text).Some? ==> ReadCommand(mod, text).value.mod == mod
  {
    hide Tokens, Received;
  }

  /**
   In every run without pin failures whose bolts start at rest: LOCK leaves the bolt at 2048 when its
   window saw the door shut and where it was otherwise, UNLOCK leaves it at 0, nothing else moves it, and
   STATUS is answered from the bolt and the reading.
   */
  lemma {:induction false} CommandsAreDone(site: Site, units: map<string, Unit>, deeds: seq<Deed>)
    requires forall mod | mod in units :: AtRest(units[mod].m)
    requires forall i | 0 <= i < |deeds| :: NoPinFails(deeds[i])
    ensures AllDone(RunFull(site, units, deeds))
  {
    hide NextFull, NoPinFails, AtRest, Done;
    if deeds != [] {
      hide AllDone;
      CommandsAreDone(site, units, deeds[..|deeds| - 1]);
      NextKeepsDone(RunFull(site, units, deeds[..|deeds| - 1]), deeds[|deeds| - 1]);
    }
  }

  // ---------- Where a bolt is ----------

  /** Where the latest handling of module `mod` left its bolt; `start` when there was none. */
  function LeftAt(trace: seq<Obs>, works: map<nat, Work>, mod: string, start: nat): nat {
    if trace == [] then start
    else
      var n := |trace| - 1;
      if trace[n].Handled? && trace[n].order.mod == mod && n in works then works[n].after
      else LeftAt(trace[..n], works, mod, start)
  }

  /** Only the trace's own handlings matter. */
  lemma {:induction false} LeftAtStable(trace: seq<Obs>, works: map<nat, Work>, k: nat, w: Work, mod: string, start: nat)
    requires k >= |trace|
    ensures LeftAt(trace, works[k := w], mod, start) == LeftAt(trace, works, mod, start)
  {
    if trace != [] {
      LeftAtStable(trace[..|trace| - 1], works, k, w, mod, start);
    }
  }

  /** Other observations change nothing. */
  lemma {:induction false} LeftAtSkips(trace: seq<Obs>, more: seq<Obs>, works: map<nat, Work>, mod: string, start: nat)
    requires forall i | 0 <= i < |more| :: !(more[i].Handled? && more[i].order.mod == mod)
    ensures LeftAt(trace + more, works, mod, start) == LeftAt(trace, works, mod, start)
    decreases |more|
  {
    if more == [] {
      assert trace + more == trace;
    } else {
      var n := |more| - 1;
      assert (trace + more)[..|trace + more| - 1] == trace + more[..n];
      LeftAtSkips(trace, more[..n], works, mod, start);
    }
  }

  /** Each handling of the module found its bolt where the previous one left it. */
  ghost predicate Follows(trace: seq<Obs>, works: map<nat, Work>, mod: string, start: nat) {
    forall k | 0 <= k < |trace| && trace[k].Handled? && trace[k].order.mod == mod ::
      k in works && works[k].before == LeftAt(trace[..k], works, mod, start)
  }

  lemma FollowsOn(trace: seq<Obs>, more: seq<Obs>, works: map<nat, Work>, mod: string, start: nat)
    requires Follows(trace, works, mod, start)
    requires forall i | 0 <= i < |more| :: !(more[i].Handled? && more[i].order.mod == mod)
    ensures Follows(trace + more, works, mod, start)
    ensures LeftAt(trace + more, works, mod, start) == LeftAt(trace, works, mod, start)
  {
    LeftAtSkips(trace, more, works, mod, start);
    hide LeftAt;
    assert forall k | 0 <= k <= |trace| :: (trace + more)[..k] == trace[..k];
  }

  lemma FollowsHandling(trace: seq<Obs>, x: Obs, works: map<nat, Work>, w: Work, mod: string, start: nat)
    requires Follows(trace, works, mod, start) && x.Handled?
    requires x.order.mod == mod ==> w.before == LeftAt(trace, works, mod, start)
    ensures var works' := works[|trace| := w];
      && Follows(trace + [x], works', mod, start)
      && LeftAt(trace + [x], works', mod, start) == if x.order.mod == mod then w.after else LeftAt(trace, works, mod, start)
  {
    var works' := works[|trace| := w];
    assert (trace + [x])[..|trace|] == trace;
    forall k | 0 <= k <= |trace|
      ensures (trace + [x])[..k] == trace[..k]
      ensures LeftAt(trace[..k], works', mod, start) == LeftAt(trace[..k], works, mod, start)
    {
      LeftAtStable(trace[..k], works, |trace|, w, mod, start);
    }
    assert trace[..|trace|] == trace;
    assert LeftAt(trace + [x], works', mod, start) == if x.order.mod == mod then w.after else LeftAt(trace, works, mod, start);
    hide LeftAt;
  }

  /** Every bolt is where its module's latest handling left it, and each handling found it so. */
  ghost predicate Unbroken(f: Full, units: map<string, Unit>, mod: string) {
    && mod in f.units && mod in units
    && f.units[mod].m.motor.position == LeftAt(f.sys.trace, f.works, mod, units[mod].m.motor.position)
    && Follows(f.sys.trace, f.works, mod, units[mod].m.motor.position)
  }

  lemma OtherKeepsUnbroken(f: Full, units: map<string, Unit>, a: Act, mod: string)
    requires HubModel.HubOk(f.sys.hub) && Unbroken(f, units, mod)
    ensures Unbroken(NextFull(f, Other(a)), units, mod)
  {
    hide Next, LeftAt, Follows;
    if !a.DoorHears? {
      TraceOnlyGrows(f.sys, a);
      NothingHandled(f.sys, a);
      var trace' := Next(f.sys, a).trace;
      var more := trace'[|f.sys.trace|..];
      assert trace' == f.sys.trace + more;
      FollowsOn(f.sys.trace, more, f.works, mod, units[mod].m.motor.position);
    }
  }

  /** What one handling adds. */
  lemma HandlingAdds(f: Full, d: Deed)
    requires HubModel.HubOk(f.sys.hub) && d.Handles? && Effective(f, d.mod, d.p)
    ensures var f', n := NextFull(f, d), |f.sys.trace|;
      && f'.units.Keys == f.units.Keys && (forall mod | mod in f.units && mod != d.mod :: f'.units[mod] == f.units[mod])
      && n in f'.works && f'.works == f.works[n := f'.works[n]]
      && f'.works[n].before == f.units[d.mod].m.motor.position && f'.works[n].after == f'.units[d.mod].m.motor.position
      && |f'.sys.trace| == n + 1 && f'.sys.trace == f.sys.trace + [f'.sys.trace[n]]
      && f'.sys.trace[n].Handled? && f'.sys.trace[n].order.mod == d.mod
  {
    hide Run, Next, ReadCommand, Reply;
    HandledNow(f.sys, d.mod, d.p, HandlingOutcome(f, d.mod, d.p, d.s).state);
    NextFullSys(f, d);
  }

  lemma HandlingKeepsUnbroken(f: Full, units: map<string, Unit>, d: Deed, mod: string)
    requires HubModel.HubOk(f.sys.hub) && Unbroken(f, units, mod)
    requires d.Handles? && Effective(f, d.mod, d.p)
    ensures Unbroken(NextFull(f, d), units, mod)
  {
    HandlingAdds(f, d);
    hide NextFull, Effective, LeftAt, Follows;
    var n, f' := |f.sys.trace|, NextFull(f, d);
    FollowsHandling(f.sys.trace, f'.sys.trace[n], f.works, f'.works[n], mod, units[mod].m.motor.position);
  }

  /**
   Only handled commands move a bolt, whatever fails: in every run each handling of a module finds its bolt
   where the module's previous handling left it.
   */
  lemma {:induction false} BoltsMoveOnlyByCommands(site: Site, units: map<string, Unit>, deeds: seq<Deed>, mod: string)
    requires mod in units
    ensures Unbroken(RunFull(site, units, deeds), units, mod)
  {
    if deeds != [] {
      hide Unbroken, Effective, Next, LeftAt, Follows;
      var past, d := deeds[..|deeds| - 1], deeds[|deeds| - 1];
      BoltsMoveOnlyByCommands(site, units, past, mod);
      var f := RunFull(site, units, past);
      match d
      case Other(a) => OtherKeepsUnbroken(f, units, a, mod);
      case Samples(sampled, distance, t) => SamplesKeepUnbroken(f, units, d, mod);
      case Handles(handler, p, s) => if Effective(f, handler, p) { HandlingKeepsUnbroken(f, units, d, mod); }
    }
  }

  lemma SamplesKeepUnbroken(f: Full, units: map<string, Unit>, d: Deed, mod: string)
    requires HubModel.HubOk(f.sys.hub) && Unbroken(f, units, mod) && d.Samples?
    ensures Unbroken(NextFull(f, d), units, mod)
  {
    hide Update, LeftAt, Follows;
  }

  // ---------- What clients are told about the bolt ----------

  /** What the text claims is so. */
  predicate Honest(text: string, bolt: nat) {
    (text == "STATUS_LOCKED" ==> bolt == 2048) && (text == "STATUS_UNLOCKED" || text == "STATUS_OPEN" ==> bolt == 0)
  }

  lemma DoneIsHonest(reply: string, w: Work)
    requires Resting(w.before) && Done("STATUS", reply, w)
    ensures Honest(reply, w.after)
  {
    StatusTexts();
    ReplyLetters(LOCKED);
    ReplyLetters(UNLOCKED);
    ReplyLetters(OPEN);
    ReplyLetters(UNKNOWN);
    hide Reply, SeenShut;
  }

  /** The four texts differ in their eighth or tenth letter. */
  lemma ReplyLetters(state: DoorState)
    ensures var reply := Reply("STATUS", state);
      && |reply| == (match state case LOCKED => 13 case UNLOCKED => 15 case OPEN => 11 case UNKNOWN => 14)
      && reply[7] == (match state case LOCKED => 'L' case UNLOCKED => 'U' case OPEN => 'O' case UNKNOWN => 'U')
      && reply[9] == (match state case LOCKED => 'C' case UNLOCKED => 'L' case OPEN => 'E' case UNKNOWN => 'K')
  {
  }

  /** A STATUS reply that was cut claims nothing. */
  lemma CutIsHonest(reply: string, shown: string, bolt: nat)
    requires IsReply("STATUS", reply) && shown <= reply && Honest(reply, bolt)
    ensures Honest(shown, bolt)
  {
    var state: DoorState :| reply == Reply("STATUS", state);
    if shown != reply {
      assert |shown| < |reply| <= 15;
      if shown == "STATUS_LOCKED" || shown == "STATUS_OPEN" || shown == "STATUS_UNLOCKED" {
        ProperPrefix(state, shown);
      }
    }
  }

  lemma ProperPrefix(state: DoorState, shown: string)
    requires shown <= Reply("STATUS", state) && shown in {"STATUS_LOCKED", "STATUS_OPEN", "STATUS_UNLOCKED"}
    ensures shown == Reply("STATUS", state)
  {
    var reply := Reply("STATUS", state);
    ReplyLetters(state);
    hide Reply;
    assert forall i | 0 <= i < |shown| :: shown[i] == reply[i];
    assert "STATUS_LOCKED"[7] == 'L' && "STATUS_OPEN"[7] == 'O' && "STATUS_UNLOCKED"[7] == 'U' && "STATUS_UNLOCKED"[9] == 'L';
  }

  /** The client's own command was handled at `j` and did what it should, and what the client is told of STATUS is so. */
  ghost predicate ToldTruly(f: Full, k: nat, j: nat, h: Order, reply: string)
    requires k < |f.sys.trace| && f.sys.trace[k].Answered?
  {
    && j < k && f.sys.trace[j] == Handled(h, reply) && Reports(h, reply) == Some(f.sys.trace[k].order)
    && (exists i, o :: IssuedThenHandled(f.sys.trace, i, j, k, ByBridge(Some(f.sys.trace[k].client)), o, h, reply))
    && j in f.works && Done(h.action, reply, f.works[j])
    && (h.action == "STATUS" ==> Honest(f.sys.trace[k].order.action, f.works[j].after))
  }

  /**
   End to end, from the bolt to the client: in every run in which no pin write fails and all bolts start at
   rest, a client that is answered LOCK or UNLOCK had its command done to the bolt of the module that
   answers; one that asked for STATUS and is told STATUS_LOCKED was answered by a module whose bolt was
   fully extended as it handled the command, STATUS_UNLOCKED and STATUS_OPEN: fully withdrawn.
   */
  lemma {:induction false} AnswersAreTrue(site: Site, units: map<string, Unit>, deeds: seq<Deed>, k: nat)
    requires forall mod | mod in units :: AtRest(units[mod].m)
    requires forall i | 0 <= i < |deeds| :: NoPinFails(deeds[i])
    requires k < |RunFull(site, units, deeds).sys.trace| && RunFull(site, units, deeds).sys.trace[k].Answered?
    requires NotTheHubs(RunFull(site, units, deeds).sys.trace, k, RunFull(site, units, deeds).sys.trace[k].order)
    ensures exists j, h, reply :: ToldTruly(RunFull(site, units, deeds), k, j, h, reply)
  {
    hide RunFull, RunAll, ActsOf, AtRest, NoPinFails, Honest, Done, IsReply, Shown, Seen;
    FullRunIsASystemRun(site, units, deeds);
    CommandsAreDone(site, units, deeds);
    AnswerProvenance(site, ActsOf(site, units, deeds), k);
    var f := RunFull(site, units, deeds);
    var o, h, reply :| OwnAnswer(f.sys.trace, k, o, h, reply);
    var i: nat, j: nat :| IssuedThenHandled(f.sys.trace, i, j, k, ByBridge(Some(f.sys.trace[k].client)), o, h, reply);
    if h.action == "STATUS" {
      DoneIsHonest(reply, f.works[j]);
      CutIsHonest(reply, f.sys.trace[k].order.action, f.works[j].after);
    }
    assert ToldTruly(f, k, j, h, reply);
  }
}
