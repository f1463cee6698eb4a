/**
 What the hub's four tables hold and how one datagram or one liveness check changes them:
 the specification that the imperative `Hub` class is proved against.
 */
module HubModel {
  import opened Prelude
  import opened Wire

  const MAX_DOORS := 8
  const MAX_MODULES := 16
  const MAX_PENDING := 128
  const OFFLINE_TIMEOUT_MS := 10000
  /** Longest module id the 16-byte `module_id` fields can hold. */
  const ID_CHARS := 15

  datatype DoorRec = DoorRec(
    id: string, known: bool, offline: bool,
    d0Open: bool, d0Locked: bool, d1Open: bool, d1Locked: bool,
    lastHeartbeat: int, lastEvent: int, lastOnline: int, heartbeatLine: string,
    addr: Option<Addr>,
    feedbackMs: int, feedbackTarget: string, feedbackAction: string, feedbackId: int)

  /** `id` is the stored, at most 15 character, module id. */
  datatype Endpoint = Endpoint(id: string, addr: Addr)

  /** A slot of the pending table; id 0 marks a free slot and keeps its other, stale, fields. */
  datatype Pending = Pending(id: int, client: Addr, mod: string, issued: int)

  datatype Entry = Entry(time: int, mod: string, line: string)

  /** `log` is everything ever appended to the history ring. */
  datatype HubState = HubState(
    doors: seq<DoorRec>, endpoints: seq<Endpoint>, pending: seq<Pending>, log: seq<Entry>)

  const NO_ADDR := Addr(0, 0)
  const BLANK_DOOR :=
    DoorRec("", false, false, false, false, false, false, 0, 0, 0, "", None, 0, "", "", 0)
  const BLANK_PENDING := Pending(0, NO_ADDR, "", 0)

  function InitialHub(): HubState {
    HubState(seq(MAX_DOORS, _ => BLANK_DOOR), [], seq(MAX_PENDING, _ => BLANK_PENDING), [])
  }

  /** Table sizes, and stored ids that fit their buffers. */
  ghost predicate HubOk(h: HubState) {
    && |h.doors| == 8 && |h.endpoints| <= 16 && |h.pending| == 128
    && (forall i | 0 <= i < |h.doors| :: |h.doors[i].id| <= 15)
    && (forall i | 0 <= i < |h.endpoints| :: |h.endpoints[i].id| <= 15)
    && (forall i | 0 <= i < |h.pending| :: |h.pending[i].mod| <= 15)
  }

  // ---------- Door table ----------

  /** `known && strncmp(...) == 0`: a stored id is shorter than the compared 16 bytes. */
  predicate Owns(d: DoorRec, mod: string) { d.known && d.id == mod }

  /** First record of `mod`, or the table size. */
  function FindDoor(doors: seq<DoorRec>, mod: string): (i: nat)
    ensures i <= |doors| && (i < |doors| ==> Owns(doors[i], mod))
    ensures forall j | 0 <= j < i :: !Owns(doors[j], mod)
  {
    if doors == [] || Owns(doors[0], mod) then 0 else 1 + FindDoor(doors[1..], mod)
  }

  /** First unused record, or the table size. */
  function FreeDoor(doors: seq<DoorRec>): (i: nat)
    ensures i <= |doors| && (i < |doors| ==> !doors[i].known)
    ensures forall j | 0 <= j < i :: doors[j].known
  {
    if doors == [] || !doors[0].known then 0 else 1 + FreeDoor(doors[1..])
  }

  function NewDoor(mod: string): DoorRec {
    BLANK_DOOR.(id := Clip(mod, ID_CHARS), known := true)
  }

  /** The slot `find_or_create_door` returns; the table size stands for NULL. */
  function DoorSlot(doors: seq<DoorRec>, mod: string): (i: nat)
    ensures i <= |doors|
  {
    var i := FindDoor(doors, mod);
    if i < |doors| then i else FreeDoor(doors)
  }

  /** The record in that slot once `find_or_create_door` has returned. */
  function ClaimedDoor(doors: seq<DoorRec>, mod: string): DoorRec
    requires DoorSlot(doors, mod) < |doors|
  {
    var i := DoorSlot(doors, mod);
    if Owns(doors[i], mod) then doors[i] else NewDoor(mod)
  }

  // ---------- Endpoint table ----------

  function FindEndpoint(es: seq<Endpoint>, mod: string): (i: nat)
    ensures i <= |es| && (i < |es| ==> es[i].id == mod)
    ensures forall j | 0 <= j < i :: es[j].id != mod
  {
    if es == [] || es[0].id == mod then 0 else 1 + FindEndpoint(es[1..], mod)
  }

  /** `hub_update_endpoint`: remember where `mod` last spoke from, if there is room. */
  function Learn(es: seq<Endpoint>, mod: string, src: Addr): seq<Endpoint> {
    var i := FindEndpoint(es, mod);
    if i < |es| then es[i := es[i].(addr := src)]
    else if |es| >= MAX_MODULES then es
    else es + [Endpoint(Clip(mod, ID_CHARS), src)]
  }

  function Route(es: seq<Endpoint>, mod: string): Option<Addr> {
    var i := FindEndpoint(es, mod);
    if i < |es| then Some(es[i].addr) else None
  }

  // ---------- Pending client commands ----------

  function FreePending(ps: seq<Pending>): (i: nat)
    ensures i <= |ps| && (i < |ps| ==> ps[i].id == 0)
    ensures forall j | 0 <= j < i :: ps[j].id != 0
  {
    if ps == [] || ps[0].id == 0 then 0 else 1 + FreePending(ps[1..])
  }

  /** First slot with the smallest issue time. */
  function OldestPending(ps: seq<Pending>): (i: nat)
    requires ps != []
    ensures i < |ps|
    ensures forall j | 0 <= j < |ps| :: ps[i].issued <= ps[j].issued
    ensures forall j | 0 <= j < i :: ps[i].issued < ps[j].issued
  {
    if |ps| == 1 then 0
    else
      var k := OldestPending(ps[..|ps| - 1]);
      if ps[|ps| - 1].issued < ps[k].issued then |ps| - 1 else k
  }

  /** A free slot if there is one, otherwise the oldest entry is overwritten. */
  function RegisterSlot(ps: seq<Pending>): (i: nat)
    requires ps != []
    ensures i < |ps|
  {
    if FreePending(ps) < |ps| then FreePending(ps) else OldestPending(ps)
  }

  function Register(ps: seq<Pending>, id: int, mod: string, client: Addr, now: int): seq<Pending>
    requires ps != []
  {
    ps[RegisterSlot(ps) := Pending(id, client, Clip(mod, ID_CHARS), now)]
  }

  function FindPending(ps: seq<Pending>, mod: string, id: int): (i: nat)
    ensures i <= |ps| && (i < |ps| ==> ps[i].id == id && ps[i].mod == mod)
    ensures forall j | 0 <= j < i :: !(ps[j].id == id && ps[j].mod == mod)
  {
    if ps == [] || (ps[0].id == id && ps[0].mod == mod) then 0 else 1 + FindPending(ps[1..], mod, id)
  }

  /** The table after `get_and_clear_client_cmd`. */
  function Clear(ps: seq<Pending>, mod: string, id: int): seq<Pending> {
    var i := FindPending(ps, mod, id);
    if i < |ps| then ps[i := ps[i].(id := 0)] else ps
  }

  /** The client address it returns. */
  function ClientOf(ps: seq<Pending>, mod: string, id: int): Option<Addr> {
    var i := FindPending(ps, mod, id);
    if i < |ps| then Some(ps[i].client) else None
  }

  // ---------- One datagram ----------

  /** The second token of a line decides what the hub does with it. */
  datatype Kind = Command | Feedback | Event | Heartbeat | Other

  function KindOf(word: string): Kind {
    if word == "HEARTBEAT" then Heartbeat
    else if word == "EVENT" then Event
    else if word == "FEEDBACK" then Feedback
    else if word == "COMMAND" then Command
    else Other
  }

  lemma Keywords()
    ensures KindOf("HEARTBEAT") == Heartbeat && KindOf("EVENT") == Event && KindOf("HELLO") == Other
    ensures KindOf("FEEDBACK") == Feedback && KindOf("COMMAND") == Command
  {
  }

  function MakeEntry(time: int, mod: string, line: string): Entry {
    Entry(time, Clip(mod, ID_CHARS), Clip(line, 255))
  }

  /** One token of a heartbeat. */
  function ApplyState(d: DoorRec, tok: string): DoorRec {
    if "D0=" <= tok then
      var (o, l) := ParseDState(tok, d.d0Open, d.d0Locked); d.(d0Open := o, d0Locked := l)
    else if "D1=" <= tok then
      var (o, l) := ParseDState(tok, d.d1Open, d.d1Locked); d.(d1Open := o, d1Locked := l)
    else d
  }

  function ApplyStates(d: DoorRec, toks: seq<string>): DoorRec {
    if toks == [] then d else ApplyState(ApplyStates(d, toks[..|toks| - 1]), toks[|toks| - 1])
  }

  /** `strncat` into the 256-byte heartbeat buffer. */
  function Append(buf: string, s: string): string { Clip(buf + s, 255) }

  /** The tokens collected in that buffer, separated by spaces. */
  function Joined(toks: seq<string>): string {
    if toks == [] then ""
    else
      var head := Joined(toks[..|toks| - 1]);
      Append(if head != "" then Append(head, " ") else head, toks[|toks| - 1])
  }

  function Beat(d: DoorRec, toks: seq<string>, hist: string, t: int): DoorRec {
    var text := Joined(toks);
    ApplyStates(d, toks).(lastHeartbeat := t, heartbeatLine := if text != "" then text else Clip(hist, 255))
  }

  /** What `<what> <state>` of an EVENT says. */
  datatype Change = Nothing | Door(open: bool) | Lock(locked: bool)

  function ReadChange(what: string, state: string): Change {
    if what == "DOOR" && state == "OPEN" then Door(true)
    else if what == "DOOR" && state == "CLOSED" then Door(false)
    else if what == "LOCK" && state == "LOCKED" then Lock(true)
    else if what == "LOCK" && state == "UNLOCKED" then Lock(false)
    else Nothing
  }

  /** The two channels of a module; anything else is ignored. */
  function ApplyEvent(d: DoorRec, which: string, change: Change): DoorRec {
    match change
    case Nothing => d
    case Door(open) =>
      if which == "D0" then d.(d0Open := open) else if which == "D1" then d.(d1Open := open) else d
    case Lock(locked) =>
      if which == "D0" then d.(d0Locked := locked) else if which == "D1" then d.(d1Locked := locked) else d
  }

  /** The record after a line; `d` already has its source address. */
  function DoorAfter(d: DoorRec, toks: seq<string>, t: int): DoorRec
    requires |toks| >= 2
  {
    match KindOf(toks[1])
    case Heartbeat => Beat(d, toks[2..], toks[0] + " " + toks[1], t)
    case Event => (if |toks| >= 5 then ApplyEvent(d, toks[2], ReadChange(toks[3], toks[4])) else d).(lastEvent := t)
    case Feedback =>
      if |toks| >= 5 then
        d.(feedbackTarget := Clip(toks[3], 31), feedbackAction := Clip(toks[4], 31),
           feedbackMs := t, feedbackId := Atoi(toks[2]))
      else d
    case Command => d
    case Other => d.(lastEvent := t)
  }

  /** COMMAND or FEEDBACK with all its fields. */
  predicate Complete(toks: seq<string>, kind: Kind) {
    |toks| >= 5 && KindOf(toks[1]) == kind
  }

  /** Any non-COMMAND line teaches the hub where the module is. */
  function Heard(d: DoorRec, toks: seq<string>, src: Addr): DoorRec
    requires |toks| >= 2
  {
    if KindOf(toks[1]) != Command then d.(addr := Some(src)) else d
  }

  function LogAfter(toks: seq<string>, t: int): seq<Entry>
    requires |toks| >= 2
  {
    [MakeEntry(t, toks[0], Clip(toks[0] + " " + toks[1], 255))]
    + if Complete(toks, Feedback) then
        [MakeEntry(t, toks[0], Clip("FEEDBACK " + PrintInt(Atoi(toks[2])) + " " + toks[3] + " " + toks[4], 255))]
      else []
  }

  function PendingAfter(ps: seq<Pending>, toks: seq<string>, src: Addr, issued: int): seq<Pending>
    requires ps != []
  {
    if Complete(toks, Feedback) then Clear(ps, toks[0], Atoi(toks[2]))
    else if Complete(toks, Command) then Register(ps, Atoi(toks[2]), toks[0], src, issued)
    else ps
  }

  /** What leaves the hub: the relayed FEEDBACK or the forwarded COMMAND, at most one datagram. */
  function Sends(h: HubState, toks: seq<string>, line: string): seq<Out> {
    if Complete(toks, Feedback) then
      match ClientOf(h.pending, toks[0], Atoi(toks[2]))
      case Some(client) =>
        [Out(client, Clip(FeedbackLine(toks[0], Atoi(toks[2]), toks[3], toks[4]), 255))]
      case None => []
    else if Complete(toks, Command) then
      match Route(h.endpoints, toks[0])
      case Some(addr) => [Out(addr, line)]
      case None => []
    else []
  }

  /**
   `handle_line`: the tables and the datagrams sent after one received line. `t` is the clock
   at entry, `issued` the clock when a command is registered.
   */
  function HandleLine(h: HubState, line: string, src: Addr, t: int, issued: int): (HubState, seq<Out>)
    requires h.pending != []
  {
    var toks := Tokens(line, C_BLANKS);
    if |toks| < 2 then (h, [])
    else
      var es := if KindOf(toks[1]) != Command then Learn(h.endpoints, toks[0], src) else h.endpoints;
      var slot := DoorSlot(h.doors, toks[0]);
      if slot == |h.doors| then
        (h.(endpoints := es, log := h.log + [MakeEntry(t, toks[0], "<NO-STATE> (untracked)")]), [])
      else
        var d := DoorAfter(Heard(ClaimedDoor(h.doors, toks[0]), toks, src), toks, t);
        (HubState(h.doors[slot := d], es, PendingAfter(h.pending, toks, src, issued), h.log + LogAfter(toks, t)),
         Sends(h, toks, line))
  }

  // ---------- Liveness check ----------

  predicate Overdue(d: DoorRec, now: int) { now - d.lastHeartbeat > OFFLINE_TIMEOUT_MS }

  function CheckDoor(d: DoorRec, now: int): DoorRec {
    if d.known && Overdue(d, now) && !d.offline then d.(offline := true, lastOnline := now)
    else if d.known && !Overdue(d, now) && d.offline then d.(offline := false)
    else d
  }

  function OfflineLine(mod: string): string { mod + " EVENT SYSTEM OFFLINE\n" }

  function OnlineLine(mod: string): string { mod + " EVENT SYSTEM ONLINE\n" }

  function CheckEntry(d: DoorRec, now: int): seq<Entry> {
    if d.known && Overdue(d, now) && !d.offline then [MakeEntry(now, d.id, OfflineLine(d.id))]
    else if d.known && !Overdue(d, now) && d.offline then [MakeEntry(now, d.id, OnlineLine(d.id))]
    else []
  }

  function CheckEntries(doors: seq<DoorRec>, now: int): seq<Entry> {
    if doors == [] then []
    else CheckEntries(doors[..|doors| - 1], now) + CheckEntry(doors[|doors| - 1], now)
  }

  /** `check_offline_modules`. */
  function CheckOffline(h: HubState, now: int): HubState {
    h.(doors := seq(|h.doors|, i requires 0 <= i < |h.doors| => CheckDoor(h.doors[i], now)),
       log := h.log + CheckEntries(h.doors, now))
  }

  /** Everything but the four door and lock states. */
  ghost predicate SameButStates(d: DoorRec, e: DoorRec) {
    && e.id == d.id && e.known == d.known && e.offline == d.offline && e.addr == d.addr
    && e.lastHeartbeat == d.lastHeartbeat && e.lastEvent == d.lastEvent && e.lastOnline == d.lastOnline
    && e.heartbeatLine == d.heartbeatLine
    && e.feedbackMs == d.feedbackMs && e.feedbackTarget == d.feedbackTarget
    && e.feedbackAction == d.feedbackAction && e.feedbackId == d.feedbackId
  }

  lemma {:induction false} ApplyStatesKeeps(d: DoorRec, toks: seq<string>)
    ensures SameButStates(d, ApplyStates(d, toks))
  {
    hide ParseDState;
    if toks != [] {
      ApplyStatesKeeps(d, toks[..|toks| - 1]);
    }
  }

  lemma EventKeeps(d: DoorRec, which: string, change: Change)
    ensures SameButStates(d, ApplyEvent(d, which, change))
  {
    match change
    case Nothing =>
    case Door(_) => if which == "D0" {} else if which == "D1" {}
    case Lock(_) => if which == "D0" {} else if which == "D1" {}
  }

  /**
   What a line leaves alone in a record: its owner, its address, the offline flag; the heartbeat
   time unless it is a HEARTBEAT; the acknowledgement fields unless it is a complete FEEDBACK.
   */
  ghost predicate Keeps(d: DoorRec, e: DoorRec, toks: seq<string>, t: int)
    requires |toks| >= 2
  {
    && e.id == d.id && e.known == d.known && e.addr == d.addr && e.offline == d.offline
    && e.lastHeartbeat == (if KindOf(toks[1]) == Heartbeat then t else d.lastHeartbeat)
    && (!Complete(toks, Feedback) ==> e.feedbackId == d.feedbackId
                                      && e.feedbackTarget == d.feedbackTarget && e.feedbackAction == d.feedbackAction)
  }

  lemma DoorAfterKeeps(d: DoorRec, toks: seq<string>, t: int)
    requires |toks| >= 2
    ensures Keeps(d, DoorAfter(d, toks, t), toks, t)
  {
    hide KindOf, ApplyStates, Joined, ApplyEvent, ReadChange;
    match KindOf(toks[1])
    case Heartbeat => ApplyStatesKeeps(d, toks[2..]);
    case Event => if |toks| >= 5 { EventKeeps(d, toks[2], ReadChange(toks[3], toks[4])); }
    case Feedback =>
    case Command =>
    case Other =>
  }

  lemma LearnKeepsBounds(es: seq<Endpoint>, mod: string, src: Addr)
    requires |es| <= MAX_MODULES && forall i | 0 <= i < |es| :: |es[i].id| <= ID_CHARS
    ensures var es' := Learn(es, mod, src);
      |es'| <= MAX_MODULES && forall i | 0 <= i < |es'| :: |es'[i].id| <= ID_CHARS
  {
  }

  lemma PendingKeepsBounds(ps: seq<Pending>, toks: seq<string>, src: Addr, issued: int)
    requires ps != [] && forall i | 0 <= i < |ps| :: |ps[i].mod| <= ID_CHARS
    ensures var ps' := PendingAfter(ps, toks, src, issued);
      |ps'| == |ps| && forall i | 0 <= i < |ps'| :: |ps'[i].mod| <= ID_CHARS
  {
  }

  /** A line keeps the table sizes and the bounds on stored ids. */
  lemma LineKeepsHubOk(h: HubState, line: string, src: Addr, t: int, issued: int)
    requires HubOk(h)
    ensures HubOk(HandleLine(h, line, src, t, issued).0)
  {
    var toks := Tokens(line, C_BLANKS);
    var h' := HandleLine(h, line, src, t, issued).0;
    if |toks| >= 2 {
      LearnKeepsBounds(h.endpoints, toks[0], src);
      PendingKeepsBounds(h.pending, toks, src, issued);
      if DoorSlot(h.doors, toks[0]) < |h.doors| {
        var d := Heard(ClaimedDoor(h.doors, toks[0]), toks, src);
        DoorAfterKeeps(d, toks, t);
        assert h'.doors == h.doors[DoorSlot(h.doors, toks[0]) := DoorAfter(d, toks, t)];
        assert |d.id| <= ID_CHARS;
      }
    }
  }

  lemma CheckKeepsHubOk(h: HubState, now: int)
    requires HubOk(h)
    ensures HubOk(CheckOffline(h, now))
  {
  }
}
