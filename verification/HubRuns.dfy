/**
 What holds in every run of the hub: any sequence of received datagrams and liveness checks
 starting from the tables `hub_udp_init` leaves.
 */
module HubRuns {
  import opened Prelude
  import opened Wire
  import opened HubModel
  import opened HubTables
  import opened HubLog

  /** One critical section of the listener thread, with the clock values it reads. */
  datatype Ev =
    | Arrive(line: string, src: Addr, t: int, issued: int)
    | Check(now: int)

  ghost function Step(h: HubState, e: Ev): (HubState, seq<Out>)
    requires HubOk(h)
    ensures HubOk(Step(h, e).0)
  {
    match e
    case Arrive(line, src, t, issued) =>
      LineKeepsHubOk(h, line, src, t, issued);
      HandleLine(h, line, src, t, issued)
    case Check(now) =>
      CheckKeepsHubOk(h, now);
      (CheckOffline(h, now), [])
  }

  /** The tables after a run. */
  ghost function Exec(evs: seq<Ev>): (h: HubState)
    ensures HubOk(h)
  {
    if evs == [] then InitialHub() else Step(Exec(evs[..|evs| - 1]), evs[|evs| - 1]).0
  }

  function Toks(e: Ev): seq<string>
    requires e.Arrive?
  {
    Tokens(e.line, C_BLANKS)
  }

  /** A line that names a module and a type; the hub ignores all others. */
  predicate Names(e: Ev) { e.Arrive? && |Toks(e)| >= 2 }

  /** Every module id fits the 16-byte buffers: what a caller can check before sending. */
  ghost predicate ShortIds(evs: seq<Ev>) {
    forall i | 0 <= i < |evs| && Names(evs[i]) :: |Toks(evs[i])[0]| <= ID_CHARS
  }

  lemma CheckDoorsLookup(h: HubState, now: int, x: string)
    ensures Lookup(CheckOffline(h, now).doors, x) ==
      match Lookup(h.doors, x) case Some(d) => Some(CheckDoor(d, now)) case None => None
  {
    var doors' := CheckOffline(h, now).doors;
    assert forall j | 0 <= j < |h.doors| :: Owns(doors'[j], x) <==> Owns(h.doors[j], x);
    assert FindDoor(doors', x) == FindDoor(h.doors, x);
  }

  // ---------- Door table stability ----------

  lemma StepKeepsUnique(h: HubState, e: Ev)
    requires HubOk(h) && Unique(h.doors) && (Names(e) ==> |Toks(e)[0]| <= ID_CHARS)
    ensures Unique(Step(h, e).0.doors)
  {
    hide FindDoor, FreeDoor, Lookup, DoorAfter, DoorsAfter;
    if e.Arrive? {
      LineDoors(h, e.line, e.src, e.t, e.issued);
      if Names(e) {
        LineTouchesOneDoor(h.doors, Toks(e), e.src, e.t, "");
      }
    }
  }

  /** With ids that fit, the eight slots always hold at most one record per module. */
  lemma {:induction false} OneRecordPerModule(evs: seq<Ev>)
    requires ShortIds(evs)
    ensures Unique(Exec(evs).doors)
  {
    hide Step, Toks;
    if evs != [] {
      OneRecordPerModule(evs[..|evs| - 1]);
      StepKeepsUnique(Exec(evs[..|evs| - 1]), evs[|evs| - 1]);
    }
  }

  lemma StepKeepsOwner(h: HubState, e: Ev, i: nat)
    requires HubOk(h) && i < MAX_DOORS && h.doors[i].known
    ensures var d' := Step(h, e).0.doors[i]; d'.known && d'.id == h.doors[i].id
  {
    hide FindDoor, FreeDoor, DoorAfter, DoorsAfter;
    match e
    case Check(now) =>
    case Arrive(line, src, t, issued) =>
      LineDoors(h, line, src, t, issued);
      if Names(e) {
        SlotsKeepOwners(h.doors, Toks(e), src, t, i);
      }
  }

  /** A slot in use keeps its owner for the rest of the run, so a record pointer stays good. */
  lemma {:induction false} RecordPointersStayGood(evs: seq<Ev>, more: seq<Ev>, i: nat)
    requires i < MAX_DOORS && Exec(evs).doors[i].known
    ensures var d := Exec(evs + more).doors[i]; d.known && d.id == Exec(evs).doors[i].id
    decreases |more|
  {
    hide Step;
    if more == [] {
      assert evs + more == evs;
    } else {
      var past, e := more[..|more| - 1], more[|more| - 1];
      RecordPointersStayGood(evs, past, i);
      assert (evs + more)[..|evs + more| - 1] == evs + past;
      assert (evs + more)[|evs + more| - 1] == e;
      StepKeepsOwner(Exec(evs + past), e, i);
    }
  }

  /** Records belong to modules whose id is a word: it was the first token of a line. */
  ghost predicate WordIds(doors: seq<DoorRec>) {
    forall i | 0 <= i < |doors| && doors[i].known :: Word(doors[i].id, C_BLANKS)
  }

  lemma ClipWord(w: string, n: nat)
    requires Word(w, C_BLANKS) && n > 0
    ensures Word(Clip(w, n), C_BLANKS)
  {
  }

  lemma LineKeepsWordIds(doors: seq<DoorRec>, toks: seq<string>, src: Addr, t: int)
    requires |toks| >= 2 && Word(toks[0], C_BLANKS) && WordIds(doors)
    ensures WordIds(DoorsAfter(doors, toks, src, t))
  {
    ClipWord(toks[0], ID_CHARS);
    hide Word, DoorAfter, FindDoor, FreeDoor;
    if DoorSlot(doors, toks[0]) < |doors| {
      DoorAfterKeeps(Heard(ClaimedDoor(doors, toks[0]), toks, src), toks, t);
    }
  }

  lemma {:induction false} KnownIdsAreWords(evs: seq<Ev>)
    ensures WordIds(Exec(evs).doors)
  {
    if evs != [] {
      var past, e := evs[..|evs| - 1], evs[|evs| - 1];
      KnownIdsAreWords(past);
      hide HandleLine, DoorsAfter, Tokens, Word;
      match e
      case Check(now) =>
      case Arrive(line, src, t, issued) =>
        LineDoors(Exec(past), line, src, t, issued);
        if Names(e) {
          TokensAreWords(line, C_BLANKS);
          assert Toks(e)[0] in Toks(e);
          LineKeepsWordIds(Exec(past).doors, Toks(e), src, t);
        }
    }
  }

  // ---------- The two routing tables ----------

  /** Where the module last spoke from: the source of its latest non-COMMAND line. */
  function LatestSource(evs: seq<Ev>, mod: string): Option<Addr> {
    if evs == [] then None
    else NewLatest(evs[|evs| - 1], mod, LatestSource(evs[..|evs| - 1], mod))
  }

  ghost predicate DoorsFull(h: HubState) { FreeDoor(h.doors) == |h.doors| }

  ghost predicate EndpointsFull(h: HubState) { |h.endpoints| == MAX_MODULES }

  /** A door record holds the latest source; a module can go without a record only when the table is full. */
  ghost predicate RecordRight(h: HubState, mod: string, latest: Option<Addr>) {
    match Lookup(h.doors, mod)
    case Some(d) => d.addr == latest
    case None => latest == None || DoorsFull(h)
  }

  /** Likewise for the endpoint table. */
  ghost predicate EndpointRight(h: HubState, mod: string, latest: Option<Addr>) {
    Route(h.endpoints, mod) == latest || (Route(h.endpoints, mod) == None && EndpointsFull(h))
  }

  lemma DoorsStayFull(h: HubState, e: Ev)
    requires HubOk(h) && DoorsFull(h)
    ensures DoorsFull(Step(h, e).0)
  {
    var doors' := Step(h, e).0.doors;
    forall i | 0 <= i < |h.doors|
      ensures doors'[i].known
    {
      assert h.doors[i].known;
      StepKeepsOwner(h, e, i);
    }
  }

  lemma LineEndpoints(h: HubState, e: Ev)
    requires HubOk(h) && e.Arrive?
    ensures Step(h, e).0.endpoints ==
      if Names(e) && KindOf(Toks(e)[1]) != Command then Learn(h.endpoints, Toks(e)[0], e.src) else h.endpoints
  {
  }

  function NewLatest(e: Ev, mod: string, latest: Option<Addr>): Option<Addr> {
    if Names(e) && Toks(e)[0] == mod && KindOf(Toks(e)[1]) != Command then Some(e.src) else latest
  }

  lemma StepKeepsEndpoint(h: HubState, e: Ev, mod: string, latest: Option<Addr>)
    requires HubOk(h) && EndpointRight(h, mod, latest) && (Names(e) ==> |Toks(e)[0]| <= ID_CHARS)
    ensures EndpointRight(Step(h, e).0, mod, NewLatest(e, mod, latest))
  {
    hide HandleLine, KindOf, FindEndpoint;
    if e.Arrive? {
      LineEndpoints(h, e);
      if Names(e) {
        LearnOneRoute(h.endpoints, Toks(e)[0], e.src, mod);
      }
    }
  }

  lemma StepKeepsRecord(h: HubState, e: Ev, mod: string, latest: Option<Addr>)
    requires HubOk(h) && RecordRight(h, mod, latest) && (Names(e) ==> |Toks(e)[0]| <= ID_CHARS)
    ensures RecordRight(Step(h, e).0, mod, NewLatest(e, mod, latest))
  {
    hide HandleLine, KindOf, FindDoor, DoorAfter, DoorsAfter;
    if DoorsFull(h) {
      DoorsStayFull(h, e);
    }
    match e
    case Check(now) => CheckDoorsLookup(h, now, mod);
    case Arrive(line, src, t, issued) =>
      if Names(e) {
        var toks := Toks(e);
        LineDoors(h, line, src, t, issued);
        LineTouchesOneDoor(h.doors, toks, src, t, mod);
        if DoorSlot(h.doors, toks[0]) < |h.doors| {
          DoorAfterKeeps(Heard(ClaimedDoor(h.doors, toks[0]), toks, src), toks, t);
        }
      } else {
        IgnoredLine(h, e);
      }
  }

  /**
   In every run with ids that fit, a record's `last_addr` and an endpoint's address are both the
   source of that module's latest non-COMMAND line. So the two tables agree wherever both answer.
   */
  lemma {:induction false} RoutingTablesAgree(evs: seq<Ev>, mod: string)
    requires ShortIds(evs)
    ensures RecordRight(Exec(evs), mod, LatestSource(evs, mod))
    ensures EndpointRight(Exec(evs), mod, LatestSource(evs, mod))
  {
    hide Step, KindOf, Toks, NewLatest;
    if evs != [] {
      var past, e := evs[..|evs| - 1], evs[|evs| - 1];
      RoutingTablesAgree(past, mod);
      StepKeepsRecord(Exec(past), e, mod, LatestSource(past, mod));
      StepKeepsEndpoint(Exec(past), e, mod, LatestSource(past, mod));
    } else {
      assert !Owns(BLANK_DOOR, mod);
    }
  }

  /**
   Routing over whole runs: a complete COMMAND goes, unchanged, to the source of its module's latest line, or
   nowhere; and it goes there unless that was never heard or one of the two tables had no room for it.
   */
  lemma {:induction false} CommandsGoToTheLatestSource(evs: seq<Ev>, e: Ev)
    requires ShortIds(evs) && e.Arrive? && Complete(Toks(e), Command) && |Toks(e)[0]| <= ID_CHARS
    ensures var h, mod := Exec(evs), Toks(e)[0];
      var sent, latest := Step(h, e).1, LatestSource(evs, mod);
      && (sent != [] ==> latest.Some? && sent == [Out(latest.value, e.line)])
      && (latest.Some? && !DoorsFull(h) && !EndpointsFull(h) ==> sent != [])
  {
    RoutingTablesAgree(evs, Toks(e)[0]);
    CommandSends(Exec(evs), e);
    hide Step, Exec, LatestSource, FindDoor, FindEndpoint, Toks;
  }

  lemma CommandSends(h: HubState, e: Ev)
    requires HubOk(h) && e.Arrive? && Complete(Toks(e), Command)
    ensures Step(h, e).1 ==
      if DoorSlot(h.doors, Toks(e)[0]) == |h.doors| then []
      else match Route(h.endpoints, Toks(e)[0]) case Some(addr) => [Out(addr, e.line)] case None => []
  {
    hide FindDoor, DoorAfter, Learn, PendingAfter, LogAfter, Route;
  }

  /** A COMMAND never changes where the hub thinks a module lives. */
  lemma CommandsTeachNoRoute(h: HubState, e: Ev, mod: string)
    requires HubOk(h) && Names(e) && KindOf(Toks(e)[1]) == Command && |Toks(e)[0]| <= ID_CHARS
    ensures var h' := Step(h, e).0;
      && h'.endpoints == h.endpoints
      && match Lookup(h'.doors, mod)
         case Some(d') => d'.addr == (match Lookup(h.doors, mod) case Some(d) => d.addr case None => None)
         case None => Lookup(h.doors, mod) == None
  {
    LineDoors(h, e.line, e.src, e.t, e.issued);
    LineTouchesOneDoor(h.doors, Toks(e), e.src, e.t, mod);
  }

  // ---------- Conservation of client registrations ----------

  /** The line reaches the pending table: it names a module that has, or gets, a record. */
  ghost predicate Reaches(h: HubState, e: Ev, kind: Kind) {
    e.Arrive? && Complete(Toks(e), kind) && DoorSlot(h.doors, Toks(e)[0]) < |h.doors|
  }

  ghost function NewRegistration(h: HubState, e: Ev): multiset<Pending> {
    if Reaches(h, e, Command) then
      Count(Pending(Atoi(Toks(e)[2]), e.src, Clip(Toks(e)[0], ID_CHARS), e.issued))
    else multiset{}
  }

  ghost function NewEviction(h: HubState, e: Ev): multiset<Pending>
    requires HubOk(h)
  {
    if Reaches(h, e, Command) then Evicted(h.pending) else multiset{}
  }

  ghost function NewRelay(h: HubState, e: Ev): multiset<Pending> {
    if Reaches(h, e, Feedback) then Relayed(h.pending, Toks(e)[0], Atoi(Toks(e)[2])) else multiset{}
  }

  /** All registrations of a run, and what became of them. */
  ghost function Registrations(evs: seq<Ev>): multiset<Pending> {
    if evs == [] then multiset{}
    else Registrations(evs[..|evs| - 1]) + NewRegistration(Exec(evs[..|evs| - 1]), evs[|evs| - 1])
  }

  ghost function Evictions(evs: seq<Ev>): multiset<Pending> {
    if evs == [] then multiset{}
    else Evictions(evs[..|evs| - 1]) + NewEviction(Exec(evs[..|evs| - 1]), evs[|evs| - 1])
  }

  ghost function Relays(evs: seq<Ev>): multiset<Pending> {
    if evs == [] then multiset{}
    else Relays(evs[..|evs| - 1]) + NewRelay(Exec(evs[..|evs| - 1]), evs[|evs| - 1])
  }

  lemma StepConserves(h: HubState, e: Ev)
    requires HubOk(h)
    ensures Live(Step(h, e).0.pending) + NewEviction(h, e) + NewRelay(h, e) == Live(h.pending) + NewRegistration(h, e)
  {
    if Reaches(h, e, Command) {
      RegisterConserves(h.pending, Atoi(Toks(e)[2]), Toks(e)[0], e.src, e.issued);
    } else if Reaches(h, e, Feedback) {
      ClearConserves(h.pending, Toks(e)[0], Atoi(Toks(e)[2]));
    } else {
      assert Step(h, e).0.pending == h.pending;
    }
  }

  lemma {:induction false} NothingLiveAtFirst(n: nat)
    ensures Live(seq(n, _ => BLANK_PENDING)) == multiset{}
  {
    if n > 0 {
      NothingLiveAtFirst(n - 1);
      var ps := seq(n, _ => BLANK_PENDING);
      assert ps[..n - 1] == seq(n - 1, _ => BLANK_PENDING);
    }
  }

  /**
   In every run, the registrations with a nonzero id split exactly into those relayed, those
   evicted and those still pending; none is relayed twice or lost otherwise.
   */
  lemma {:induction false} RegistrationsConserved(evs: seq<Ev>)
    ensures Registrations(evs) == Relays(evs) + Evictions(evs) + Live(Exec(evs).pending)
  {
    hide Step, NewRegistration, NewEviction, NewRelay, Live;
    if evs == [] {
      NothingLiveAtFirst(MAX_PENDING);
    } else {
      var past, e := evs[..|evs| - 1], evs[|evs| - 1];
      RegistrationsConserved(past);
      StepConserves(Exec(past), e);
      MultisetLedger(Registrations(past), Relays(past), Evictions(past), Live(Exec(past).pending), Live(Exec(evs).pending),
                     NewRegistration(Exec(past), e), NewRelay(Exec(past), e), NewEviction(Exec(past), e));
    }
  }

  /** A FEEDBACK with a nonzero id leaves the hub exactly when it consumes a registration, and then for its client. */
  lemma RelaysGoToTheRegisteredClient(h: HubState, e: Ev)
    requires HubOk(h) && Reaches(h, e, Feedback) && Atoi(Toks(e)[2]) != 0
    ensures var sent := Step(h, e).1;
      if sent == [] then NewRelay(h, e) == multiset{}
      else |sent| == 1 && exists p ::
        NewRelay(h, e) == multiset{p} && p.client == sent[0].dst && p.id == Atoi(Toks(e)[2]) && p.mod == Toks(e)[0]
  {
    RelayConsumes(h.pending, Toks(e)[0], Atoi(Toks(e)[2]));
  }

  // ---------- OFFLINE and ONLINE ----------

  /** OFFLINE, ONLINE, OFFLINE, ... */
  predicate Alternates(s: seq<bool>) {
    forall i | 0 <= i < |s| :: s[i] <==> i % 2 == 0
  }

  /** What one check records about `mod`, given the record it finds. */
  function CheckVerdict(d: Option<DoorRec>, now: int): seq<bool> {
    match d
    case None => []
    case Some(d) =>
      if d.known && now - d.lastHeartbeat > 10000 && !d.offline then [true]
      else if d.known && now - d.lastHeartbeat <= 10000 && d.offline then [false]
      else []
  }

  lemma {:induction false} OneEntryVerdict(d: DoorRec, now: int, mod: string)
    requires |d.id| <= ID_CHARS && (d.known ==> Word(d.id, C_BLANKS))
    ensures Liveness(CheckEntry(d, now), mod) == if d.id == mod then CheckVerdict(Some(d), now) else []
  {
    if CheckEntry(d, now) != [] {
      WhatChecksLog(d, now);
      hide Words, Word;
      var x := CheckEntry(d, now)[0];
      assert CheckEntry(d, now) == [x];
      LivenessOfOne(x, mod);
      assert "OFFLINE"[1] == 'F' && "ONLINE"[1] == 'N';
    }
  }

  /** The map read from the back: the last record, or else one before it. */
  lemma LookupLast(doors: seq<DoorRec>, mod: string)
    requires Unique(doors) && doors != []
    ensures var n := |doors| - 1;
      && Unique(doors[..n])
      && (Owns(doors[n], mod) ==> Lookup(doors[..n], mod) == None && Lookup(doors, mod) == Some(doors[n]))
      && (!Owns(doors[n], mod) ==> Lookup(doors, mod) == Lookup(doors[..n], mod))
  {
    var n := |doors| - 1;
    var front := doors[..n];
    assert forall j | 0 <= j < n :: front[j] == doors[j];
    if FindDoor(front, mod) < n {
      assert FindDoor(doors, mod) == FindDoor(front, mod);
    } else {
      assert forall j | 0 <= j < n :: !Owns(doors[j], mod);
    }
  }

  /** With one record per module, a check records one verdict per module. */
  lemma {:induction false} CheckRecordsOneVerdict(doors: seq<DoorRec>, now: int, mod: string)
    requires Unique(doors) && WordIds(doors) && forall i | 0 <= i < |doors| :: |doors[i].id| <= ID_CHARS
    ensures Liveness(CheckEntries(doors, now), mod) == CheckVerdict(Lookup(doors, mod), now)
  {
    if doors != [] {
      hide Liveness, CheckEntry, Word;
      var n := |doors| - 1;
      var front := doors[..n];
      CheckRecordsOneVerdict(front, now, mod);
      LivenessSplit(CheckEntries(front, now), CheckEntry(doors[n], now), mod);
      OneEntryVerdict(doors[n], now, mod);
      LookupLast(doors, mod);
    }
  }

  /** The offline flag tells which entry came last. */
  ghost predicate LivenessRight(h: HubState, mod: string) {
    var s := Liveness(h.log, mod);
    && Alternates(s)
    && match Lookup(h.doors, mod)
       case Some(d) => d.offline <==> |s| % 2 == 1
       case None => s == []
  }

  lemma IgnoredLine(h: HubState, e: Ev)
    requires HubOk(h) && e.Arrive? && !Names(e)
    ensures Step(h, e) == (h, [])
  {
  }

  lemma CheckStep(h: HubState, now: int)
    requires HubOk(h)
    ensures Step(h, Check(now)).0 == CheckOffline(h, now)
  {
  }

  /** A line writes no liveness entry and keeps every offline flag; a new record starts online. */
  lemma LineLeavesLiveness(h: HubState, e: Ev, mod: string)
    requires HubOk(h) && Names(e) && |Toks(e)[0]| <= ID_CHARS
    ensures Liveness(Step(h, e).0.log, mod) == Liveness(h.log, mod)
    ensures match Lookup(Step(h, e).0.doors, mod)
      case Some(d') => d'.offline == (match Lookup(h.doors, mod) case Some(d) => d.offline case None => false)
      case None => Lookup(h.doors, mod) == None
  {
    hide FindDoor, FreeDoor, DoorAfter, LogAfter, Liveness, MakeEntry;
    var toks := Toks(e);
    TokensAreWords(e.line, C_BLANKS);
    LinesAddNoLiveness(toks, e.t, mod);
    LineLog(h, e.line, e.src, e.t, e.issued);
    LivenessSplit(h.log, LogAfter(toks, e.t), mod);
    LivenessSplit(h.log, [MakeEntry(e.t, toks[0], UNTRACKED)], mod);
    LineDoors(h, e.line, e.src, e.t, e.issued);
    LineTouchesOneDoor(h.doors, toks, e.src, e.t, mod);
    if DoorSlot(h.doors, toks[0]) < |h.doors| {
      DoorAfterKeeps(Heard(ClaimedDoor(h.doors, toks[0]), toks, e.src), toks, e.t);
    }
    hide HandleLine;
  }

  lemma LineKeepsLiveness(h: HubState, e: Ev, mod: string)
    requires HubOk(h) && LivenessRight(h, mod) && Names(e) && |Toks(e)[0]| <= ID_CHARS
    ensures LivenessRight(Step(h, e).0, mod)
  {
    hide Step, Lookup, Liveness;
    LineLeavesLiveness(h, e, mod);
  }

  lemma LookupKnown(doors: seq<DoorRec>, mod: string)
    ensures match Lookup(doors, mod) case Some(d) => d.known && d.id == mod case None => true
  {
  }

  lemma CheckAdds(h: HubState, now: int, mod: string)
    requires HubOk(h) && Unique(h.doors) && WordIds(h.doors)
    ensures Liveness(Step(h, Check(now)).0.log, mod) == Liveness(h.log, mod) + CheckVerdict(Lookup(h.doors, mod), now)
  {
    hide Liveness, CheckEntries, Lookup, WordIds, Unique, CheckVerdict;
    CheckStep(h, now);
    LivenessSplit(h.log, CheckEntries(h.doors, now), mod);
    CheckRecordsOneVerdict(h.doors, now, mod);
  }

  lemma CheckKeepsLiveness(h: HubState, now: int, mod: string)
    requires HubOk(h) && Unique(h.doors) && WordIds(h.doors) && LivenessRight(h, mod)
    ensures LivenessRight(Step(h, Check(now)).0, mod)
  {
    hide Liveness, CheckEntries, Lookup, WordIds, Unique;
    CheckAdds(h, now, mod);
    CheckStep(h, now);
    CheckDoorsLookup(h, now, mod);
    LookupKnown(h.doors, mod);
  }

  /** In every run with ids that fit, each module's entries alternate, starting with OFFLINE. */
  lemma {:induction false} OfflineAndOnlineAlternate(evs: seq<Ev>, mod: string)
    requires ShortIds(evs)
    ensures LivenessRight(Exec(evs), mod)
  {
    hide HandleLine, CheckOffline, Toks, WordIds;
    if evs == [] {
      assert !Owns(BLANK_DOOR, mod);
    } else {
      var past, e := evs[..|evs| - 1], evs[|evs| - 1];
      OfflineAndOnlineAlternate(past, mod);
      OneRecordPerModule(past);
      KnownIdsAreWords(past);
      if Names(e) {
        LineKeepsLiveness(Exec(past), e, mod);
      } else if e.Check? {
        CheckKeepsLiveness(Exec(past), e.now, mod);
      } else {
        IgnoredLine(Exec(past), e);
      }
    }
  }

  predicate IsHeartbeatOf(e: Ev, mod: string) {
    Names(e) && Toks(e)[0] == mod && KindOf(Toks(e)[1]) == Heartbeat
  }

  lemma QuietStep(h: HubState, e: Ev, mod: string)
    requires HubOk(h) && (Names(e) ==> |Toks(e)[0]| <= ID_CHARS)
    requires Lookup(h.doors, mod).Some? && !IsHeartbeatOf(e, mod)
    ensures var d' := Lookup(Step(h, e).0.doors, mod);
      d'.Some? && d'.value.lastHeartbeat == Lookup(h.doors, mod).value.lastHeartbeat
  {
    hide FreeDoor, KindOf, DoorAfter;
    match e
    case Check(now) => CheckDoorsLookup(h, now, mod);
    case Arrive(line, src, t, issued) =>
      LineDoors(h, line, src, t, issued);
      if Names(e) {
        LineTouchesOneDoor(h.doors, Toks(e), src, t, mod);
        if DoorSlot(h.doors, Toks(e)[0]) < |h.doors| {
          DoorAfterKeeps(Heard(ClaimedDoor(h.doors, Toks(e)[0]), Toks(e), src), Toks(e), t);
        }
      }
  }

  /** Without a HEARTBEAT from the module, its `last_heartbeat_ms` stands still. */
  lemma {:induction false} QuietModule(evs: seq<Ev>, more: seq<Ev>, mod: string)
    requires ShortIds(evs + more) && Lookup(Exec(evs).doors, mod).Some?
    requires forall i | 0 <= i < |more| :: !IsHeartbeatOf(more[i], mod)
    ensures Lookup(Exec(evs + more).doors, mod).Some?
    ensures Lookup(Exec(evs + more).doors, mod).value.lastHeartbeat == Lookup(Exec(evs).doors, mod).value.lastHeartbeat
    decreases |more|
  {
    hide Step, Toks, IsHeartbeatOf, Lookup;
    if more == [] {
      assert evs + more == evs;
    } else {
      var past, e := more[..|more| - 1], more[|more| - 1];
      assert (evs + more)[..|evs + more| - 1] == evs + past;
      assert (evs + more)[|evs + more| - 1] == e;
      assert forall i | 0 <= i < |evs + past| :: (evs + past)[i] == (evs + more)[i];
      QuietModule(evs, past, mod);
      QuietStep(Exec(evs + past), e, mod);
    }
  }

  /** The check at position `i` added this entry about `mod` to the history. */
  ghost predicate Recorded(evs: seq<Ev>, i: nat, mod: string, offline: bool) {
    && i < |evs| && evs[i].Check?
    && Liveness(Exec(evs[..i + 1]).log, mod) == Liveness(Exec(evs[..i]).log, mod) + [offline]
  }

  lemma RecordedVerdict(evs: seq<Ev>, i: nat, mod: string, offline: bool)
    requires ShortIds(evs) && Recorded(evs, i, mod, offline)
    ensures CheckVerdict(Lookup(Exec(evs[..i]).doors, mod), evs[i].now) == [offline]
  {
    hide Step, CheckVerdict, Liveness, Lookup, WordIds, Unique, ShortIds;
    var past := evs[..i];
    assert evs[..i + 1][..i] == past;
    ShortBeginning(evs, i);
    OneRecordPerModule(past);
    KnownIdsAreWords(past);
    CheckAdds(Exec(past), evs[i].now, mod);
    SameEnds(Liveness(Exec(past).log, mod), CheckVerdict(Lookup(Exec(past).doors, mod), evs[i].now), [offline]);
  }

  lemma ShortBeginning(evs: seq<Ev>, i: nat)
    requires ShortIds(evs) && i <= |evs|
    ensures ShortIds(evs[..i])
  {
  }

  lemma SameEnds<T>(a: seq<T>, b: seq<T>, c: seq<T>)
    requires a + b == a + c
    ensures b == c
  {
    assert b == (a + b)[|a|..] && c == (a + c)[|a|..];
  }

  /** Between an OFFLINE and a later ONLINE of a module, the hub handled a HEARTBEAT from it. */
  lemma OnlineNeedsAHeartbeat(evs: seq<Ev>, i: nat, j: nat, mod: string)
    requires ShortIds(evs) && i < j < |evs|
    requires Recorded(evs, i, mod, true) && Recorded(evs, j, mod, false)
    requires evs[i].now <= evs[j].now
    ensures exists k | i < k < j :: IsHeartbeatOf(evs[k], mod)
  {
    hide Exec, Tokens, Lookup, Liveness;
    var more := evs[i..j];
    RecordedVerdict(evs, i, mod, true);
    RecordedVerdict(evs, j, mod, false);
    assert evs[..i] + more == evs[..j];
    ShortBeginning(evs, j);
    hide ShortIds;
    if forall k | i < k < j :: !IsHeartbeatOf(evs[k], mod) {
      forall k | 0 <= k < |more|
        ensures !IsHeartbeatOf(more[k], mod)
      {
        assert more[k] == evs[i + k];
      }
      QuietModule(evs[..i], more, mod);
      assert false;
    }
  }

  /** Two lines from a module that never sends a HEARTBEAT, then a check. */
  function TwoHellosThenCheck(mod: string, src: Addr): seq<Ev> {
    [Arrive(HelloLine(mod), src, 0, 0), Arrive(HelloLine(mod), src, 0, 0), Check(OFFLINE_TIMEOUT_MS + 1)]
  }

  lemma {:induction false} UnknownDoorsNoVerdicts(doors: seq<DoorRec>, k: nat, now: int)
    requires k <= |doors| && forall i | k <= i < |doors| :: !doors[i].known
    ensures CheckEntries(doors, now) == CheckEntries(doors[..k], now)
    decreases |doors|
  {
    hide CheckEntries, CheckEntry;
    if k == |doors| {
      assert doors[..k] == doors;
    } else {
      var n := |doors| - 1;
      UnknownDoorLast(doors, now);
      assert forall i | k <= i < n :: doors[..n][i] == doors[i];
      UnknownDoorsNoVerdicts(doors[..n], k, now);
      assert doors[..n][..k] == doors[..k];
    }
  }

  lemma UnknownDoorLast(doors: seq<DoorRec>, now: int)
    requires doors != [] && !doors[|doors| - 1].known
    ensures CheckEntries(doors, now) == CheckEntries(doors[..|doors| - 1], now)
  {
    assert CheckEntry(doors[|doors| - 1], now) == [];
    hide CheckEntry;
  }

  /** Two records of one id make a check record OFFLINE twice. */
  lemma {:induction false} TwoRecordsTwoVerdicts(doors: seq<DoorRec>, id: string, now: int)
    requires |doors| >= 2 && |id| <= ID_CHARS && Word(id, C_BLANKS)
    requires forall i | 0 <= i < 2 :: doors[i].known && doors[i].id == id && Overdue(doors[i], now) && !doors[i].offline
    requires forall i | 2 <= i < |doors| :: !doors[i].known
    ensures Liveness(CheckEntries(doors, now), id) == [true, true]
  {
    UnknownDoorsNoVerdicts(doors, 2, now);
    OneEntryVerdict(doors[0], now, id);
    OneEntryVerdict(doors[1], now, id);
    hide CheckEntry, Liveness, Word;
    var front := doors[..2];
    assert front[..1][..0] == [];
    assert CheckEntries(front[..1], now) == CheckEntry(doors[0], now);
    assert CheckEntries(front, now) == CheckEntry(doors[0], now) + CheckEntry(doors[1], now);
    LivenessSplit(CheckEntry(doors[0], now), CheckEntry(doors[1], now), id);
  }

  /** A HELLO under a new long id claims the first free slot for the clipped id. */
  lemma LongHello(h: HubState, mod: string, src: Addr)
    requires HubOk(h) && Word(mod, C_BLANKS) && |mod| > ID_CHARS && FreeDoor(h.doors) < |h.doors|
    ensures Step(h, Arrive(HelloLine(mod), src, 0, 0)).0.doors
            == h.doors[FreeDoor(h.doors) := NewDoor(mod).(addr := Some(src))]
    ensures Liveness(Step(h, Arrive(HelloLine(mod), src, 0, 0)).0.log, Clip(mod, ID_CHARS))
            == Liveness(h.log, Clip(mod, ID_CHARS))
  {
    BlankSets();
    HelloRoundTrip(mod, C_BLANKS);
    Keywords();
    var e := Arrive(HelloLine(mod), src, 0, 0);
    var toks := [mod, "HELLO"];
    assert FindDoor(h.doors, mod) == |h.doors|;
    LineDoors(h, e.line, src, 0, 0);
    TokensAreWords(e.line, C_BLANKS);
    LinesAddNoLiveness(toks, 0, Clip(mod, ID_CHARS));
    LivenessSplit(h.log, LogAfter(toks, 0), Clip(mod, ID_CHARS));
    var d := NewDoor(mod).(addr := Some(src));
    assert DoorAfter(d, toks, 0) == d;
  }

  lemma TwoLongHellos(mod: string, src: Addr)
    requires Word(mod, C_BLANKS) && |mod| > ID_CHARS
    ensures var h := Exec(TwoHellosThenCheck(mod, src)[..2]);
      && Liveness(h.log, Clip(mod, ID_CHARS)) == []
      && h.doors[0] == h.doors[1] == NewDoor(mod).(addr := Some(src))
      && forall i | 2 <= i < MAX_DOORS :: !h.doors[i].known
  {
    hide Step;
    var evs := TwoHellosThenCheck(mod, src);
    var h0, h1 := Exec([]), Exec(evs[..1]);
    assert evs[..1][..0] == [] && evs[..2][..1] == evs[..1];
    assert h0.doors[0] == BLANK_DOOR;
    LongHello(h0, mod, src);
    assert FreeDoor(h1.doors) == 1 by { assert h1.doors[0].known && !h1.doors[1].known; }
    LongHello(h1, mod, src);
  }

  /** Nobody but `mod` is named in the lines of this run. */
  ghost predicate OnlySpeaker(evs: seq<Ev>, mod: string) {
    forall i | 0 <= i < |evs| && Names(evs[i]) :: Toks(evs[i])[0] == mod
  }

  /** Two such HELLO lines of a long id, then a check, break the alternation. */
  lemma LongIdBreaksAlternation(mod: string, src: Addr)
    requires Word(mod, C_BLANKS) && |mod| > ID_CHARS
    ensures !Alternates(Liveness(Exec(TwoHellosThenCheck(mod, src)).log, Clip(mod, ID_CHARS)))
    ensures OnlySpeaker(TwoHellosThenCheck(mod, src), mod)
  {
    hide Step, Liveness, CheckEntries;
    BlankSets();
    HelloRoundTrip(mod, C_BLANKS);
    var evs := TwoHellosThenCheck(mod, src);
    var id, now := Clip(mod, ID_CHARS), OFFLINE_TIMEOUT_MS + 1;
    var h := Exec(evs[..2]);
    TwoLongHellos(mod, src);
    CheckStep(h, now);
    assert Exec(evs) == CheckOffline(h, now);
    ClipWord(mod, ID_CHARS);
    TwoRecordsTwoVerdicts(h.doors, id, now);
    LivenessSplit(h.log, CheckEntries(h.doors, now), id);
    assert Liveness(Exec(evs).log, id)[1];
  }

  /** The alternation rests on ids that fit: all runs of a single module alternate exactly when its id does. */
  lemma AlternationIffIdFits(mod: string)
    requires Word(mod, C_BLANKS)
    ensures (forall evs | OnlySpeaker(evs, mod) :: Alternates(Liveness(Exec(evs).log, Clip(mod, 15)))) <==>
            |mod| <= 15
  {
    hide Exec, Liveness, Toks, Alternates;
    if |mod| <= ID_CHARS {
      forall evs | OnlySpeaker(evs, mod)
        ensures Alternates(Liveness(Exec(evs).log, Clip(mod, ID_CHARS)))
      {
        OfflineAndOnlineAlternate(evs, mod);
      }
    } else {
      LongIdBreaksAlternation(mod, NO_ADDR);
    }
  }
}
