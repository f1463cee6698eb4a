/** How well the hub's record of a module follows the state that module reports. */
module Replica {
  import opened Prelude
  import opened Wire
  import opened HubModel
  import opened HubTables
  import opened HubRuns
  import opened DoorReport

  /** The two states that are reported: the door sensor on D0 and the bolt on D1. */
  ghost predicate Agrees(d: DoorRec, r: Reporter) {
    d.d0Open == r.d0Open && d.d1Locked == r.d1Locked
  }

  /** All four states of the record; the hub prints the D0 pair. */
  ghost predicate AgreesFully(d: DoorRec, r: Reporter) {
    Agrees(d, r) && d.d1Open == r.d0Open && d.d0Locked == r.d1Locked
  }

  /** An id the C programs can hold: a word without NUL that fits its buffer. */
  predicate GoodId(id: string) { Word(id, C_BLANKS) && |id| <= ID_CHARS && '\0' !in id }

  /** The hub receives `line` from `src`. */
  ghost function Deliver(h: HubState, line: string, src: Addr, t: int): (h': HubState)
    requires HubOk(h)
    ensures HubOk(h')
  {
    Step(h, Arrive(Received(line), src, t, t)).0
  }

  /** In-order, lossless delivery. */
  ghost function DeliverAll(h: HubState, ps: seq<Packet>, src: Addr, t: int): (h': HubState)
    requires HubOk(h)
    ensures HubOk(h')
  {
    if ps == [] then h else Deliver(DeliverAll(h, ps[..|ps| - 1], src, t), ps[|ps| - 1].line, src, t)
  }

  /** The lines of a report fit every 256-byte buffer between the module and the hub. */
  lemma {:induction false} ReportLinesFit(id: string, open: bool, locked: bool)
    requires GoodId(id)
    ensures Received(HeartbeatLine(id, open, locked)) == HeartbeatLine(id, open, locked)
    ensures Received(EventLine(id, "D0", "DOOR", OpenText(open))) == EventLine(id, "D0", "DOOR", OpenText(open))
    ensures Received(EventLine(id, "D1", "LOCK", LockText(locked))) == EventLine(id, "D1", "LOCK", LockText(locked))
  {
    hide StateToken;
    var t0, t1 := StateToken("D0", open, locked), StateToken("D1", open, locked);
    assert |t0| <= 18 && |t1| <= 18 && '\0' !in t0 && '\0' !in t1 by { StateTokensFit(open, locked); }
    assert '\0' !in " HEARTBEAT " && '\0' !in " EVENT ";
    hide Word;
    assert HeartbeatLine(id, open, locked) == id + " HEARTBEAT " + t0 + " " + t1 + "\n";
    ReceivedWhole(HeartbeatLine(id, open, locked));
    ReceivedWhole(EventLine(id, "D0", "DOOR", OpenText(open)));
    ReceivedWhole(EventLine(id, "D1", "LOCK", LockText(locked)));
  }

  lemma StateTokensFit(open: bool, locked: bool)
    ensures |StateToken("D0", open, locked)| <= 18 && |StateToken("D1", open, locked)| <= 18
    ensures '\0' !in StateToken("D0", open, locked) && '\0' !in StateToken("D1", open, locked)
  {
  }

  /** What a line of the module does to its record, when the hub tracks it or has room to. */
  lemma DeliverOwnLine(h: HubState, id: string, line: string, src: Addr, t: int, toks: seq<string>)
    requires HubOk(h) && GoodId(id) && Tokens(Received(line), C_BLANKS) == toks && |toks| >= 2 && toks[0] == id
    ensures Lookup(Deliver(h, line, src, t).doors, id) == Target(h.doors, toks, src, t)
  {
    hide FindDoor, DoorSlot, DoorAfter, DoorsAfter;
    LineDoors(h, Received(line), src, t, t);
    LineTouchesOneDoor(h.doors, toks, src, t, id);
    hide HandleLine;
  }

  lemma ReadStates(d: DoorRec, open: bool, locked: bool)
    ensures var e := ApplyStates(d, [StateToken("D0", open, locked), StateToken("D1", open, locked)]);
      e.d0Open == e.d1Open == open && e.d0Locked == e.d1Locked == locked
  {
    hide ParseDState;
    var t0, t1 := StateToken("D0", open, locked), StateToken("D1", open, locked);
    StateTokenRoundTrip("D0", open, locked, d.d0Open, d.d0Locked);
    StateTokenRoundTrip("D1", open, locked, d.d1Open, d.d1Locked);
    assert t1[1] == '1' && "D0="[1] == '0';
    assert "D0=" <= t0 && "D1=" <= t1;
    assert [t0, t1][..1] == [t0] && [t0][..0] == [];
    assert ApplyStates(d, []) == d;
    assert ApplyStates(d, [t0]) == ApplyState(d, t0);
  }

  /** The text kept of a heartbeat is what it reported. */
  lemma BeatText(open: bool, locked: bool)
    ensures Joined([StateToken("D0", open, locked), StateToken("D1", open, locked)])
            == StateToken("D0", open, locked) + " " + StateToken("D1", open, locked) != ""
  {
    StateTokensFit(open, locked);
    StateTokenPlain("D0", open, locked);
    hide StateToken;
    var t0, t1 := StateToken("D0", open, locked), StateToken("D1", open, locked);
    assert [t0, t1][..1] == [t0] && [t0][..0] == [];
    assert Joined([t0]) == t0;
  }

  /** A delivered HEARTBEAT, whatever was lost before it, makes the record equal to the state it reports and changes nothing else. */
  lemma HeartbeatRestoresAgreement(h: HubState, id: string, open: bool, locked: bool, src: Addr, t: int)
    requires HubOk(h) && GoodId(id)
    ensures match Lookup(Deliver(h, HeartbeatLine(id, open, locked), src, t).doors, id)
      case Some(d) =>
        && d.d0Open == d.d1Open == open && d.d0Locked == d.d1Locked == locked && d.lastHeartbeat == t
        && d.heartbeatLine == StateToken("D0", open, locked) + " " + StateToken("D1", open, locked)
        && (Lookup(h.doors, id).Some? ==>
              var before := Lookup(h.doors, id).value;
              SameButStates(before.(addr := Some(src), lastHeartbeat := t, heartbeatLine := d.heartbeatLine), d))
      case None => DoorsFull(h)
  {
    hide HeartbeatLine, StateToken, Received, FindDoor, FreeDoor, Deliver, Word;
    BlankSets();
    HeartbeatRoundTrip(id, open, locked, C_BLANKS);
    ReportLinesFit(id, open, locked);
    Keywords();
    var toks := [id, "HEARTBEAT", StateToken("D0", open, locked), StateToken("D1", open, locked)];
    DeliverOwnLine(h, id, HeartbeatLine(id, open, locked), src, t, toks);
    if DoorSlot(h.doors, id) < |h.doors| {
      var d := Heard(ClaimedDoor(h.doors, id), toks, src);
      assert toks[2..] == [StateToken("D0", open, locked), StateToken("D1", open, locked)];
      ReadStates(d, open, locked);
      BeatText(open, locked);
      assert DoorAfter(d, toks, t) == Beat(d, toks[2..], id + " " + "HEARTBEAT", t);
      ApplyStatesKeeps(d, toks[2..]);
      if Lookup(h.doors, id).Some? {
        assert ClaimedDoor(h.doors, id) == Lookup(h.doors, id).value;
      }
    }
  }

  lemma KnownTarget(h: HubState, id: string, toks: seq<string>, src: Addr, t: int)
    requires Lookup(h.doors, id).Some? && |toks| >= 2 && toks[0] == id
    ensures Target(h.doors, toks, src, t) == Some(DoorAfter(Heard(Lookup(h.doors, id).value, toks, src), toks, t))
  {
    hide DoorAfter, Heard;
  }

  /** The record after an EVENT of the module: what the line says is applied, nothing else. */
  lemma DeliverEvent(h: HubState, id: string, which: string, what: string, state: string, src: Addr, t: int)
    requires HubOk(h) && GoodId(id) && Lookup(h.doors, id).Some? && Plain(which) && Plain(what) && Plain(state)
    requires Received(EventLine(id, which, what, state)) == EventLine(id, which, what, state)
    ensures Lookup(Deliver(h, EventLine(id, which, what, state), src, t).doors, id)
            == Some(ApplyEvent(Lookup(h.doors, id).value.(addr := Some(src)), which, ReadChange(what, state)).(lastEvent := t))
  {
    hide ReadChange, ApplyEvent, EventLine, Received, Tokens, Deliver, Lookup, DoorSlot, ClaimedDoor, GoodId, Plain;
    var toks := [id, "EVENT", which, what, state];
    EventTokens(id, which, what, state);
    Keywords();
    hide KindOf;
    KnownTarget(h, id, toks, src, t);
    DeliverOwnLine(h, id, EventLine(id, which, what, state), src, t, toks);
  }

  lemma EventTokens(id: string, which: string, what: string, state: string)
    requires GoodId(id) && Plain(which) && Plain(what) && Plain(state)
    ensures Tokens(EventLine(id, which, what, state), C_BLANKS) == [id, "EVENT", which, what, state]
  {
    hide Tokens, EventLine;
    BlankSets();
    PlainIsWord(which, C_BLANKS);
    PlainIsWord(what, C_BLANKS);
    PlainIsWord(state, C_BLANKS);
    EventRoundTrip(id, which, what, state, C_BLANKS);
  }

  lemma EventFits(id: string, which: string, what: string, state: string)
    requires GoodId(id) && |which| == 2 && |what| == 4 && |state| <= 8
    requires '\0' !in which && '\0' !in what && '\0' !in state
    ensures Received(EventLine(id, which, what, state)) == EventLine(id, which, what, state)
  {
    assert '\0' !in " EVENT ";
    hide Word;
    ReceivedWhole(EventLine(id, which, what, state));
  }

  /** An EVENT about a door sets that channel's door state, the time and the address, and nothing else. */
  lemma DoorEvent(h: HubState, id: string, which: string, open: bool, src: Addr, t: int)
    requires HubOk(h) && GoodId(id) && Lookup(h.doors, id).Some? && which in {"D0", "D1"}
    ensures var d := Lookup(h.doors, id).value;
      Lookup(Deliver(h, EventLine(id, which, "DOOR", OpenText(open)), src, t).doors, id)
      == Some(d.(d0Open := if which == "D0" then open else d.d0Open, d1Open := if which == "D1" then open else d.d1Open,
                 addr := Some(src), lastEvent := t))
  {
    hide Lookup, Deliver, GoodId, EventLine, Received, FindDoor;
    EventFits(id, which, "DOOR", OpenText(open));
    DeliverEvent(h, id, which, "DOOR", OpenText(open), src, t);
    assert ReadChange("DOOR", OpenText(open)) == Door(open);
  }

  /** Likewise for a lock. */
  lemma LockEvent(h: HubState, id: string, which: string, locked: bool, src: Addr, t: int)
    requires HubOk(h) && GoodId(id) && Lookup(h.doors, id).Some? && which in {"D0", "D1"}
    ensures var d := Lookup(h.doors, id).value;
      Lookup(Deliver(h, EventLine(id, which, "LOCK", LockText(locked)), src, t).doors, id)
      == Some(d.(d0Locked := if which == "D0" then locked else d.d0Locked,
                 d1Locked := if which == "D1" then locked else d.d1Locked, addr := Some(src), lastEvent := t))
  {
    hide Lookup, Deliver, GoodId, EventLine, Received, FindDoor;
    EventFits(id, which, "LOCK", LockText(locked));
    DeliverEvent(h, id, which, "LOCK", LockText(locked), src, t);
    assert ReadChange("LOCK", LockText(locked)) == Lock(locked);
  }

  // ---------- One report ----------

  lemma DeliverLast(h: HubState, ps: seq<Packet>, p: Packet, src: Addr, t: int)
    requires HubOk(h)
    ensures DeliverAll(h, ps + [p], src, t) == Deliver(DeliverAll(h, ps, src, t), p.line, src, t)
  {
    assert (ps + [p])[..|ps|] == ps;
  }

  /** What the record of a tracked module looks like after the notices of one report. */
  lemma DeliverNotices(h: HubState, c: Config, r: Reporter, s: Sample, src: Addr, t: int)
    requires HubOk(h) && GoodId(c.id) && Lookup(h.doors, c.id).Some? && Agrees(Lookup(h.doors, c.id).value, r)
    ensures var d, d' := Lookup(h.doors, c.id), Lookup(DeliverAll(h, Notices(c, r, s), src, t).doors, c.id);
      && d'.Some? && Agrees(d'.value, Save(r, s))
      && d'.value.d0Locked == d.value.d0Locked && d'.value.d1Open == d.value.d1Open
  {
    hide Lookup, Deliver, EventLine, OpenText, LockText;
    var first := Notice(EventLine(c.id, "D0", "DOOR", OpenText(s.d0Open)));
    var second := Notice(EventLine(c.id, "D1", "LOCK", LockText(s.d1Locked)));
    var begin := if s.d0Open != r.d0Open then [first] else [];
    var h1 := DeliverAll(h, begin, src, t);
    if s.d0Open != r.d0Open {
      DoorEvent(h, c.id, "D0", s.d0Open, src, t);
      assert [] + [first] == begin;
      DeliverLast(h, [], first, src, t);
    }
    assert Notices(c, r, s) == begin + if s.d1Locked != r.d1Locked then [second] else [];
    if s.d1Locked != r.d1Locked {
      LockEvent(h1, c.id, "D1", s.d1Locked, src, t);
      DeliverLast(h, begin, second, src, t);
    } else {
      assert Notices(c, r, s) == begin;
    }
  }

  /** The hub after one report has been sent and all its lines delivered. */
  ghost function AfterReport(h: HubState, c: Config, r: Reporter, s: Sample, src: Addr, t: int): (h': HubState)
    requires HubOk(h)
    ensures HubOk(h')
  {
    DeliverAll(h, Update(c, r, s, t).1, src, t)
  }

  /**
   With notifications on, a tracked module whose reported states the hub had right is still right
   after the next report; and the D0 lock and D1 door states, which only heartbeats carry, are right
   exactly when the report brought a heartbeat or nothing changed.
   */
  lemma ReportKeepsAgreement(h: HubState, c: Config, r: Reporter, s: Sample, src: Addr, t: int)
    requires HubOk(h) && GoodId(c.id) && c.mode.notify && r.sockOpen && r.valid
    requires Lookup(h.doors, c.id).Some? && Agrees(Lookup(h.doors, c.id).value, r)
    ensures var d, d', r' := Lookup(h.doors, c.id).value, Lookup(AfterReport(h, c, r, s, src, t).doors, c.id), Update(c, r, s, t).0;
      && d'.Some? && Agrees(d'.value, r')
      && (AgreesFully(d, r) ==> (AgreesFully(d'.value, r') <==>
            Due(c, r, t) || (s.d0Open == r.d0Open && s.d1Locked == r.d1Locked)))
  {
    hide Lookup, Deliver, EventLine, HeartbeatLine, Notices;
    DeliverNotices(h, c, r, s, src, t);
    var notices := Notices(c, r, s);
    assert notices + [] == notices;
    if Due(c, r, t) {
      DeliverLast(h, notices, Pulse(HeartbeatLine(c.id, s.d0Open, s.d1Locked)), src, t);
      var h1 := DeliverAll(h, notices, src, t);
      HeartbeatRestoresAgreement(h1, c.id, s.d0Open, s.d1Locked, src, t);
      StillTracked(h1, HeartbeatLine(c.id, s.d0Open, s.d1Locked), src, t, c.id);
    }
  }

  /** A tracked module stays tracked. */
  lemma StillTracked(h: HubState, line: string, src: Addr, t: int, id: string)
    requires HubOk(h) && Lookup(h.doors, id).Some?
    ensures Lookup(Deliver(h, line, src, t).doors, id).Some?
  {
    var i := FindDoor(h.doors, id);
    StepKeepsOwner(h, Arrive(Received(line), src, t, t), i);
    assert Owns(Deliver(h, line, src, t).doors[i], id);
  }

  /**
   The first report sends a heartbeat or nothing: whatever the hub held before, it is right
   afterwards exactly when heartbeats are on or it happened to be right already.
   */
  lemma FirstReport(h: HubState, c: Config, r: Reporter, s: Sample, src: Addr, t: int)
    requires HubOk(h) && GoodId(c.id) && r.sockOpen && !r.valid && Lookup(h.doors, c.id).Some?
    ensures var d, d', r' := Lookup(h.doors, c.id).value, Lookup(AfterReport(h, c, r, s, src, t).doors, c.id), Update(c, r, s, t).0;
      d'.Some? && (AgreesFully(d'.value, r') <==> c.mode.heartbeat || AgreesFully(d, r'))
  {
    hide Lookup, Deliver, HeartbeatLine;
    if c.mode.heartbeat {
      var p := Pulse(HeartbeatLine(c.id, s.d0Open, s.d1Locked));
      assert [] + [p] == [p];
      DeliverLast(h, [], p, src, t);
      HeartbeatRestoresAgreement(h, c.id, s.d0Open, s.d1Locked, src, t);
      StillTracked(h, p.line, src, t, c.id);
    }
  }

  // ---------- Runs ----------

  /** Other traffic: anything but a HEARTBEAT or EVENT in this module's name. */
  ghost predicate OtherTraffic(e: Ev, id: string) {
    Names(e) ==> |Toks(e)[0]| <= ID_CHARS && !(Toks(e)[0] == id && KindOf(Toks(e)[1]) in {Heartbeat, Event})
  }

  /** Once the module has reported, its record is right, or the full table never gave it one. */
  ghost predicate InStep(h: HubState, id: string, r: Reporter) {
    r.valid ==> match Lookup(h.doors, id)
      case Some(d) => Agrees(d, r)
      case None => DoorsFull(h)
  }

  lemma StepFullUntracked(h: HubState, e: Ev, id: string)
    requires HubOk(h) && DoorsFull(h) && Lookup(h.doors, id) == None
    ensures DoorsFull(Step(h, e).0) && Lookup(Step(h, e).0.doors, id) == None
  {
    hide HandleLine, CheckOffline;
    DoorsStayFull(h, e);
    var doors' := Step(h, e).0.doors;
    forall i | 0 <= i < |doors'|
      ensures !Owns(doors'[i], id)
    {
      assert h.doors[i].known && !Owns(h.doors[i], id);
      StepKeepsOwner(h, e, i);
    }
  }

  lemma OtherLineKeepsStates(d: DoorRec, toks: seq<string>, src: Addr, t: int)
    requires |toks| >= 2 && KindOf(toks[1]) !in {Heartbeat, Event}
    ensures var e := DoorAfter(Heard(d, toks, src), toks, t); e.d0Open == d.d0Open && e.d1Locked == d.d1Locked
  {
    hide KindOf, Beat, ApplyEvent, ReadChange;
  }

  lemma OtherTrafficKeepsStates(h: HubState, e: Ev, id: string)
    requires HubOk(h) && OtherTraffic(e, id) && Lookup(h.doors, id).Some?
    ensures var d, d' := Lookup(h.doors, id).value, Lookup(Step(h, e).0.doors, id);
      d'.Some? && d'.value.d0Open == d.d0Open && d'.value.d1Locked == d.d1Locked
  {
    hide FindDoor, KindOf, DoorAfter, DoorsAfter, HandleLine, CheckEntries;
    match e
    case Check(now) => CheckDoorsLookup(h, now, id);
    case Arrive(line, src, t, issued) =>
      if Names(e) {
        var toks := Toks(e);
        LineDoors(h, line, src, t, issued);
        LineTouchesOneDoor(h.doors, toks, src, t, id);
        if toks[0] == id {
          OtherLineKeepsStates(ClaimedDoor(h.doors, id), toks, src, t);
        }
      } else {
        IgnoredLine(h, e);
      }
  }

  lemma DeliverUntracked(h: HubState, line: string, src: Addr, t: int, id: string)
    requires HubOk(h) && DoorsFull(h) && Lookup(h.doors, id) == None
    ensures DoorsFull(Deliver(h, line, src, t)) && Lookup(Deliver(h, line, src, t).doors, id) == None
  {
    StepFullUntracked(h, Arrive(Received(line), src, t, t), id);
  }
}
