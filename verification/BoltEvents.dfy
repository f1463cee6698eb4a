/**
 The heartbeat thread samples the bolt while the command thread moves it: how many LOCK events one
 movement causes.
 */
module BoltEvents {
  import opened Prelude
  import opened Wire
  import opened Stepper
  import opened DoorReport
  import opened DoorModule

  /** One motor pulse, or one sample of sensor and position together with the update it feeds. */
  datatype Move = Pulse | Look(distance: Reading, t: int)

  datatype Scene = Scene(start: nat, pulses: nat, reporter: Reporter, sent: seq<Packet>)

  function Position(s: Scene): nat { After(s.start, s.pulses) }

  function Act(c: Config, s: Scene, move: Move): Scene {
    match move
    case Pulse => s.(pulses := s.pulses + 1)
    case Look(distance, t) =>
      var (r, packets) := Update(c, s.reporter, TakeSample(Position(s), distance), t);
      s.(reporter := r, sent := s.sent + packets)
  }

  function ActAll(c: Config, s: Scene, moves: seq<Move>): Scene {
    if moves == [] then s else Act(c, ActAll(c, s, moves[..|moves| - 1]), moves[|moves| - 1])
  }

  function PulsesIn(moves: seq<Move>): nat {
    if moves == [] then 0 else PulsesIn(moves[..|moves| - 1]) + if moves[|moves| - 1].Pulse? then 1 else 0
  }

  /** The lock state that a packet announces, if it is a LOCK event. */
  function Announces(c: Config, p: Packet): Option<bool> {
    if p.Notice? && p.line == EventLine(c.id, "D1", "LOCK", LockText(true)) then Some(true)
    else if p.Notice? && p.line == EventLine(c.id, "D1", "LOCK", LockText(false)) then Some(false)
    else None
  }

  /** The lock states announced, in order. */
  function LockEvents(c: Config, ps: seq<Packet>): seq<bool> {
    if ps == [] then []
    else
      LockEvents(c, ps[..|ps| - 1])
      + match Announces(c, ps[|ps| - 1]) case None => [] case Some(locked) => [locked]
  }

  lemma {:induction false} LockEventsSplit(c: Config, ps: seq<Packet>, qs: seq<Packet>)
    ensures LockEvents(c, ps + qs) == LockEvents(c, ps) + LockEvents(c, qs)
  {
    hide Announces;
    if qs == [] {
      assert ps + qs == ps;
    } else {
      assert (ps + qs)[..|ps + qs| - 1] == ps + qs[..|qs| - 1];
      LockEventsSplit(c, ps, qs[..|qs| - 1]);
    }
  }

  lemma DoorEventAnnouncesNothing(c: Config, state: string)
    ensures Announces(c, Notice(EventLine(c.id, "D0", "DOOR", state))) == None
  {
    var k := |c.id| + 8;
    assert |" EVENT "| == 7;
    assert EventLine(c.id, "D0", "DOOR", state)[k] == '0';
    assert EventLine(c.id, "D1", "LOCK", LockText(true))[k] == '1';
    assert EventLine(c.id, "D1", "LOCK", LockText(false))[k] == '1';
  }

  lemma OnePacket(c: Config, p: Packet)
    ensures LockEvents(c, [p]) == match Announces(c, p) case None => [] case Some(locked) => [locked]
    ensures LockEvents(c, []) == []
  {
    assert [p][..0] == [];
  }

  lemma LockEventAnnounces(c: Config, locked: bool)
    ensures Announces(c, Notice(EventLine(c.id, "D1", "LOCK", LockText(locked)))) == Some(locked)
  {
    var k := |c.id| + 15;
    assert |" EVENT "| == 7 && |"D1"| == 2 && |"LOCK"| == 4;
    assert EventLine(c.id, "D1", "LOCK", LockText(true))[k] == 'L';
    assert EventLine(c.id, "D1", "LOCK", LockText(false))[k] == 'U';
  }

  /** An update with notifications on announces a LOCK state exactly when the sampled one changed, and then that one. */
  lemma UpdateAnnouncesLockChange(c: Config, r: Reporter, s: Sample, t: int)
    requires r.sockOpen && r.valid && c.mode.notify
    ensures LockEvents(c, Update(c, r, s, t).1) == if s.d1Locked != r.d1Locked then [s.d1Locked] else []
    ensures var r' := Update(c, r, s, t).0; r'.d1Locked == s.d1Locked && r'.sockOpen && r'.valid
  {
    hide EventLine, LockEvents, Announces, HeartbeatLine;
    var door := Notice(EventLine(c.id, "D0", "DOOR", OpenText(s.d0Open)));
    var lock := Notice(EventLine(c.id, "D1", "LOCK", LockText(s.d1Locked)));
    var pulse := DoorReport.Pulse(HeartbeatLine(c.id, s.d0Open, s.d1Locked));
    DoorEventAnnouncesNothing(c, OpenText(s.d0Open));
    LockEventAnnounces(c, s.d1Locked);
    PulseAnnouncesNothing(c, pulse);
    OnePacket(c, door);
    OnePacket(c, lock);
    OnePacket(c, pulse);
    var doors := if s.d0Open != r.d0Open then [door] else [];
    var locks := if s.d1Locked != r.d1Locked then [lock] else [];
    var pulses := if Due(c, r, t) then [pulse] else [];
    assert Update(c, r, s, t).1 == (doors + locks) + pulses;
    LockEventsSplit(c, doors + locks, pulses);
    LockEventsSplit(c, doors, locks);
  }

  lemma PulseAnnouncesNothing(c: Config, p: Packet)
    requires p.Pulse?
    ensures Announces(c, p) == None
  {
  }

  // ---------- The path of one movement ----------

  /** Half a revolution: from withdrawn to extended or back. */
  const HALF_TURN := 2048

  predicate Extended(position: int) { Degrees(position) == LOCKED_POSITION }

  /** Along the forward path from 0 or 2048 the reading changes once: at the last pulse or after the eleventh. */
  lemma ReadingChangesOnce(start: nat, k: nat)
    requires (start == 0 || start == HALF_TURN) && k <= HALF_TURN
    ensures Extended(After(start, k)) != Extended(start) <==> k >= if start == 0 then HALF_TURN else 12
  {
    AfterWraps(start, k);
    LockedRange(After(start, k));
    LockedRange(start);
  }

  /** The bolt at rest, the last update saw it there, and `told` has been announced so far. */
  predicate Opening(c: Config, s: Scene, told: seq<bool>) {
    && (s.start == 0 || s.start == HALF_TURN) && s.pulses == 0 && LockEvents(c, s.sent) == told
    && c.mode.notify && s.reporter.sockOpen && s.reporter.valid && s.reporter.d1Locked == Extended(s.start)
  }

  /** What a movement announces if the last update saw the changed reading. */
  function News(s: Scene): seq<bool> {
    if s.reporter.d1Locked != Extended(s.start) then [!Extended(s.start)] else []
  }

  /** The new state has been announced if the last update saw the changed reading, nothing otherwise. */
  ghost predicate Told(c: Config, s: Scene, told: seq<bool>) {
    && (s.start == 0 || s.start == HALF_TURN) && c.mode.notify && s.reporter.sockOpen && s.reporter.valid
    && LockEvents(c, s.sent) == told + News(s)
    && (s.reporter.d1Locked != Extended(s.start) ==> s.pulses >= if s.start == 0 then HALF_TURN else 12)
  }

  lemma ActKeepsTold(c: Config, s: Scene, move: Move, told: seq<bool>)
    requires Told(c, s, told) && Act(c, s, move).pulses <= HALF_TURN
    ensures Told(c, Act(c, s, move), told)
  {
    hide After, Extended, Update, LockEvents;
    match move
    case Pulse =>
    case Look(distance, t) =>
      var sample := TakeSample(Position(s), distance);
      UpdateAnnouncesLockChange(c, s.reporter, sample, t);
      LockEventsSplit(c, s.sent, Update(c, s.reporter, sample, t).1);
      ReadingChangesOnce(s.start, s.pulses);
      assert sample.d1Locked == Extended(Position(s)) by { SampleSeesBolt(Position(s), distance); }
  }

  lemma SampleSeesBolt(position: nat, distance: Reading)
    ensures TakeSample(position, distance).d1Locked == Extended(position)
  {
  }

  lemma ActCountsPulses(c: Config, s: Scene, move: Move)
    ensures Act(c, s, move).pulses == s.pulses + (if move.Pulse? then 1 else 0) && Act(c, s, move).start == s.start
  {
    hide Update;
  }

  lemma {:induction false} ToldThroughout(c: Config, s: Scene, moves: seq<Move>, told: seq<bool>)
    requires Opening(c, s, told) && PulsesIn(moves) <= HALF_TURN
    ensures var s' := ActAll(c, s, moves); Told(c, s', told) && s'.pulses == PulsesIn(moves) && s'.start == s.start
  {
    hide Act, Extended, LockEvents;
    if moves != [] {
      var past, last := moves[..|moves| - 1], moves[|moves| - 1];
      ToldThroughout(c, s, past, told);
      ActCountsPulses(c, ActAll(c, s, past), last);
      ActKeepsTold(c, ActAll(c, s, past), last, told);
    }
  }

  /** A completed movement and the first look after it. */
  datatype Movement = Movement(moves: seq<Move>, distance: Reading, t: int)

  function Moved(c: Config, s: Scene, m: Movement): Scene {
    ActAll(c, s, m.moves + [Look(m.distance, m.t)])
  }

  /**
   Exactly one LOCK event per bolt movement: however sampling and motor pulses interleave, a movement
   from 0 announces nothing but LOCKED and one from 2048 nothing but UNLOCKED, at most once, and exactly
   once when an update has seen the final position.
   */
  lemma OneLockEventPerMovement(c: Config, s: Scene, m: Movement, told: seq<bool>)
    requires Opening(c, s, told) && PulsesIn(m.moves) <= HALF_TURN
    ensures var told' := LockEvents(c, ActAll(c, s, m.moves).sent); told' == told || told' == told + [!Extended(s.start)]
    ensures PulsesIn(m.moves) == HALF_TURN ==> LockEvents(c, Moved(c, s, m).sent) == told + [!Extended(s.start)]
    ensures PulsesIn(m.moves) == HALF_TURN ==> Told(c, Moved(c, s, m), told) && Moved(c, s, m).start == s.start
  {
    hide Act, Extended, After, LockEvents;
    ToldThroughout(c, s, m.moves, told);
    if PulsesIn(m.moves) == HALF_TURN {
      var s1, look := ActAll(c, s, m.moves), Look(m.distance, m.t);
      assert (m.moves + [look])[..|m.moves|] == m.moves;
      ActKeepsTold(c, s1, look, told) by { ActCountsPulses(c, s1, look); }
      LookSeesFinal(c, s1, m.distance, m.t, told);
    }
  }

  lemma LookSeesFinal(c: Config, s: Scene, distance: Reading, t: int, told: seq<bool>)
    requires Told(c, s, told) && s.pulses == HALF_TURN
    ensures Act(c, s, Look(distance, t)).reporter.d1Locked != Extended(s.start)
    ensures Act(c, s, Look(distance, t)).start == s.start
  {
    hide After, Update, LockEvents;
    var sample := TakeSample(Position(s), distance);
    UpdateAnnouncesLockChange(c, s.reporter, sample, t);
    ReadingChangesOnce(s.start, HALF_TURN);
  }

  // ---------- Runs of movements ----------

  /** The next movement starts where the last one ended. */
  function NextScene(s: Scene): Scene { s.(start := if s.start == 0 then HALF_TURN else 0, pulses := 0) }

  /** Movement after movement, each complete and looked at. */
  function MovedAll(c: Config, s: Scene, ms: seq<Movement>): Scene {
    if ms == [] then s else NextScene(Moved(c, MovedAll(c, s, ms[..|ms| - 1]), ms[|ms| - 1]))
  }

  /** LOCKED, UNLOCKED, LOCKED, ... or the other way round. */
  function Alternating(first: bool, n: nat): (r: seq<bool>)
    ensures |r| == n && forall i | 0 <= i < n :: r[i] == if i % 2 == 0 then first else !first
  {
    seq(n, i => if i % 2 == 0 then first else !first)
  }

  lemma AlternatingNext(first: bool, n: nat)
    ensures Alternating(first, n + 1) == Alternating(first, n) + [if n % 2 == 0 then first else !first]
  {
  }

  lemma NextOpening(c: Config, s: Scene, told: seq<bool>)
    requires Told(c, s, told) && LockEvents(c, s.sent) == told + [!Extended(s.start)]
    ensures Opening(c, NextScene(s), told + [!Extended(s.start)])
    ensures Extended(NextScene(s).start) == !Extended(s.start)
  {
    LockedRange(0);
    LockedRange(HALF_TURN);
    hide LockEvents;
    assert |LockEvents(c, s.sent)| == |told| + 1;
  }

  /** In every run of complete movements, each looked at, the LOCK events are one per movement and alternate. */
  lemma {:induction false} MovementsAlternate(c: Config, s: Scene, ms: seq<Movement>)
    requires Opening(c, s, []) && forall i | 0 <= i < |ms| :: PulsesIn(ms[i].moves) == HALF_TURN
    ensures Opening(c, MovedAll(c, s, ms), Alternating(!Extended(s.start), |ms|))
    ensures Extended(MovedAll(c, s, ms).start) == if |ms| % 2 == 0 then Extended(s.start) else !Extended(s.start)
  {
    hide Extended, LockEvents, Moved, NextScene, Opening, Told, PulsesIn, Alternating;
    if ms == [] {
      assert Alternating(!Extended(s.start), 0) == [];
    } else {
      var past, last := ms[..|ms| - 1], ms[|ms| - 1];
      MovementsAlternate(c, s, past);
      var s1, told := MovedAll(c, s, past), Alternating(!Extended(s.start), |past|);
      OneLockEventPerMovement(c, s1, last, told);
      NextOpening(c, Moved(c, s1, last), told);
      AlternatingNext(!Extended(s.start), |past|);
    }
  }
}
