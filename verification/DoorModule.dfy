/** Lock, unlock and status on top of the bolt, the distance sensor and state reporting (`doorMod.c`). */
module DoorModule {
  import opened Prelude
  import opened Wire
  import opened Stepper
  import opened DoorReport

  const CLOSED_THRESHOLD_CM := 10
  const LOCKED_POSITION := 180
  const UNLOCKED_POSITION := 0

  datatype DoorState = LOCKED | UNLOCKED | OPEN | UNKNOWN

  /** A distance in centimetres, or -1 when the sensor failed. */
  type Reading = r: int | -1 <= r

  // ---------- The sampling window ----------

  function ValidCount(window: seq<Reading>): nat {
    if window == [] then 0
    else ValidCount(window[..|window| - 1]) + if window[|window| - 1] != -1 then 1 else 0
  }

  function ValidSum(window: seq<Reading>): nat {
    if window == [] then 0
    else ValidSum(window[..|window| - 1]) + if window[|window| - 1] != -1 then window[|window| - 1] else 0
  }

  /** `avgDistanceSample` over the readings that fell into its 100 ms. */
  function Average(window: seq<Reading>): int {
    if ValidCount(window) == 0 then -1 else ValidSum(window) / ValidCount(window)
  }

  /** The door is shut as far as the window can tell. */
  predicate SeenShut(window: seq<Reading>) {
    ValidCount(window) >= 1 && ValidSum(window) < 10 * ValidCount(window)
  }

  lemma MulMonotone(n: nat, a: int, b: int)
    requires a <= b
    ensures n * a <= n * b
  {
  }

  lemma QuotientBelow(sum: nat, n: nat, k: nat)
    requires n > 0
    ensures sum / n < k <==> sum < n * k
  {
    var q := sum / n;
    assert sum == n * q + sum % n;
    if q < k {
      MulMonotone(n, q + 1, k);
      assert n * (q + 1) == n * q + n;
    } else {
      MulMonotone(n, k, q);
    }
  }

  lemma {:induction false} AverageTellsShut(window: seq<Reading>)
    ensures Average(window) >= -1
    ensures Average(window) == -1 <==> ValidCount(window) == 0
    ensures 0 <= Average(window) < 10 <==> SeenShut(window)
  {
    hide ValidCount, ValidSum;
    if ValidCount(window) > 0 {
      QuotientBelow(ValidSum(window), ValidCount(window), CLOSED_THRESHOLD_CM);
      DivisionKeepsSign(ValidSum(window), ValidCount(window));
    }
  }

  lemma DivisionKeepsSign(sum: nat, n: nat)
    requires n > 0
    ensures sum / n >= 0
  {
  }

  // ---------- Specification of the three calls ----------

  /** The motor, `__last_known_door.state` and the reporting variables. */
  datatype Module = Module(motor: Motor, lastKnown: DoorState, reporter: Reporter)

  /**
   What one call does: the new module state, the state left in the caller's `Door_t`, the state
   written by the call if any, the angle a rotation was started towards if any, and the lines sent.
   */
  datatype Outcome = Outcome(m: Module, state: DoorState, written: Option<DoorState>, started: Option<int>, sent: seq<Packet>)

  function TakeSample(position: nat, distance: Reading): Sample {
    Sample(distance >= CLOSED_THRESHOLD_CM, false, false, Degrees(position) == LOCKED_POSITION)
  }

  /** `report_door_state_udp`: nothing at all on a sensor error. */
  function Reported(c: Config, m: Module, state: DoorState, distance: Reading, t: int): (Module, seq<Packet>) {
    if distance == -1 then (m, [])
    else
      var (r, sent) := Update(c, m.reporter, TakeSample(m.motor.position, distance), t);
      (m.(reporter := r, lastKnown := state), sent)
  }

  /** Every call ends by reporting the state it leaves in the caller's record. */
  function Finish(c: Config, m: Module, state: DoorState, written: Option<DoorState>, started: Option<int>,
                  distance: Reading, t: int): Outcome {
    var final := if written.Some? then written.value else state;
    var (m', sent) := Reported(c, m, final, distance, t);
    Outcome(m', final, written, started, sent)
  }

  /** The inputs a call takes from its surroundings: sensor readings, the first failing pulse, the clock. */
  datatype Surroundings = Surroundings(window: seq<Reading>, distance: Reading, failAt: Option<nat>, report: Reading, t: int)

  predicate Sound(m: Module) { m.motor.position < STEPS_PER_REV }

  function Lock(c: Config, m: Module, state: DoorState, s: Surroundings): Outcome
    requires Sound(m)
  {
    if Degrees(m.motor.position) == LOCKED_POSITION then Finish(c, m, state, None, None, s.report, s.t)
    else
      var dist := Average(s.window);
      if dist >= CLOSED_THRESHOLD_CM then Finish(c, m, state, Some(OPEN), None, s.report, s.t)
      else if dist == -1 then Finish(c, m, state, Some(UNKNOWN), None, s.report, s.t)
      else
        var (motor, ok) := Rotate(m.motor, LOCKED_POSITION, s.failAt);
        Finish(c, m.(motor := motor), state, if ok then Some(LOCKED) else None, Some(LOCKED_POSITION), s.report, s.t)
  }

  function Unlock(c: Config, m: Module, state: DoorState, s: Surroundings): Outcome
    requires Sound(m)
  {
    if Degrees(m.motor.position) == UNLOCKED_POSITION then Finish(c, m, state, None, None, s.report, s.t)
    else if m.lastKnown == LOCKED || Degrees(m.motor.position) == LOCKED_POSITION then
      var (motor, ok) := Rotate(m.motor, UNLOCKED_POSITION, s.failAt);
      Finish(c, m.(motor := motor), state, if ok then Some(UNLOCKED) else None, Some(UNLOCKED_POSITION), s.report, s.t)
    else if s.distance >= CLOSED_THRESHOLD_CM then Finish(c, m, state, Some(OPEN), None, s.report, s.t)
    else Finish(c, m, state, Some(UNLOCKED), None, s.report, s.t)
  }

  function Status(c: Config, m: Module, state: DoorState, s: Surroundings): Outcome
    requires Sound(m)
  {
    if Degrees(m.motor.position) == LOCKED_POSITION then Finish(c, m, state, Some(LOCKED), None, s.report, s.t)
    else if s.distance == -1 then Finish(c, m, state, None, None, s.report, s.t)
    else if s.distance < CLOSED_THRESHOLD_CM then Finish(c, m, state, Some(UNLOCKED), None, s.report, s.t)
    else Finish(c, m, state, Some(OPEN), None, s.report, s.t)
  }

  // ---------- The calls as written ----------

  class Door {
    const motor: StepperMotor
    const udp: DoorUdp
    var lastKnown: DoorState

    ghost predicate Valid()
      reads this, motor
    {
      motor.Valid()
    }

    ghost function State(): Module
      reads this, motor, udp
    {
      Module(motor.State(), lastKnown, udp.State())
    }

    constructor (motor: StepperMotor, udp: DoorUdp)
      requires motor.Valid()
      ensures Valid() && this.motor == motor && this.udp == udp && lastKnown == UNKNOWN
    {
      this.motor, this.udp, lastKnown := motor, udp, UNKNOWN;
    }

    /** `avgDistanceSample`. */
    method AvgDistanceSample(window: seq<Reading>) returns (dist: int)
      ensures dist == Average(window)
    {
      var total, count := 0, 0;
      for i := 0 to |window|
        invariant total == ValidSum(window[..i]) && count == ValidCount(window[..i])
      {
        assert window[..i + 1][..i] == window[..i];
        if window[i] != -1 {
          total := total + window[i];
          count := count + 1;
        }
      }
      assert window[..|window|] == window;
      if count == 0 {
        return -1;
      }
      return total / count;
    }

    /** `report_door_state_udp`. */
    method ReportDoorState(state: DoorState, distance: Reading, t: int) returns (sent: seq<Packet>)
      requires Valid()
      modifies this, udp
      ensures Valid()
      ensures (State(), sent) == Reported(udp.config, old(State()), state, distance, t)
    {
      if distance == -1 {
        return [];
      }
      var d0Open := distance >= CLOSED_THRESHOLD_CM;
      var d1Locked := motor.GetPosition() == LOCKED_POSITION;
      sent := udp.DoorUdpUpdate(Sample(d0Open, false, false, d1Locked), t);
      lastKnown := state;
    }

    /** One pass of the heartbeat thread. Unlike a report it does not skip a failed reading. */
    method HeartbeatPass(distance: Reading, t: int) returns (sent: seq<Packet>)
      requires Valid()
      modifies udp
      ensures Valid() && motor.State() == old(motor.State())
      ensures (udp.State(), sent) == Update(udp.config, old(udp.State()), TakeSample(motor.position, distance), t)
    {
      var d0Open := distance >= CLOSED_THRESHOLD_CM;
      var d1Locked := motor.GetPosition() == LOCKED_POSITION;
      sent := udp.DoorUdpUpdate(Sample(d0Open, false, false, d1Locked), t);
    }

    /** `lockDoor`. */
    method LockDoor(state: DoorState, s: Surroundings) returns (state': DoorState, sent: seq<Packet>)
      requires Valid()
      modifies this, motor, udp
      ensures Valid()
      ensures var o := Lock(udp.config, old(State()), state, s); State() == o.m && state' == o.state && sent == o.sent
    {
      hide StepsNeeded, After, Forward, Update;
      state' := state;
      var dist := AvgDistanceSample(s.window);
      if motor.GetPosition() != LOCKED_POSITION {
        if dist >= CLOSED_THRESHOLD_CM {
          state' := OPEN;
        } else if dist == -1 {
          state' := UNKNOWN;
        } else {
          var ok := motor.RotateTo(LOCKED_POSITION, s.failAt);
          if ok {
            state' := LOCKED;
          }
        }
      }
      sent := ReportDoorState(state', s.report, s.t);
    }

    /** `unlockDoor`. */
    method UnlockDoor(state: DoorState, s: Surroundings) returns (state': DoorState, sent: seq<Packet>)
      requires Valid()
      modifies this, motor, udp
      ensures Valid()
      ensures var o := Unlock(udp.config, old(State()), state, s); State() == o.m && state' == o.state && sent == o.sent
    {
      hide StepsNeeded, After, Forward, Update;
      state' := state;
      if motor.GetPosition() != UNLOCKED_POSITION {
        var lastWasLocked := lastKnown == LOCKED;
        if lastWasLocked || motor.GetPosition() == LOCKED_POSITION {
          var ok := motor.RotateTo(UNLOCKED_POSITION, s.failAt);
          if ok {
            state' := UNLOCKED;
          }
        } else if s.distance >= CLOSED_THRESHOLD_CM {
          state' := OPEN;
        } else if !lastWasLocked {
          state' := UNLOCKED;
        }
      }
      sent := ReportDoorState(state', s.report, s.t);
    }

    /** `get_door_status`. */
    method GetDoorStatus(state: DoorState, s: Surroundings) returns (state': DoorState, sent: seq<Packet>)
      requires Valid()
      modifies this, udp
      ensures Valid()
      ensures var o := Status(udp.config, old(State()), state, s); State() == o.m && state' == o.state && sent == o.sent
    {
      hide StepsNeeded, After, Forward, Update;
      state' := state;
      if motor.GetPosition() == LOCKED_POSITION {
        state' := LOCKED;
      } else if s.distance < CLOSED_THRESHOLD_CM && s.distance != -1 {
        state' := UNLOCKED;
      } else if s.distance == -1 {
        sent := ReportDoorState(state', s.report, s.t);
        return;
      } else {
        state' := OPEN;
      }
      sent := ReportDoorState(state', s.report, s.t);
    }

    /** `app_command_handler`: run the command on a fresh record, answer with the command or the state found. */
    method HandleCommand(id: int, target: string, action: string, s: Surroundings) returns (feedback: string, sent: seq<Packet>)
      requires Valid()
      modifies this, motor, udp
      ensures Valid()
      ensures var o := Run(udp.config, old(State()), action, s);
        && State() == o.m && sent == o.sent
        && feedback == FeedbackLine(udp.config.id, id, target, Reply(action, o.state))
    {
      hide FeedbackLine, Lock, Unlock, Status;
      var state := UNKNOWN;
      var out := action;
      sent := [];
      if action == "LOCK" {
        state, sent := LockDoor(state, s);
      } else if action == "UNLOCK" {
        state, sent := UnlockDoor(state, s);
      } else if action == "STATUS" {
        state, sent := GetDoorStatus(state, s);
        out := "STATUS_" + StateText(state);
      }
      feedback := FeedbackLine(udp.config.id, id, target, out);
    }
  }

  function StateText(state: DoorState): string {
    match state
    case LOCKED => "LOCKED"
    case UNLOCKED => "UNLOCKED"
    case OPEN => "OPEN"
    case UNKNOWN => "UNKNOWN"
  }

  /** The action a FEEDBACK reports: STATUS is answered with the state, anything else is echoed. */
  function Reply(action: string, state: DoorState): string {
    if action == "STATUS" then "STATUS_" + StateText(state) else action
  }

  /** What handling a command does to the module; an unknown action does nothing. */
  function Run(c: Config, m: Module, action: string, s: Surroundings): Outcome
    requires Sound(m)
  {
    if action == "LOCK" then Lock(c, m, UNKNOWN, s)
    else if action == "UNLOCK" then Unlock(c, m, UNKNOWN, s)
    else if action == "STATUS" then Status(c, m, UNKNOWN, s)
    else Outcome(m, UNKNOWN, None, None, [])
  }

  // ---------- What the calls do, whatever fails ----------

  /** The bolt reads as extended: half-steps 2048 to 2059. */
  predicate ReadsLocked(position: nat) { 2048 <= position <= 2059 }

  /** The bolt reads as withdrawn. */
  predicate ReadsUnlocked(position: nat) { position <= 11 }

  /** The pins work for the whole way to this angle. */
  predicate Reaches(position: nat, degrees: int, failAt: Option<nat>) {
    failAt.Some? ==> failAt.value >= Way(position, degrees)
  }

  /** Where a rotation leaves the bolt. */
  function EndOf(position: nat, degrees: int, failAt: Option<nat>): nat {
    if Reaches(position, degrees, failAt) then (if degrees == 0 then 0 else 2048) else (position + failAt.value) % 4096
  }

  lemma ReadingsAre(position: nat)
    requires position < 4096
    ensures Degrees(position) == LOCKED_POSITION <==> ReadsLocked(position)
    ensures Degrees(position) == UNLOCKED_POSITION <==> ReadsUnlocked(position)
  {
    LockedRange(position);
  }

  /**
   LOCK: a bolt that reads as extended stays. Otherwise the bolt goes to 2048 and the state becomes LOCKED
   exactly when the window saw the door shut and no pin failed; a failing pin leaves it where it failed.
   */
  lemma LockEffect(c: Config, m: Module, state: DoorState, s: Surroundings)
    requires Sound(m)
    ensures var o, p := Lock(c, m, state, s), m.motor.position;
      if ReadsLocked(p) then o.m.motor.position == p && o.state == state
      else if !SeenShut(s.window) then o.m.motor.position == p && o.state == (if ValidCount(s.window) == 0 then UNKNOWN else OPEN)
      else o.m.motor.position == EndOf(p, 180, s.failAt) && o.state == if Reaches(p, 180, s.failAt) then LOCKED else state
  {
    ReadingsAre(m.motor.position);
    AverageTellsShut(s.window);
    RotationEffect(m.motor, 180, s.failAt);
    hide Rotate, Update, Degrees, Average, SeenShut, ValidCount;
  }

  /**
   UNLOCK: a bolt that reads as withdrawn stays. A bolt that reads as extended, or was last known locked,
   goes to 0 and the state becomes UNLOCKED, unless a pin fails. Otherwise the sensor alone decides what
   is said.
   */
  lemma UnlockEffect(c: Config, m: Module, state: DoorState, s: Surroundings)
    requires Sound(m)
    ensures var o, p := Unlock(c, m, state, s), m.motor.position;
      if ReadsUnlocked(p) then o.m.motor.position == p && o.state == state
      else if m.lastKnown == LOCKED || ReadsLocked(p) then
        o.m.motor.position == EndOf(p, 0, s.failAt) && o.state == if Reaches(p, 0, s.failAt) then UNLOCKED else state
      else o.m.motor.position == p && o.state == if s.distance >= 10 then OPEN else UNLOCKED
  {
    ReadingsAre(m.motor.position);
    RotationEffect(m.motor, 0, s.failAt);
    hide Rotate, Update, Degrees;
  }

  /** STATUS: the bolt stays, and bolt and sensor decide what is said. */
  lemma StatusEffect(c: Config, m: Module, state: DoorState, s: Surroundings)
    requires Sound(m)
    ensures var o, p := Status(c, m, state, s), m.motor.position;
      && o.m.motor == m.motor
      && o.state == if ReadsLocked(p) then LOCKED else if s.distance == -1 then state else if s.distance < 10 then UNLOCKED else OPEN
  {
    ReadingsAre(m.motor.position);
    hide Update, Degrees;
  }

  /** What a handled command does to a bolt at rest when no pin fails, command by command. */
  lemma RunEffect(c: Config, m: Module, action: string, s: Surroundings)
    requires AtRest(m) && s.failAt == None
    ensures Run(c, m, action, s).m.motor.position
            == if action == "LOCK" && SeenShut(s.window) then 2048 else if action == "UNLOCK" then 0 else m.motor.position
    ensures action == "STATUS" ==>
              Run(c, m, action, s).state
              == if m.motor.position == 2048 then LOCKED else if s.distance == -1 then UNKNOWN
                 else if s.distance < 10 then UNLOCKED else OPEN
  {
    LockEffect(c, m, UNKNOWN, s);
    UnlockEffect(c, m, UNKNOWN, s);
    StatusEffect(c, m, UNKNOWN, s);
    hide Lock, Unlock, Status, SeenShut;
  }

  /** And whatever the bolt, the readings and the pins: which call a command is. */
  lemma CommandsAreCalls(c: Config, m: Module, action: string, s: Surroundings)
    requires Sound(m)
    ensures action == "LOCK" ==> Run(c, m, action, s) == Perform(c, m, CallLock(UNKNOWN, s))
    ensures action == "UNLOCK" ==> Run(c, m, action, s) == Perform(c, m, CallUnlock(UNKNOWN, s))
    ensures action == "STATUS" ==> Run(c, m, action, s) == Perform(c, m, CallStatus(UNKNOWN, s))
    ensures action !in {"LOCK", "UNLOCK", "STATUS"} ==> Run(c, m, action, s).m == m && Run(c, m, action, s).sent == []
  {
    hide Lock, Unlock, Status;
  }

  // ---------- What the calls report ----------

  /** A sample says open from 10 cm on, and locked where the bolt reads as extended. */
  lemma SampleMeans(position: nat, distance: Reading)
    requires position < 4096
    ensures TakeSample(position, distance).d0Open <==> distance >= 10
    ensures TakeSample(position, distance).d1Locked <==> ReadsLocked(position)
  {
    ReadingsAre(position);
  }

  /**
   Every call ends with a report of the bolt it leaves and of a new reading: a failing sensor sends nothing
   and saves nothing; otherwise these two states and the state of the call are saved, and the lines sent
   are the changes and the heartbeat that are due.
   */
  lemma CallReports(c: Config, m: Module, call: Call)
    requires Sound(m)
    ensures var o := Perform(c, m, call);
      var report := call.s.report;
      if report == -1 then o.sent == [] && o.m.reporter == m.reporter && o.m.lastKnown == m.lastKnown
      else
        && o.m.lastKnown == o.state
        && o.sent == ReportLines(c, m.reporter, report >= 10, ReadsLocked(o.m.motor.position), call.s.t)
        && (m.reporter.sockOpen ==>
              && o.m.reporter.valid && o.m.reporter.sockOpen
              && (o.m.reporter.d0Open <==> report >= 10) && (o.m.reporter.d1Locked <==> ReadsLocked(o.m.motor.position)))
  {
    PerformReports(c, m, call);
    CallKeepsSound(c, m, call);
    var o := Perform(c, m, call);
    SampleMeans(o.m.motor.position, call.s.report);
    hide Perform, TakeSample;
    if call.s.report != -1 {
      UpdateSends(c, m.reporter, TakeSample(o.m.motor.position, call.s.report), call.s.t);
    }
  }

  /** A call reports last, from the bolt as it then is. */
  lemma PerformReports(c: Config, m: Module, call: Call)
    requires Sound(m)
    ensures var o := Perform(c, m, call);
      if call.s.report == -1 then o.sent == [] && o.m.reporter == m.reporter && o.m.lastKnown == m.lastKnown
      else
        var (r, sent) := Update(c, m.reporter, TakeSample(o.m.motor.position, call.s.report), call.s.t);
        o.sent == sent && o.m.reporter == r && o.m.lastKnown == o.state
  {
    hide Rotate, Update, Degrees, Average, TakeSample;
  }

  /** The lines that tell of these two states what the hub has not been told, and the heartbeat when one is due. */
  function ReportLines(c: Config, r: Reporter, open: bool, locked: bool, t: int): seq<Packet> {
    var beat := [Pulse(HeartbeatLine(c.id, open, locked))];
    if !r.sockOpen then []
    else if !r.valid then (if c.mode.heartbeat then beat else [])
    else
      (if c.mode.notify && open != r.d0Open then [Notice(EventLine(c.id, "D0", "DOOR", if open then "OPEN" else "CLOSED"))] else [])
      + (if c.mode.notify && locked != r.d1Locked then [Notice(EventLine(c.id, "D1", "LOCK", if locked then "LOCKED" else "UNLOCKED"))] else [])
      + (if c.mode.heartbeat && t - r.lastHeartbeat >= c.period then beat else [])
  }

  lemma UpdateSends(c: Config, r: Reporter, s: Sample, t: int)
    ensures Update(c, r, s, t).1 == ReportLines(c, r, s.d0Open, s.d1Locked, t)
    ensures var r' := Update(c, r, s, t).0;
      r.sockOpen ==> r'.sockOpen && r'.valid && r'.d0Open == s.d0Open && r'.d1Locked == s.d1Locked
  {
    hide EventLine, HeartbeatLine;
  }

  // ---------- Bolt safety ----------

  /** Whatever fails, the bolt starts towards 180 exactly when it is not there and the window saw the door shut. */
  lemma {:induction false} BoltStartsOnlyOnAShutDoor(c: Config, m: Module, state: DoorState, s: Surroundings)
    requires Sound(m)
    ensures Lock(c, m, state, s).started == Some(LOCKED_POSITION) <==>
            Degrees(m.motor.position) != LOCKED_POSITION && SeenShut(s.window)
    ensures Unlock(c, m, state, s).started != Some(LOCKED_POSITION)
    ensures Status(c, m, state, s).started == None && Status(c, m, state, s).m.motor == m.motor
  {
    AverageTellsShut(s.window);
    hide Average, SeenShut, Rotate, Degrees, Update;
  }

  /** An assigned state tells the truth about the bolt. */
  predicate Truthful(written: Option<DoorState>, position: nat) {
    match written
    case None => true
    case Some(state) =>
      (state == LOCKED ==> position == 2048) && (state == UNLOCKED || state == OPEN ==> position == 0)
  }

  /** One call to the module. */
  datatype Call =
    | CallLock(state: DoorState, s: Surroundings)
    | CallUnlock(state: DoorState, s: Surroundings)
    | CallStatus(state: DoorState, s: Surroundings)

  function Perform(c: Config, m: Module, call: Call): Outcome
    requires Sound(m)
  {
    match call
    case CallLock(state, s) => Lock(c, m, state, s)
    case CallUnlock(state, s) => Unlock(c, m, state, s)
    case CallStatus(state, s) => Status(c, m, state, s)
  }

  /** The branches of `unlockDoor` that neither find the bolt withdrawn nor move it. */
  predicate FallsBack(m: Module) {
    Degrees(m.motor.position) != UNLOCKED_POSITION && m.lastKnown != LOCKED && Degrees(m.motor.position) != LOCKED_POSITION
  }

  /** The bolt is fully withdrawn or fully extended. */
  predicate AtRest(m: Module) { m.motor.position == 0 || m.motor.position == 2048 }

  lemma CompleteRotation(motor: Motor, degrees: int)
    requires motor.position < STEPS_PER_REV && (degrees == 0 || degrees == 180)
    ensures Rotate(motor, degrees, None).1
    ensures Rotate(motor, degrees, None).0.position == if degrees == 180 then 2048 else 0
  {
    RotationTakesTheShortestWayForward(motor, degrees, None);
    hide StepsNeeded;
    AfterWraps(0, TargetSteps(degrees));
  }

  lemma CallKeepsRest(c: Config, m: Module, call: Call)
    requires AtRest(m) && call.s.failAt == None
    ensures var o := Perform(c, m, call); AtRest(o.m) && Truthful(o.written, o.m.motor.position)
    ensures !FallsBack(m)
  {
    hide Rotate, Update, Average;
    LockedRange(m.motor.position);
    hide Degrees;
    CompleteRotation(m.motor, LOCKED_POSITION);
    CompleteRotation(m.motor, UNLOCKED_POSITION);
  }

  function PerformAll(c: Config, m: Module, calls: seq<Call>): (m': Module)
    requires Sound(m)
    ensures Sound(m')
  {
    if calls == [] then m
    else
      var m1 := PerformAll(c, m, calls[..|calls| - 1]);
      CallKeepsSound(c, m1, calls[|calls| - 1]);
      Perform(c, m1, calls[|calls| - 1]).m
  }

  lemma CallKeepsSound(c: Config, m: Module, call: Call)
    requires Sound(m)
    ensures Sound(Perform(c, m, call).m)
  {
    hide StepsNeeded, Update, Average, Degrees;
  }

  /**
   In every run of lock, unlock and status calls in which no pin write fails, the bolt is at exactly
   0 or 2048 half-steps at each call boundary, unlock never takes its fallback branches, and every
   state assigned is true of the bolt.
   */
  lemma {:induction false} BoltSafety(c: Config, m: Module, calls: seq<Call>, i: nat)
    requires AtRest(m) && i < |calls| && forall k | 0 <= k < |calls| :: calls[k].s.failAt == None
    ensures AtRest(PerformAll(c, m, calls[..i])) && !FallsBack(PerformAll(c, m, calls[..i]))
    ensures var o := Perform(c, PerformAll(c, m, calls[..i]), calls[i]);
      AtRest(o.m) && Truthful(o.written, o.m.motor.position)
    decreases i
  {
    AtRestIsSound(m);
    hide AtRest, FallsBack, Truthful, Perform;
    if i == 0 {
      assert calls[..0] == [];
    } else {
      BoltSafety(c, m, calls, i - 1);
      assert calls[..i][..i - 1] == calls[..i - 1];
    }
    AtRestIsSound(PerformAll(c, m, calls[..i]));
    CallKeepsRest(c, PerformAll(c, m, calls[..i]), calls[i]);
  }

  lemma AtRestIsSound(m: Module)
    requires AtRest(m)
    ensures Sound(m)
  {
  }

  // ---------- When a state assigned is true, whatever failed before ----------

  /**
   Unlock tells the truth exactly when it does not fall back. When it falls back on a near reading it
   says UNLOCKED without having moved the bolt.
   */
  lemma UnlockTruthIff(c: Config, m: Module, state: DoorState, s: Surroundings)
    requires Sound(m)
    ensures var o := Unlock(c, m, state, s); Truthful(o.written, o.m.motor.position) <==> !FallsBack(m)
    ensures var o := Unlock(c, m, state, s);
      o.written == Some(UNLOCKED) && o.started == None <==> FallsBack(m) && s.distance < CLOSED_THRESHOLD_CM
  {
    LockedRange(m.motor.position);
    RotationTruth(m.motor, UNLOCKED_POSITION, s.failAt);
    hide Rotate, Update, Degrees;
  }

  /** Status tells the truth exactly when the bolt is where its reading says, or the sensor fails and nothing is said. */
  lemma StatusTruthIff(c: Config, m: Module, state: DoorState, s: Surroundings)
    requires Sound(m)
    ensures var o, p := Status(c, m, state, s), m.motor.position;
      Truthful(o.written, o.m.motor.position) <==> if 2048 <= p <= 2059 then p == 2048 else p == 0 || s.distance == -1
  {
    LockedRange(m.motor.position);
    hide Rotate, Update, Degrees;
  }

  /** Lock tells the truth exactly when the bolt reads as locked, is withdrawn, or the window did not see the door open. */
  lemma LockTruthIff(c: Config, m: Module, state: DoorState, s: Surroundings)
    requires Sound(m)
    ensures var o, p := Lock(c, m, state, s), m.motor.position;
      Truthful(o.written, o.m.motor.position) <==> 2048 <= p <= 2059 || p == 0 || Average(s.window) < CLOSED_THRESHOLD_CM
  {
    LockedRange(m.motor.position);
    RotationTruth(m.motor, LOCKED_POSITION, s.failAt);
    hide Rotate, Update, Degrees, Average;
  }

  lemma RotationTruth(motor: Motor, degrees: int, failAt: Option<nat>)
    requires motor.position < STEPS_PER_REV && (degrees == 0 || degrees == 180)
    ensures Rotate(motor, degrees, failAt).1 ==>
              Rotate(motor, degrees, failAt).0.position == if degrees == 180 then 2048 else 0
  {
    hide StepsNeeded;
    if Rotate(motor, degrees, failAt).1 {
      RotationTakesTheShortestWayForward(motor, degrees, failAt);
      AfterWraps(0, TargetSteps(degrees));
    }
  }

  /** What can be known before a call: will the state it assigns be true of the bolt? */
  predicate WillBeTruthful(m: Module, call: Call) {
    var p := m.motor.position;
    match call
    case CallLock(_, s) => 2048 <= p <= 2059 || p == 0 || Average(s.window) < CLOSED_THRESHOLD_CM
    case CallUnlock(_, _) => !FallsBack(m)
    case CallStatus(_, s) => if 2048 <= p <= 2059 then p == 2048 else p == 0 || s.distance == -1
  }

  /**
   For every module state and every call, with or without failures: the state assigned is true of the
   bolt exactly when this condition on the bolt, the readings and the last known state holds.
   */
  lemma {:induction false} CallTruthIff(c: Config, m: Module, call: Call)
    requires Sound(m)
    ensures var o := Perform(c, m, call); Truthful(o.written, o.m.motor.position) <==> WillBeTruthful(m, call)
  {
    hide Lock, Unlock, Status, FallsBack, Truthful, Average;
    match call
    case CallLock(state, s) => LockTruthIff(c, m, state, s);
    case CallUnlock(state, s) => UnlockTruthIff(c, m, state, s);
    case CallStatus(state, s) => StatusTruthIff(c, m, state, s);
  }

  /** The module after a lock that fails after 1000 pulses. */
  lemma FailedLock(c: Config, m: Module, shut: Surroundings)
    requires m.motor.position == 0 && SeenShut(shut.window) && shut.failAt == Some(1000) && m.lastKnown == UNKNOWN
    ensures var m1 := Lock(c, m, UNKNOWN, shut).m; m1.motor.position == 1000 && m1.lastKnown == UNKNOWN
  {
    AverageTellsShut(shut.window);
    hide SeenShut, Average, Update;
    assert StepsNeeded(0, 180) == 2048;
    AfterWraps(0, 1000);
  }

  /** It does happen: a lock that fails after 1000 pulses, then an unlock, leaves "UNLOCKED" over a bolt at 1000. */
  lemma FailedLockThenUnlock(c: Config, m: Module, shut: Surroundings, near: Surroundings)
    requires m.motor.position == 0 && SeenShut(shut.window) && shut.failAt == Some(1000)
    requires m.lastKnown == UNKNOWN && 0 <= near.distance < CLOSED_THRESHOLD_CM
    ensures Sound(Lock(c, m, UNKNOWN, shut).m)
    ensures var o := Unlock(c, Lock(c, m, UNKNOWN, shut).m, UNKNOWN, near);
      o.written == Some(UNLOCKED) && o.m.motor.position == 1000 && !Truthful(o.written, o.m.motor.position)
  {
    FailedLock(c, m, shut);
    hide Lock, Update;
    LockedRange(1000);
  }

  /** And a STATUS after the same failure answers STATUS_UNLOCKED or STATUS_OPEN, whichever the reading suggests. */
  lemma FailedLockThenStatus(c: Config, m: Module, shut: Surroundings, s: Surroundings)
    requires m.motor.position == 0 && SeenShut(shut.window) && shut.failAt == Some(1000)
    requires m.lastKnown == UNKNOWN && s.distance != -1
    ensures Sound(Lock(c, m, UNKNOWN, shut).m)
    ensures var o := Run(c, Lock(c, m, UNKNOWN, shut).m, "STATUS", s);
      && Reply("STATUS", o.state) == (if s.distance < CLOSED_THRESHOLD_CM then "STATUS_UNLOCKED" else "STATUS_OPEN")
      && o.m.motor.position == 1000 && !Truthful(o.written, o.m.motor.position)
  {
    FailedLock(c, m, shut);
    hide Lock, Unlock, Update;
    LockedRange(1000);
  }
}
