/** State reporting on the door module: change notifications and periodic heartbeats (`door_udp_update`). */
module DoorReport {
  import opened Prelude
  import opened Wire

  /** `DoorReportMode`, a bit set. */
  datatype Mode = Mode(notify: bool, heartbeat: bool)

  datatype Config = Config(id: string, mode: Mode, period: int)

  /** A line and the destination it goes to: the notification or the heartbeat port. */
  datatype Packet = Notice(line: string) | Pulse(line: string)

  /** The file-level variables of `door_udp.c`. */
  datatype Reporter = Reporter(
    sockOpen: bool, valid: bool,
    d0Open: bool, d0Locked: bool, d1Open: bool, d1Locked: bool,
    lastHeartbeat: int)

  /** The four booleans handed to `door_udp_update`. */
  datatype Sample = Sample(d0Open: bool, d0Locked: bool, d1Open: bool, d1Locked: bool)

  function Save(r: Reporter, s: Sample): Reporter {
    r.(d0Open := s.d0Open, d0Locked := s.d0Locked, d1Open := s.d1Open, d1Locked := s.d1Locked)
  }

  function Pulses(c: Config, s: Sample): seq<Packet> {
    [Pulse(HeartbeatLine(c.id, s.d0Open, s.d1Locked))]
  }

  /** Only D0 DOOR and D1 LOCK changes are announced. */
  function Notices(c: Config, r: Reporter, s: Sample): seq<Packet> {
    (if s.d0Open != r.d0Open then [Notice(EventLine(c.id, "D0", "DOOR", OpenText(s.d0Open)))] else [])
    + (if s.d1Locked != r.d1Locked then [Notice(EventLine(c.id, "D1", "LOCK", LockText(s.d1Locked)))] else [])
  }

  predicate Due(c: Config, r: Reporter, t: int) {
    c.mode.heartbeat && t - r.lastHeartbeat >= c.period
  }

  /** One call of `door_udp_update` at time `t`: the new variables and the lines sent, in order. */
  function Update(c: Config, r: Reporter, s: Sample, t: int): (Reporter, seq<Packet>) {
    if !r.sockOpen then (r, [])
    else if !r.valid then
      (Save(r, s).(valid := true, lastHeartbeat := t), if c.mode.heartbeat then Pulses(c, s) else [])
    else
      (Save(r, s).(lastHeartbeat := if Due(c, r, t) then t else r.lastHeartbeat),
       (if c.mode.notify then Notices(c, r, s) else []) + (if Due(c, r, t) then Pulses(c, s) else []))
  }

  class DoorUdp {
    const config: Config
    var sockOpen: bool
    var valid: bool
    var d0Open: bool
    var d0Locked: bool
    var d1Open: bool
    var d1Locked: bool
    var lastHeartbeat: int

    ghost function State(): Reporter
      reads this
    {
      Reporter(sockOpen, valid, d0Open, d0Locked, d1Open, d1Locked, lastHeartbeat)
    }

    /** `door_udp_init2` once its socket is bound; a non-positive period means one second. */
    constructor (id: string, mode: Mode, period: int, now: int)
      ensures config == Config(Clip(id, 15), mode, if period > 0 then period else 1000)
      ensures sockOpen && !valid && lastHeartbeat == now
    {
      config := Config(Clip(id, 15), mode, if period > 0 then period else 1000);
      sockOpen, valid, lastHeartbeat := true, false, now;
      d0Open, d0Locked, d1Open, d1Locked := false, false, false, false;
    }

    /** The notification half of `door_udp_update`. */
    method AnnounceChanges(s: Sample) returns (sent: seq<Packet>)
      ensures sent == Notices(config, State(), s)
    {
      hide EventLine;
      sent := [];
      if s.d0Open != d0Open {
        sent := sent + [Notice(EventLine(config.id, "D0", "DOOR", OpenText(s.d0Open)))];
      }
      if s.d1Locked != d1Locked {
        sent := sent + [Notice(EventLine(config.id, "D1", "LOCK", LockText(s.d1Locked)))];
      }
    }

    method DoorUdpUpdate(s: Sample, t: int) returns (sent: seq<Packet>)
      modifies this
      ensures (State(), sent) == Update(config, old(State()), s, t)
    {
      hide Notices, HeartbeatLine;
      sent := [];
      if !sockOpen {
        return;
      }
      if !valid {
        d0Open, d0Locked, d1Open, d1Locked := s.d0Open, s.d0Locked, s.d1Open, s.d1Locked;
        valid := true;
        lastHeartbeat := t;
        if config.mode.heartbeat {
          sent := [Pulse(HeartbeatLine(config.id, s.d0Open, s.d1Locked))];
        }
        return;
      }
      if config.mode.notify {
        sent := AnnounceChanges(s);
      }
      assert sent + [] == sent;
      if config.mode.heartbeat {
        if t - lastHeartbeat >= config.period {
          sent := sent + [Pulse(HeartbeatLine(config.id, s.d0Open, s.d1Locked))];
          lastHeartbeat := t;
        }
      }
      d0Open, d0Locked, d1Open, d1Locked := s.d0Open, s.d0Locked, s.d1Open, s.d1Locked;
    }

    /** `door_udp_close`. */
    method Close()
      modifies this
      ensures State() == old(State()).(sockOpen := false, valid := false)
    {
      sockOpen := false;
      valid := false;
    }
  }
}
