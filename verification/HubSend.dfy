/** `hub_udp_send_command`: a command of the hub itself, sent up to three times until it is acknowledged. */
module HubSend {
  import opened Prelude
  import opened Wire
  import opened HubModel
  import opened Orders
  import Hub

  const ACK_RETRIES := 2

  /** The test behind `got`: any id from `o.id` on will do, the stored texts hold at most 31 characters. */
  predicate Acknowledges(d: DoorRec, o: Order) {
    d.feedbackId >= o.id && d.feedbackTarget == o.target && d.feedbackAction == o.action
  }

  /** The record a command can be sent to: known, and heard from. */
  predicate Reachable(doors: seq<DoorRec>, mod: string) {
    FindDoor(doors, mod) < |doors| && doors[FindDoor(doors, mod)].addr.Some?
  }

  /** What one pass of the retry loop meets: a failure, or the record as it stands when the wait is over. */
  datatype Attempt = NoSocket | SendFailed | Waited(seen: DoorRec)

  predicate Succeeds(a: Attempt, o: Order) { a.Waited? && Acknowledges(a.seen, o) }

  /** Datagrams that leave during the first `n` passes. */
  function Departures(env: seq<Attempt>, n: nat): (k: nat)
    requires n <= |env|
    ensures k <= n
  {
    if n == 0 then 0 else Departures(env, n - 1) + if env[n - 1].Waited? then 1 else 0
  }

  /**
   How a call for `o` may end when the passes of its loop meet `env`: after the first pass that is
   acknowledged, or without success after the last; one datagram per pass that was not cut short.
   */
  predicate LoopResult(env: seq<Attempt>, o: Order, ok: bool, passes: nat, datagrams: nat)
    requires |env| == 3
  {
    && passes <= 3 && datagrams == Departures(env, passes)
    && (forall i | 0 <= i < passes - 1 :: !Succeeds(env[i], o))
    && (if ok then passes > 0 && Succeeds(env[passes - 1], o)
        else passes == 3 && !Succeeds(env[2], o))
  }

  /**
   The call on the hub's door table; the passes of its loop meet `env`. It makes at most three passes,
   stops at the first that is acknowledged, and succeeds exactly when there is one.
   */
  method SendCommand(table: Hub.DoorTable, nextId: int, moduleId: string, target: string, action: string, env: seq<Attempt>)
    returns (ok: bool, sent: seq<Out>, nextId': int, ghost passes: nat)
    requires table.Valid() && |env| == 3
    ensures !Reachable(table.slots[..], moduleId) ==> !ok && sent == [] && nextId' == nextId
    ensures Reachable(table.slots[..], moduleId) ==>
              nextId' == nextId + 1 && LoopResult(env, Order(nextId, moduleId, target, action), ok, passes, |sent|)
    ensures Reachable(table.slots[..], moduleId) ==>
              forall i | 0 <= i < |sent| ::
                sent[i] == Out(table.slots[FindDoor(table.slots[..], moduleId)].addr.value,
                               Clip(CommandLine(moduleId, nextId, target, action), 255))
  {
    hide FindDoor, Clip, CommandLine;
    ok, sent, nextId', passes := false, [], nextId, 0;
    var slot := table.Find(moduleId);
    if slot < 0 || table.slots[slot].addr == None {
      return;
    }
    var dest, cmdid := table.slots[slot].addr.value, nextId;
    nextId' := nextId + 1;
    var buf := Clip(CommandLine(moduleId, cmdid, target, action), 255);
    ghost var o := Order(cmdid, moduleId, target, action);
    var attempt := 0;
    while attempt <= ACK_RETRIES
      invariant 0 <= attempt <= ACK_RETRIES + 1 && passes == attempt
      invariant |sent| == Departures(env, attempt)
      invariant forall i | 0 <= i < |sent| :: sent[i] == Out(dest, buf)
      invariant forall i | 0 <= i < attempt :: !Succeeds(env[i], o)
    {
      passes := attempt + 1;
      match env[attempt] {
        case NoSocket =>
        case SendFailed =>
        case Waited(door) =>
          sent := sent + [Out(dest, buf)];
          if door.feedbackId >= cmdid && door.feedbackTarget == target && door.feedbackAction == action {
            ok := true;
            return;
          }
      }
      attempt := attempt + 1;
    }
  }
}
