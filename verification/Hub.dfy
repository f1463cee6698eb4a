/**
 The hub's tables as `hub_udp.c` keeps them, in fixed-size arrays scanned by loops and updated in
 place. Every method is proved to compute the step that `HubModel` specifies.
 */
module Hub {
  import opened Prelude
  import opened Wire
  import opened HubModel
  import opened HistoryRing
  import opened HubTables

  class DoorTable {
    const slots: array<DoorRec>

    ghost predicate Valid() { slots.Length == MAX_DOORS }

    constructor ()
      ensures Valid() && fresh(slots)
      ensures slots[..] == seq(MAX_DOORS, _ => BLANK_DOOR)
    {
      slots := new DoorRec[MAX_DOORS](_ => BLANK_DOOR);
    }

    /** The scan that `hub_udp_get_status` and `hub_udp_send_command` start with. */
    method Find(mod: string) returns (slot: int)
      requires Valid()
      ensures slot == (if FindDoor(slots[..], mod) < MAX_DOORS then FindDoor(slots[..], mod) else -1)
    {
      for i := 0 to slots.Length
        invariant forall j | 0 <= j < i :: !Owns(slots[j], mod)
      {
        if Owns(slots[i], mod) {
          return i;
        }
      }
      return -1;
    }

    /** `find_or_create_door`; -1 stands for NULL. */
    method FindOrCreate(mod: string) returns (slot: int)
      requires Valid()
      modifies slots
      ensures var i := DoorSlot(old(slots[..]), mod);
        if i == MAX_DOORS then slot == -1 && slots[..] == old(slots[..])
        else slot == i && slots[..] == old(slots[..])[i := ClaimedDoor(old(slots[..]), mod)]
    {
      slot := Find(mod);
      if slot >= 0 {
        return;
      }
      for i := 0 to slots.Length
        invariant slots[..] == old(slots[..])
        invariant forall j | 0 <= j < i :: slots[j].known
      {
        if !slots[i].known {
          slots[i] := NewDoor(mod);
          return i;
        }
      }
      return -1;
    }
  }

  class EndpointTable {
    const slots: array<Endpoint>
    var num: nat

    ghost predicate Valid()
      reads this
    {
      slots.Length == MAX_MODULES && num <= MAX_MODULES
    }

    ghost function Contents(): seq<Endpoint>
      requires Valid()
      reads this, slots
    {
      slots[..num]
    }

    constructor ()
      ensures Valid() && fresh(slots) && Contents() == []
    {
      slots := new Endpoint[MAX_MODULES](_ => Endpoint("", NO_ADDR));
      num := 0;
    }

    /** `hub_find_endpoint`; -1 stands for NULL. */
    method Find(mod: string) returns (slot: int)
      requires Valid()
      ensures slot == (if FindEndpoint(Contents(), mod) < num then FindEndpoint(Contents(), mod) else -1)
    {
      ghost var es := Contents();
      for i := 0 to num
        invariant forall j | 0 <= j < i :: es[j].id != mod
      {
        assert es[i] == slots[i];
        if slots[i].id == mod {
          assert i == FindEndpoint(es, mod);
          return i;
        }
      }
      return -1;
    }

    /** `hub_update_endpoint`. */
    method Update(mod: string, src: Addr)
      requires Valid()
      modifies this, slots
      ensures Valid() && Contents() == Learn(old(Contents()), mod, src)
    {
      var slot := Find(mod);
      if slot < 0 {
        if num >= MAX_MODULES {
          return;
        }
        slots[num] := Endpoint(Clip(mod, ID_CHARS), NO_ADDR);
        slot := num;
        num := num + 1;
      }
      slots[slot] := slots[slot].(addr := src);
    }
  }

  class PendingTable {
    const slots: array<Pending>

    ghost predicate Valid() { slots.Length == MAX_PENDING }

    constructor ()
      ensures Valid() && fresh(slots)
      ensures slots[..] == seq(MAX_PENDING, _ => BLANK_PENDING)
    {
      slots := new Pending[MAX_PENDING](_ => BLANK_PENDING);
    }

    /** `register_client_command`: one scan finds the first free slot or, failing that, the oldest. */
    method RegisterCommand(id: int, mod: string, client: Addr, now: int)
      requires Valid()
      modifies slots
      ensures slots[..] == Register(old(slots[..]), id, mod, client, now)
    {
      var slot := 0;
      var oldest := slots[0].issued;
      var i := 0;
      while i < slots.Length
        invariant 0 <= i <= slots.Length && slot < slots.Length
        invariant forall j | 0 <= j < i :: slots[j].id != 0
        invariant oldest == slots[slot].issued
        invariant forall j | 0 <= j < i :: slots[slot].issued <= slots[j].issued
        invariant forall j | 0 <= j < slot :: slots[slot].issued < slots[j].issued
        invariant slot == 0 || slot < i
      {
        if slots[i].id == 0 {
          slot := i;
          break;
        }
        if slots[i].issued < oldest {
          oldest := slots[i].issued;
          slot := i;
        }
        i := i + 1;
      }
      assert slot == RegisterSlot(slots[..]);
      slots[slot] := Pending(id, client, Clip(mod, ID_CHARS), now);
    }

    /** `get_and_clear_client_cmd`: the client, and its slot is free again. */
    method GetAndClear(mod: string, id: int) returns (client: Option<Addr>)
      requires Valid()
      modifies slots
      ensures client == ClientOf(old(slots[..]), mod, id)
      ensures slots[..] == Clear(old(slots[..]), mod, id)
    {
      for i := 0 to slots.Length
        invariant slots[..] == old(slots[..])
        invariant forall j | 0 <= j < i :: !(slots[j].id == id && slots[j].mod == mod)
      {
        if slots[i].id == id && slots[i].mod == mod {
          assert i == FindPending(slots[..], mod, id);
          client := Some(slots[i].client);
          slots[i] := slots[i].(id := 0);
          return;
        }
      }
      client := None;
    }
  }

  class Hub {
    const doors: DoorTable
    const endpoints: EndpointTable
    const pending: PendingTable
    const history: Ring<Entry>

    ghost function Repr(): set<object>
      reads this
    {
      {doors.slots, endpoints, endpoints.slots, pending.slots, history, history.slots}
    }

    ghost predicate Valid()
      reads this, Repr()
    {
      && doors.Valid() && endpoints.Valid() && pending.Valid() && history.Valid()
      && (doors.slots as object) != endpoints.slots && (doors.slots as object) != pending.slots
      && (doors.slots as object) != history.slots && (endpoints.slots as object) != pending.slots
      && (endpoints.slots as object) != history.slots && (pending.slots as object) != history.slots
    }

    ghost function State(): HubState
      requires Valid()
      reads this, Repr()
    {
      HubState(doors.slots[..], endpoints.Contents(), pending.slots[..], history.log)
    }

    constructor ()
      ensures Valid() && fresh(Repr()) && State() == InitialHub()
    {
      doors := new DoorTable();
      endpoints := new EndpointTable();
      pending := new PendingTable();
      history := new Ring<Entry>();
    }

    /** The HEARTBEAT branch: state tokens are applied one by one while their text is collected. */
    method HandleHeartbeat(slot: nat, toks: seq<string>, hist: string, t: int)
      requires Valid() && slot < MAX_DOORS
      modifies doors.slots
      ensures Valid()
      ensures doors.slots[..] == old(doors.slots[..])[slot := Beat(old(doors.slots[slot]), toks, hist, t)]
    {
      hide ApplyState, Append, Clip, Retained, Window, KindOf;
      ghost var before := doors.slots[..];
      var text := "";
      for i := 0 to |toks|
        invariant doors.slots[slot] == ApplyStates(before[slot], toks[..i])
        invariant forall j | 0 <= j < MAX_DOORS && j != slot :: doors.slots[j] == before[j]
        invariant text == Joined(toks[..i])
      {
        assert toks[..i + 1][..i] == toks[..i];
        doors.slots[slot] := ApplyState(doors.slots[slot], toks[i]);
        if text != "" {
          text := Append(text, " ");
        }
        text := Append(text, toks[i]);
      }
      assert toks[..|toks|] == toks;
      var line := if text != "" then text else Clip(hist, 255);
      doors.slots[slot] := doors.slots[slot].(lastHeartbeat := t, heartbeatLine := line);
      hide ApplyStates, Joined;
    }

    /** The EVENT branch. */
    method HandleEvent(slot: nat, toks: seq<string>, t: int)
      requires Valid() && slot < MAX_DOORS && |toks| >= 2 && KindOf(toks[1]) == Event
      modifies doors.slots
      ensures Valid()
      ensures doors.slots[..] == old(doors.slots[..])[slot := DoorAfter(old(doors.slots[slot]), toks, t)]
    {
      hide KindOf, ReadChange, ApplyEvent;
      if |toks| >= 5 {
        doors.slots[slot] := ApplyEvent(doors.slots[slot], toks[2], ReadChange(toks[3], toks[4]));
      }
      doors.slots[slot] := doors.slots[slot].(lastEvent := t);
    }

    /** The FEEDBACK branch: remember it for a waiting command, log it, relay it to its client. */
    method HandleFeedback(slot: nat, toks: seq<string>, t: int) returns (sent: seq<Out>)
      requires Valid() && slot < MAX_DOORS && Complete(toks, Feedback)
      modifies doors.slots, pending.slots, history, history.slots
      ensures Valid()
      ensures doors.slots[..] == old(doors.slots[..])[slot := DoorAfter(old(doors.slots[slot]), toks, t)]
      ensures pending.slots[..] == Clear(old(pending.slots[..]), toks[0], Atoi(toks[2]))
      ensures history.log == old(history.log) + LogAfter(toks, t)[1..]
      ensures sent == Sends(old(State()), toks, "")
    {
      hide KindOf, FindPending, FeedbackLine;
      var id := Atoi(toks[2]);
      doors.slots[slot] := doors.slots[slot].(
        feedbackTarget := Clip(toks[3], 31), feedbackAction := Clip(toks[4], 31), feedbackMs := t, feedbackId := id);
      history.Add(MakeEntry(t, toks[0], Clip("FEEDBACK " + PrintInt(id) + " " + toks[3] + " " + toks[4], 255)));
      var client := pending.GetAndClear(toks[0], id);
      sent := [];
      if client.Some? {
        sent := [Out(client.value, Clip(FeedbackLine(toks[0], id, toks[3], toks[4]), 255))];
      }
    }

    /** The COMMAND branch: register the client, forward the untouched line to the module. */
    method HandleCommand(toks: seq<string>, line: string, src: Addr, issued: int) returns (sent: seq<Out>)
      requires Valid() && Complete(toks, Command)
      modifies pending.slots
      ensures Valid()
      ensures pending.slots[..] == Register(old(pending.slots[..]), Atoi(toks[2]), toks[0], src, issued)
      ensures sent == Sends(old(State()), toks, line)
    {
      hide KindOf, RegisterSlot;
      pending.RegisterCommand(Atoi(toks[2]), toks[0], src, issued);
      var slot := endpoints.Find(toks[0]);
      sent := if slot < 0 then [] else [Out(endpoints.slots[slot].addr, line)];
    }

    /** What `handle_line` does once the module has a record. */
    method HandleTracked(slot: nat, toks: seq<string>, line: string, src: Addr, t: int, issued: int) returns (sent: seq<Out>)
      requires Valid() && slot < MAX_DOORS && |toks| >= 2
      modifies doors.slots, pending.slots, history, history.slots
      ensures Valid()
      ensures doors.slots[..] == old(doors.slots[..])[slot := DoorAfter(old(doors.slots[slot]), toks, t)]
      ensures pending.slots[..] == PendingAfter(old(pending.slots[..]), toks, src, issued)
      ensures history.log == old(history.log) + LogAfter(toks, t)
      ensures sent == Sends(old(State()), toks, line)
    {
      hide Retained, KindOf, Register, Clear, Beat, ApplyEvent, ReadChange, Clip, FindEndpoint, FindPending;
      sent := [];
      ghost var ds := doors.slots[..];
      var hist := toks[0] + " " + toks[1];
      history.Add(MakeEntry(t, toks[0], Clip(hist, 255)));
      match KindOf(toks[1]) {
        case Heartbeat => HandleHeartbeat(slot, toks[2..], hist, t);
        case Event => HandleEvent(slot, toks, t);
        case Feedback =>
          if |toks| >= 5 {
            sent := HandleFeedback(slot, toks, t);
          }
        case Command =>
          if |toks| >= 5 {
            sent := HandleCommand(toks, line, src, issued);
          }
        case Other => doors.slots[slot] := doors.slots[slot].(lastEvent := t);
      }
      assert doors.slots[..] == ds[slot := DoorAfter(ds[slot], toks, t)];
    }

    /** `handle_line`. */
    method Receive(line: string, src: Addr, t: int, issued: int) returns (sent: seq<Out>)
      requires Valid()
      modifies Repr()
      ensures Valid()
      ensures (State(), sent) == HandleLine(old(State()), line, src, t, issued)
    {
      hide Retained, Tokens, KindOf, Learn, DoorSlot, ClaimedDoor, DoorAfter, PendingAfter, LogAfter, Clip, FindEndpoint, ClientOf;
      sent := [];
      ghost var h := State();
      var toks := Tokens(line, C_BLANKS);
      if |toks| < 2 {
        return;
      }
      var kind := KindOf(toks[1]);
      if kind != Command {
        endpoints.Update(toks[0], src);
      }
      var slot := doors.FindOrCreate(toks[0]);
      if slot < 0 {
        history.Add(MakeEntry(t, toks[0], "<NO-STATE> (untracked)"));
        return;
      }
      if kind != Command {
        doors.slots[slot] := doors.slots[slot].(addr := Some(src));
      }
      ghost var d := Heard(ClaimedDoor(h.doors, toks[0]), toks, src);
      assert doors.slots[..] == h.doors[slot := d];
      sent := HandleTracked(slot, toks, line, src, t, issued);
      assert doors.slots[..] == h.doors[slot := DoorAfter(d, toks, t)];
    }

    /** One turn of the loop in `check_offline_modules`. */
    method CheckModule(i: nat, now: int)
      requires Valid() && i < MAX_DOORS
      modifies doors.slots, history, history.slots
      ensures Valid()
      ensures doors.slots[i] == CheckDoor(old(doors.slots[i]), now)
      ensures forall j | 0 <= j < MAX_DOORS && j != i :: doors.slots[j] == old(doors.slots[j])
      ensures history.log == old(history.log) + CheckEntry(old(doors.slots[i]), now)
    {
      hide Overdue, OfflineLine, OnlineLine, MakeEntry;
      var d := doors.slots[i];
      if d.known {
        if Overdue(d, now) && !d.offline {
          doors.slots[i] := d.(offline := true, lastOnline := now);
          history.Add(MakeEntry(now, d.id, OfflineLine(d.id)));
        } else if !Overdue(d, now) && d.offline {
          doors.slots[i] := d.(offline := false);
          history.Add(MakeEntry(now, d.id, OnlineLine(d.id)));
        }
      }
    }

    /** The loop of `check_offline_modules`. */
    method CheckAll(now: int)
      requires Valid()
      modifies doors.slots, history, history.slots
      ensures Valid()
      ensures forall j | 0 <= j < MAX_DOORS :: doors.slots[j] == CheckDoor(old(doors.slots[j]), now)
      ensures history.log == old(history.log) + CheckEntries(old(doors.slots[..]), now)
    {
      hide CheckDoor, CheckEntry, Retained;
      ghost var before := doors.slots[..];
      for i := 0 to doors.slots.Length
        invariant Valid()
        invariant forall j | 0 <= j < i :: doors.slots[j] == CheckDoor(before[j], now)
        invariant forall j | i <= j < MAX_DOORS :: doors.slots[j] == before[j]
        invariant history.log == old(history.log) + CheckEntries(before[..i], now)
      {
        assert before[..i + 1][..i] == before[..i];
        CheckModule(i, now);
      }
      assert before[..MAX_DOORS] == before;
    }

    /** `check_offline_modules`. */
    method CheckOfflineModules(now: int)
      requires Valid()
      modifies doors.slots, history, history.slots
      ensures Valid() && State() == CheckOffline(old(State()), now)
    {
      hide CheckDoor, CheckEntries;
      CheckAll(now);
      assert doors.slots[..] == CheckOffline(old(State()), now).doors;
    }

    /** `hub_udp_get_status`. */
    method GetStatus(mod: string) returns (d: Option<DoorRec>)
      requires Valid()
      ensures d == Lookup(State().doors, mod)
    {
      var slot := doors.Find(mod);
      d := if slot < 0 then None else Some(doors.slots[slot]);
    }

    /** `hub_udp_get_history`. */
    method GetHistory(max: int) returns (out: seq<Entry>)
      requires Valid()
      ensures out == Window(State().log, max)
    {
      out := history.Get(max);
    }
  }
}
