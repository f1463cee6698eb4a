/** The bridge object as a part of the system: each of its methods makes the system's step. */
module BridgePort {
  import opened Prelude
  import opened Wire
  import opened Orders
  import opened System
  import HubModel
  import B = Bridge

  /** The object is in the state that the system has for the bridge. */
  ghost predicate Plays(b: B.Bridge, s: Sys)
    reads b
  {
    HubModel.HubOk(s.hub) && b.State() == s.bridge
  }

  /** This command is sent, under the next id, in one datagram to the hub. */
  ghost predicate Sends(s: Sys, s': Sys, o: Order, asker: Option<B.Client>, payload: string) {
    && payload == o.mod + " COMMAND " + PrintInt(o.id) + " " + o.target + " " + o.action + "\n"
    && o.id == s.bridge.counter && s'.bridge.counter == s.bridge.counter + 1
    && s'.net == s.net + {Packet(s.site.bridge, s.site.hub, payload)}
    && s'.trace == s.trace + [Issued(ByBridge(asker), o)]
  }

  /** The addressed module finds in the datagram what it sees of the command; no other module finds anything. */
  ghost predicate Addresses(payload: string, o: Order) {
    forall mod :: ReadCommand(mod, payload) == if mod == o.mod then Seen(o) else None
  }

  lemma PayloadAddresses(o: Order)
    requires Sendable(o)
    ensures Addresses(CommandText(o), o)
  {
    hide Sendable, ReadCommand, CommandText, Seen;
    forall mod
      ensures ReadCommand(mod, CommandText(o)) == if mod == o.mod then Seen(o) else None
    {
      DoorReads(o, CommandText(o), mod);
    }
  }

  /** `sendCommand`: the module and target named, D1 and D0 where none is. */
  method Ask(b: B.Bridge, ghost s: Sys, moduleId: string, target: string, action: string, asker: Option<B.Client>)
    returns (payload: string, ghost o: Order)
    requires Plays(b, s)
    modifies b
    ensures o.mod == (if moduleId == "" then "D1" else moduleId)
    ensures o.target == (if target == "" then "D0" else target) && o.action == action
    ensures Sendable(o) ==>
              var s' := Next(s, System.Ask(o.mod, o.target, action, asker));
              Plays(b, s') && Sends(s, s', o, asker, payload) && Addresses(payload, o)
  {
    hide Sendable, Seen, ReadCommand;
    o := Order(b.cmdCounter, if moduleId == "" then "D1" else moduleId, if target == "" then "D0" else target, action);
    payload := b.SendCommand(moduleId, target, action, asker);
    if Sendable(o) {
      PayloadAddresses(o);
    }
  }

  /** The `send-command` handler, which asks for STATUS when no action is named. */
  method AskFromWeb(b: B.Bridge, ghost s: Sys, moduleId: string, target: string, action: string, client: B.Client)
    returns (payload: string, ghost o: Order)
    requires Plays(b, s)
    modifies b
    ensures o.mod == (if moduleId == "" then "D1" else moduleId)
    ensures o.target == (if target == "" then "D0" else target) && o.action == (if action == "" then "STATUS" else action)
    ensures Sendable(o) ==>
              var s' := Next(s, System.Ask(o.mod, o.target, o.action, Some(client)));
              Plays(b, s') && Sends(s, s', o, Some(client), payload) && Addresses(payload, o)
  {
    hide Sendable, Seen, ReadCommand;
    o := Order(b.cmdCounter, if moduleId == "" then "D1" else moduleId, if target == "" then "D0" else target,
               if action == "" then "STATUS" else action);
    payload := b.OnSendCommand(moduleId, target, action, client);
    if Sendable(o) {
      PayloadAddresses(o);
    }
  }

  /** The `get-door-info` handler: STATUS for D0 of the module named, with a D put before a name without one. */
  method AskInfo(b: B.Bridge, ghost s: Sys, moduleId: string, client: B.Client) returns (payload: string, ghost o: Order)
    requires Plays(b, s)
    modifies b
    ensures o.mod == (if moduleId != "" && moduleId[0] == 'D' then moduleId else "D" + moduleId)
    ensures o.target == "D0" && o.action == "STATUS"
    ensures Sendable(o) ==>
              var s' := Next(s, System.AskInfo(o.mod, client));
              Plays(b, s') && Sends(s, s', o, Some(client), payload) && Addresses(payload, o)
  {
    hide Sendable, Seen, ReadCommand;
    var named := moduleId != "" && moduleId[0] == 'D';
    assert named <==> "D" <= moduleId;
    o := Order(b.cmdCounter, if named then moduleId else "D" + moduleId, "D0", "STATUS");
    payload := b.GetDoorInfo(moduleId, client);
    if Sendable(o) {
      PayloadAddresses(o);
    }
  }

  /** A datagram from the hub: at most one answer, and it is the one observed in the system. */
  method Hears(b: B.Bridge, ghost s: Sys, p: Packet) returns (answers: seq<B.Answer>)
    requires Plays(b, s) && p in s.net && p.dst == s.site.bridge
    modifies b
    ensures var s' := Next(s, BridgeHears(p));
      && Plays(b, s') && s'.net == s.net
      && if answers == [] then s'.trace == s.trace
         else |answers| == 1 && answers[0].outcome.Feedback?
              && var a := answers[0];
                 s'.trace == s.trace + [Answered(a.client, Order(a.id, a.outcome.mod, a.outcome.target, a.outcome.action))]
  {
    hide B.FeedbackId;
    answers := b.OnMessage(p.payload);
  }

  /** The two callbacks that the network does not see. */
  method SendEnds(b: B.Bridge, ghost s: Sys, id: int, failed: bool) returns (answers: seq<B.Answer>)
    requires Plays(b, s) && id in s.bridge.sending
    modifies b
    ensures Plays(b, Next(s, BridgeSent(id, failed)))
  {
    answers := b.OnSendDone(id, failed);
  }

  method TimerEnds(b: B.Bridge, ghost s: Sys, timer: nat) returns (answers: seq<B.Answer>)
    requires Plays(b, s) && timer in s.bridge.timers
    modifies b
    ensures Plays(b, Next(s, BridgeTimer(timer)))
  {
    answers := b.OnTimer(timer);
  }
}
