/**
 Facts about single steps of the hub's tables: which record a line touches, which route it
 teaches, which pending registration it creates, consumes or evicts.
 */
module HubTables {
  import opened Prelude
  import opened Wire
  import opened HubModel

  // ---------- The door table is a map from module ids to records ----------

  /** The table read as a map. */
  function Lookup(doors: seq<DoorRec>, mod: string): Option<DoorRec> {
    var i := FindDoor(doors, mod);
    if i < |doors| then Some(doors[i]) else None
  }

  /** At most one record per module. */
  ghost predicate Unique(doors: seq<DoorRec>) {
    forall i, j | 0 <= i < j < |doors| && doors[i].known && doors[j].known :: doors[i].id != doors[j].id
  }

  /** The slot of `mod` is written with a record of `mod`: one key of the map changes, nothing else. */
  lemma WriteSlot(doors: seq<DoorRec>, mod: string, d: DoorRec, x: string)
    requires DoorSlot(doors, mod) < |doors| && d.known && d.id == mod
    ensures Lookup(doors[DoorSlot(doors, mod) := d], x) == if x == mod then Some(d) else Lookup(doors, x)
  {
    var slot := DoorSlot(doors, mod);
    var doors' := doors[slot := d];
    var i, i' := FindDoor(doors, x), FindDoor(doors', x);
    if x == mod {
      assert forall j | 0 <= j < slot :: doors'[j] == doors[j] && !Owns(doors[j], mod);
      assert Owns(doors'[slot], mod);
    } else {
      assert forall j | 0 <= j < |doors| :: Owns(doors'[j], x) <==> Owns(doors[j], x);
      assert i' == i;
    }
  }

  lemma WriteSlotUnique(doors: seq<DoorRec>, mod: string, d: DoorRec)
    requires Unique(doors) && DoorSlot(doors, mod) < |doors| && d.known && d.id == mod
    ensures Unique(doors[DoorSlot(doors, mod) := d])
  {
    var slot := DoorSlot(doors, mod);
    if !Owns(doors[slot], mod) {
      assert forall j | 0 <= j < |doors| :: !Owns(doors[j], mod);
    }
  }

  /** The table change of `handle_line`, seen as a change of the map. */
  function DoorsAfter(doors: seq<DoorRec>, toks: seq<string>, src: Addr, t: int): seq<DoorRec>
    requires |toks| >= 2
  {
    var slot := DoorSlot(doors, toks[0]);
    if slot == |doors| then doors
    else doors[slot := DoorAfter(Heard(ClaimedDoor(doors, toks[0]), toks, src), toks, t)]
  }

  lemma LineDoors(h: HubState, line: string, src: Addr, t: int, issued: int)
    requires h.pending != []
    ensures var toks := Tokens(line, C_BLANKS);
      HandleLine(h, line, src, t, issued).0.doors == if |toks| < 2 then h.doors else DoorsAfter(h.doors, toks, src, t)
  {
  }

  /** The record of `toks[0]` after the line, for ids that fit. */
  function Target(doors: seq<DoorRec>, toks: seq<string>, src: Addr, t: int): Option<DoorRec>
    requires |toks| >= 2
  {
    if DoorSlot(doors, toks[0]) == |doors| then None
    else Some(DoorAfter(Heard(ClaimedDoor(doors, toks[0]), toks, src), toks, t))
  }

  /** A line changes the record of the module it names and no other record. */
  lemma LineTouchesOneDoor(doors: seq<DoorRec>, toks: seq<string>, src: Addr, t: int, x: string)
    requires |toks| >= 2 && |toks[0]| <= ID_CHARS
    ensures Lookup(DoorsAfter(doors, toks, src, t), x)
            == if x == toks[0] then Target(doors, toks, src, t) else Lookup(doors, x)
    ensures Unique(doors) ==> Unique(DoorsAfter(doors, toks, src, t))
  {
    if DoorSlot(doors, toks[0]) < |doors| {
      var d := Heard(ClaimedDoor(doors, toks[0]), toks, src);
      DoorAfterKeeps(d, toks, t);
      WriteSlot(doors, toks[0], DoorAfter(d, toks, t), x);
      if Unique(doors) {
        WriteSlotUnique(doors, toks[0], DoorAfter(d, toks, t));
      }
    }
  }

  /**
   What the hub stores of a tracked module's line that carries no door state: of a FEEDBACK the address and
   the four acknowledgement fields, of a COMMAND nothing, of any other line the address and the time.
   */
  lemma {:induction false} WhatLinesStore(doors: seq<DoorRec>, toks: seq<string>, src: Addr, t: int)
    requires |toks| >= 2 && |toks[0]| <= ID_CHARS && Lookup(doors, toks[0]).Some?
    ensures var d, e := Lookup(doors, toks[0]).value, Lookup(DoorsAfter(doors, toks, src, t), toks[0]);
      && (toks[1] == "COMMAND" ==> e == Some(d))
      && (toks[1] == "FEEDBACK" ==>
            e == Some(if |toks| < 5 then d.(addr := Some(src))
                      else d.(addr := Some(src), feedbackMs := t, feedbackId := Atoi(toks[2]),
                              feedbackTarget := Clip(toks[3], 31), feedbackAction := Clip(toks[4], 31))))
      && (toks[1] !in {"COMMAND", "FEEDBACK", "EVENT", "HEARTBEAT"} ==> e == Some(d.(addr := Some(src), lastEvent := t)))
  {
    LineTouchesOneDoor(doors, toks, src, t, toks[0]);
    var d := Lookup(doors, toks[0]).value;
    hide DoorsAfter, Atoi, Beat, ApplyEvent;
    assert Target(doors, toks, src, t) == Some(DoorAfter(Heard(d, toks, src), toks, t));
    hide DoorSlot, ClaimedDoor, Lookup, FindDoor, FreeDoor;
  }

  /** Once used, a slot keeps its owner whatever arrives, and no slot is ever released. */
  lemma SlotsKeepOwners(doors: seq<DoorRec>, toks: seq<string>, src: Addr, t: int, i: nat)
    requires |toks| >= 2 && i < |doors| && doors[i].known
    ensures var d' := DoorsAfter(doors, toks, src, t)[i]; d'.known && d'.id == doors[i].id
  {
    if DoorSlot(doors, toks[0]) < |doors| {
      DoorAfterKeeps(Heard(ClaimedDoor(doors, toks[0]), toks, src), toks, t);
    }
  }

  /** With room in the table, the hub can find a module's record afterwards exactly when its id fits. */
  lemma TrackedIffIdFits(doors: seq<DoorRec>, toks: seq<string>, src: Addr, t: int)
    requires |toks| >= 2 && DoorSlot(doors, toks[0]) < |doors|
    requires forall i | 0 <= i < |doors| :: |doors[i].id| <= ID_CHARS
    ensures Lookup(DoorsAfter(doors, toks, src, t), toks[0]).Some? <==> |toks[0]| <= 15
  {
    var d := Heard(ClaimedDoor(doors, toks[0]), toks, src);
    DoorAfterKeeps(d, toks, t);
    if |toks[0]| <= ID_CHARS {
      LineTouchesOneDoor(doors, toks, src, t, toks[0]);
    }
  }

  /** A module whose id is too long uses up one more record with every line it sends. */
  lemma LongIdLeaksASlot(doors: seq<DoorRec>, toks: seq<string>, src: Addr, t: int)
    requires |toks| >= 2 && |toks[0]| > 15 && FreeDoor(doors) < |doors|
    requires forall i | 0 <= i < |doors| :: |doors[i].id| <= ID_CHARS
    ensures FreeDoor(DoorsAfter(doors, toks, src, t)) > FreeDoor(doors)
  {
    var slot := FreeDoor(doors);
    assert FindDoor(doors, toks[0]) == |doors|;
    DoorAfterKeeps(Heard(NewDoor(toks[0]), toks, src), toks, t);
    var doors' := DoorsAfter(doors, toks, src, t);
    assert forall j | 0 <= j <= slot :: doors'[j].known;
  }

  // ---------- The endpoint table ----------

  /** Learning a route changes the answer for that module and no other. */
  lemma {:induction false} LearnOneRoute(es: seq<Endpoint>, mod: string, src: Addr, x: string)
    requires |mod| <= ID_CHARS
    ensures Route(Learn(es, mod, src), x) ==
      if x == mod && (FindEndpoint(es, mod) < |es| || |es| < MAX_MODULES) then Some(src) else Route(es, x)
  {
    var i := FindEndpoint(es, mod);
    var es' := Learn(es, mod, src);
    if i < |es| {
      assert forall j | 0 <= j < |es| :: es'[j].id == es[j].id;
      assert FindEndpoint(es', x) == FindEndpoint(es, x);
    } else if |es| < MAX_MODULES {
      assert es' == es + [Endpoint(mod, src)];
      assert forall j | 0 <= j < |es| :: es'[j] == es[j];
      assert es'[|es|].id == mod;
      if FindEndpoint(es, x) < |es| {
        assert FindEndpoint(es', x) == FindEndpoint(es, x);
      } else if x == mod {
        assert FindEndpoint(es', x) == |es|;
      } else {
        assert FindEndpoint(es', x) == |es'|;
      }
    }
  }

  /** With room in the table, the route just learned is found again exactly when the id fits. */
  lemma RouteLearnedIffIdFits(es: seq<Endpoint>, mod: string, src: Addr)
    requires forall i | 0 <= i < |es| :: |es[i].id| <= ID_CHARS
    requires |es| < MAX_MODULES
    ensures Route(Learn(es, mod, src), mod) == Some(src) <==> |mod| <= 15
  {
    if |mod| <= ID_CHARS {
      LearnOneRoute(es, mod, src, mod);
    } else {
      var es' := Learn(es, mod, src);
      assert forall j | 0 <= j < |es'| :: |es'[j].id| <= ID_CHARS;
    }
  }

  // ---------- The pending table ----------

  /** The registrations still waiting for their FEEDBACK. */
  function Live(ps: seq<Pending>): multiset<Pending> {
    if ps == [] then multiset{}
    else Live(ps[..|ps| - 1]) + Count(ps[|ps| - 1])
  }

  function Count(p: Pending): multiset<Pending> {
    if p.id != 0 then multiset{p} else multiset{}
  }

  /** Overwriting one slot replaces what that slot contributed. */
  lemma {:induction false} LiveUpdate(ps: seq<Pending>, i: nat, p: Pending)
    requires i < |ps|
    ensures Live(ps[i := p]) + Count(ps[i]) == Live(ps) + Count(p)
    decreases |ps|
  {
    hide Count;
    var n := |ps| - 1;
    var qs := ps[i := p];
    if i == n {
      assert qs[..n] == ps[..n];
    } else {
      assert qs[..n] == ps[..n][i := p] && qs[n] == ps[n];
      LiveUpdate(ps[..n], i, p);
      MultisetShift(Live(qs[..n]), Live(ps[..n]), Count(ps[i]), Count(p), Count(ps[n]));
    }
  }

  /** Number of occupied slots. */
  function Occupied(ps: seq<Pending>): (n: nat)
    ensures n <= |ps|
    ensures n == |ps| <==> forall i | 0 <= i < |ps| :: ps[i].id != 0
  {
    if ps == [] then 0
    else Occupied(ps[..|ps| - 1]) + if ps[|ps| - 1].id != 0 then 1 else 0
  }

  lemma {:induction false} LiveSize(ps: seq<Pending>)
    ensures |Live(ps)| == Occupied(ps)
  {
    if ps != [] {
      LiveSize(ps[..|ps| - 1]);
    }
  }

  /** What a registration pushes out of the table. */
  function Evicted(ps: seq<Pending>): multiset<Pending>
    requires ps != []
  {
    Count(ps[RegisterSlot(ps)])
  }

  /** Registering adds the new command and removes at most the evicted one. */
  lemma {:induction false} RegisterConserves(ps: seq<Pending>, id: int, mod: string, client: Addr, now: int)
    requires ps != []
    ensures Live(Register(ps, id, mod, client, now)) + Evicted(ps)
            == Live(ps) + Count(Pending(id, client, Clip(mod, ID_CHARS), now))
  {
    LiveUpdate(ps, RegisterSlot(ps), Pending(id, client, Clip(mod, ID_CHARS), now));
  }

  /** Something is evicted exactly when every slot is live, and then it is the longest waiting. */
  lemma {:induction false} EvictsOnlyWhenFull(ps: seq<Pending>)
    requires ps != []
    ensures Evicted(ps) != multiset{} <==> |Live(ps)| == |ps|
    ensures forall p | p in Evicted(ps) :: forall i | 0 <= i < |ps| :: p.issued <= ps[i].issued
  {
    LiveSize(ps);
    var i := RegisterSlot(ps);
    assert Evicted(ps) != multiset{} <==> ps[i].id != 0 by {
      if ps[i].id != 0 {
        assert ps[i] in Evicted(ps);
      }
    }
  }

  /** What a FEEDBACK consumes: the registration whose client it is relayed to. */
  function Relayed(ps: seq<Pending>, mod: string, id: int): multiset<Pending> {
    var i := FindPending(ps, mod, id);
    if i < |ps| then Count(ps[i]) else multiset{}
  }

  lemma ClearConserves(ps: seq<Pending>, mod: string, id: int)
    ensures Live(Clear(ps, mod, id)) + Relayed(ps, mod, id) == Live(ps)
  {
    var i := FindPending(ps, mod, id);
    if i < |ps| {
      LiveUpdate(ps, i, ps[i].(id := 0));
    }
  }

  /** For a nonzero id, a FEEDBACK is relayed exactly when it consumes a registration, to that one's client. */
  lemma RelayConsumes(ps: seq<Pending>, mod: string, id: int)
    requires id != 0
    ensures match ClientOf(ps, mod, id)
      case Some(client) => exists p :: Relayed(ps, mod, id) == multiset{p} && p.client == client && p.id == id && p.mod == mod
      case None => Relayed(ps, mod, id) == multiset{}
  {
  }

  /** A relayed FEEDBACK uses up a live registration exactly when its id is not 0. */
  lemma RelayUsesUpIffNonzero(ps: seq<Pending>, mod: string, id: int)
    requires ClientOf(ps, mod, id).Some?
    ensures Live(Clear(ps, mod, id)) != Live(ps) <==> id != 0
  {
    ClearConserves(ps, mod, id);
    var i := FindPending(ps, mod, id);
    if id != 0 {
      assert |Live(ps)| == |Live(Clear(ps, mod, id))| + 1;
    }
  }

  /**
   Id 0 doubles as the free-slot mark: after any relayed FEEDBACK of `mod`, a FEEDBACK with id 0
   from `mod` is relayed as well, to a client whose registration is already gone.
   */
  lemma ZeroIdIsRelayedAgain(ps: seq<Pending>, mod: string, id: int)
    requires ClientOf(ps, mod, id).Some?
    ensures ClientOf(Clear(ps, mod, id), mod, 0).Some?
  {
    var i := FindPending(ps, mod, id);
    var qs := Clear(ps, mod, id);
    assert qs[i].id == 0 && qs[i].mod == mod;
    assert FindPending(qs, mod, 0) <= i;
  }
}
