/** The webhook's message queue: a linked list with head and tail, one worker, and a draining shutdown. */
module WebhookQueue {
  import opened Prelude
  import opened Fifo

  class Node {
    const msg: string
    var next: Node?

    constructor (msg: string)
      ensures this.msg == msg && next == null
    {
      this.msg, next := msg, null;
    }
  }

  class MessageQueue {
    var head: Node?
    var tail: Node?
    /** The nodes reachable from `head`, in list order. */
    ghost var nodes: seq<Node>

    /** `nodes` is the chain from `head`; `tail` is its last node; no node occurs twice. */
    ghost predicate Valid()
      reads this, nodes
    {
      && (forall i, j | 0 <= i < j < |nodes| :: nodes[i] != nodes[j])
      && (forall i | 0 <= i < |nodes| - 1 :: nodes[i].next == nodes[i + 1])
      && (if nodes == [] then head == null && tail == null
          else head == nodes[0] && tail == nodes[|nodes| - 1] && nodes[|nodes| - 1].next == null)
    }

    ghost function Contents(): (s: seq<string>)
      reads this
      ensures |s| == |nodes| && forall i | 0 <= i < |s| :: s[i] == nodes[i].msg
    {
      seq(|nodes|, i requires 0 <= i < |nodes| reads this => nodes[i].msg)
    }

    constructor ()
      ensures Valid() && Contents() == []
    {
      head, tail, nodes := null, null, [];
    }

    /** `enqueue_msg`; without memory for a node the message is lost. */
    method Enqueue(msg: string, memory: bool)
      requires Valid()
      modifies this, tail
      ensures Valid() && Contents() == if memory then old(Contents()) + [msg] else old(Contents())
    {
      if !memory {
        return;
      }
      var n := new Node(msg);
      if tail != null {
        tail.next := n;
      } else {
        head := n;
      }
      tail := n;
      nodes := nodes + [n];
    }

    /** The part of `dequeue_msg` after waiting: `None` when the worker must leave. */
    method Dequeue() returns (msg: Option<string>)
      requires Valid()
      modifies this
      ensures Valid() && (msg == None <==> old(Contents()) == [])
      ensures match msg
        case Some(m) => old(Contents()) == [m] + Contents()
        case None => Contents() == old(Contents())
    {
      if head == null {
        return None;
      }
      var n := head;
      head := n.next;
      if head == null {
        tail := null;
      }
      nodes := nodes[1..];
      return Some(n.msg);
    }

    /** The drain loop of `hub_webhook_shutdown`: every remaining node is visited once and released. */
    method Drain() returns (freed: seq<string>)
      requires Valid()
      modifies this
      ensures Valid() && Contents() == [] && freed == old(Contents())
    {
      freed := [];
      var n := head;
      ghost var k := 0;
      while n != null
        invariant k <= |nodes|
        invariant n == if k < |nodes| then nodes[k] else null
        invariant freed == Contents()[..k]
        decreases |nodes| - k
      {
        var next := n.next;
        freed := freed + [n.msg];
        n := next;
        k := k + 1;
      }
      head, tail, nodes := null, null, [];
    }
  }

  // ---------- Every interleaving of senders, worker and shutdown ----------

  /** How far a shutdown is: not begun, flag cleared and waiting for the worker, or past the join. */
  datatype Stage = Idle | Cleared | Joined

  /**
   `passed` holds the messages whose sender saw `running` but has not yet appended them: the check
   and the append are two critical sections.
   */
  datatype Hook = Hook(queue: seq<string>, running: bool, working: bool, stage: Stage, passed: multiset<string>,
                       accepted: seq<string>, gone: seq<Gone<string>>)

  datatype Act =
    | Send(msg: string)      // hub_webhook_send up to the unlock
    | Append(msg: string, memory: bool)    // enqueue_msg
    | Turn                   // the worker in dequeue_msg
    | Init                   // hub_webhook_init
    | Clear                  // hub_webhook_shutdown, first critical section
    | DrainAll               // its last critical section, after the join

  function Next(s: Hook, a: Act): Hook {
    match a
    case Send(m) => if s.running then s.(passed := s.passed + multiset{m}) else s
    case Append(m, memory) =>
      if m !in s.passed then s
      else if !memory then s.(passed := s.passed - multiset{m})
      else s.(passed := s.passed - multiset{m}, queue := s.queue + [m], accepted := s.accepted + [m])
    case Turn =>
      if !s.working then s
      else if s.queue != [] then s.(queue := s.queue[1..], gone := s.gone + [Gone(s.queue[0], true)])
      else if s.running then s
      // the join that waits for this worker may return from now on
      else s.(working := false, stage := if s.stage == Cleared then Joined else s.stage)
    case Init => if s.working then s else s.(running := true, working := true)
    case Clear => if s.stage != Idle then s else s.(running := false, stage := if s.working then Cleared else Joined)
    case DrainAll => if s.stage != Joined then s else s.(queue := [], gone := Discard(s.gone, s.queue), stage := Idle)
  }

  function RunAll(s: Hook, acts: seq<Act>): Hook {
    if acts == [] then s else Next(RunAll(s, acts[..|acts| - 1]), acts[|acts| - 1])
  }

  const IDLE := Hook([], false, false, Stage.Idle, multiset{}, [], [])

  ghost predicate Sane(s: Hook) {
    Accounted(s.accepted, s.gone, s.queue) && (s.running ==> s.working)
  }

  lemma NextKeepsSane(s: Hook, a: Act)
    requires Sane(s)
    ensures Sane(Next(s, a))
  {
    hide Items, Discard;
    match a
    case Send(m) =>
    case Append(m, _) => assert s.accepted + [m] == Items(s.gone) + (s.queue + [m]);
    case Turn =>
      if s.queue != [] {
        LeaveOne(s.accepted, s.gone, s.queue, true);
      }
    case Init =>
    case Clear =>
    case DrainAll => LeaveAll(s.accepted, s.gone, s.queue);
  }

  /** In every run, delivered, discarded and waiting messages, in order, make up exactly the accepted ones. */
  lemma {:induction false} EveryMessageAccountedFor(acts: seq<Act>)
    ensures Sane(RunAll(IDLE, acts))
  {
    hide Next;
    if acts != [] {
      hide Sane;
      EveryMessageAccountedFor(acts[..|acts| - 1]);
      NextKeepsSane(RunAll(IDLE, acts[..|acts| - 1]), acts[|acts| - 1]);
    }
  }

  /** Nothing accepted is ever forgotten. */
  lemma {:induction false} GrowsOnly(s: Hook, acts: seq<Act>)
    ensures s.accepted <= RunAll(s, acts).accepted
  {
    if acts != [] {
      GrowsOnly(s, acts[..|acts| - 1]);
    }
  }

  // ---------- Which messages are delivered ----------

  /** The service is not started anew between the join and the drain of a shutdown. */
  predicate Calm(s: Hook, acts: seq<Act>) {
    acts == [] ||
    (Calm(s, acts[..|acts| - 1]) && !(acts[|acts| - 1] == Init && RunAll(s, acts[..|acts| - 1]).stage == Joined))
  }

  lemma {:induction false} NoInitIsCalm(s: Hook, acts: seq<Act>)
    requires Init !in acts
    ensures Calm(s, acts)
  {
    if acts != [] {
      NoInitIsCalm(s, acts[..|acts| - 1]);
    }
  }

  /**
   Since some moment at which the worker was there, `already` messages had left and `n` were accepted:
   of those `n`, whatever left since was delivered, and while any is left so is the worker.
   */
  ghost predicate Attended(s: Hook, already: nat, n: nat) {
    && Sane(s) && already <= |s.gone| && n <= |s.accepted| && (s.working ==> s.stage != Joined)
    && (forall k | already <= k < |s.gone| && k < n :: s.gone[k].delivered)
    && (s.working || n <= |s.gone|)
  }

  lemma NextKeepsAttended(s: Hook, a: Act, already: nat, n: nat)
    requires Attended(s, already, n) && !(a == Init && s.stage == Joined)
    ensures Attended(Next(s, a), already, n)
  {
    hide Items, Discard;
    NextKeepsSane(s, a);
    assert |s.accepted| == |Items(s.gone)| + |s.queue|;
  }

  lemma {:induction false} StillAttended(s: Hook, acts: seq<Act>, already: nat, n: nat)
    requires Attended(s, already, n) && Calm(s, acts)
    ensures Attended(RunAll(s, acts), already, n)
  {
    hide Next, Attended;
    if acts != [] {
      StillAttended(s, acts[..|acts| - 1], already, n);
      NextKeepsAttended(RunAll(s, acts[..|acts| - 1]), acts[|acts| - 1], already, n);
    }
  }

  /**
   No message that waits while the worker is there is discarded, unless the service was or is started
   anew between the join and the drain of a shutdown: those that have left were delivered, in order, and
   once the worker is gone all have left.
   */
  lemma {:induction false} WaitingIsNeverDiscarded(before: seq<Act>, after: seq<Act>)
    requires RunAll(IDLE, before).working && RunAll(IDLE, before).stage != Joined && Calm(RunAll(IDLE, before), after)
    ensures var s0, s := RunAll(IDLE, before), RunAll(RunAll(IDLE, before), after);
      && (forall i | 0 <= i < |s0.queue| && |s0.gone| + i < |s.gone| :: s.gone[|s0.gone| + i] == Gone(s0.queue[i], true))
      && (!s.working ==> |s.gone| >= |s0.gone| + |s0.queue|)
  {
    hide RunAll, Next, Items;
    var s0 := RunAll(IDLE, before);
    EveryMessageAccountedFor(before);
    StillAttended(s0, after, |s0.gone|, |s0.accepted|);
    GrowsOnly(s0, after);
    DeliveredInOrder(s0, RunAll(s0, after));
  }

  /** Two states' bookkeeping put side by side. */
  lemma DeliveredInOrder(s0: Hook, s: Hook)
    requires Sane(s0) && Attended(s, |s0.gone|, |s0.accepted|) && s0.accepted <= s.accepted
    ensures forall i | 0 <= i < |s0.queue| && |s0.gone| + i < |s.gone| :: s.gone[|s0.gone| + i] == Gone(s0.queue[i], true)
    ensures !s.working ==> |s.gone| >= |s0.gone| + |s0.queue|
  {
    hide Items;
    forall i | 0 <= i < |s0.queue| && |s0.gone| + i < |s.gone|
      ensures s.gone[|s0.gone| + i] == Gone(s0.queue[i], true)
    {
      var k := |s0.gone| + i;
      assert s.gone[k].item == Items(s.gone)[k] == s.accepted[k] == s0.accepted[k] == s0.queue[i];
    }
  }

  /** Some message waiting in `s` has been discarded by the time the run `after` is over. */
  ghost predicate LosesSome(s: Hook, after: seq<Act>) {
    exists k :: |s.gone| <= k < |s.gone| + |s.queue| && k < |RunAll(s, after).gone| && !RunAll(s, after).gone[k].delivered
  }

  /**
   With messages waiting and a worker there, some continuation without a further start discards one of
   them if and only if a shutdown is past its join.
   */
  lemma {:induction false} DiscardIffRestarted(before: seq<Act>)
    requires RunAll(IDLE, before).working && RunAll(IDLE, before).queue != []
    ensures (exists after :: Init !in after && LosesSome(RunAll(IDLE, before), after)) <==> RunAll(IDLE, before).stage == Joined
  {
    hide RunAll;
    var s0 := RunAll(IDLE, before);
    if s0.stage == Joined {
      DrainLoses(s0);
      assert LosesSome(s0, [DrainAll]);
    } else {
      forall after | Init !in after
        ensures !LosesSome(s0, after)
      {
        NoInitIsCalm(s0, after);
        WaitingIsNeverDiscarded(before, after);
        var s := RunAll(s0, after);
        forall k | |s0.gone| <= k < |s0.gone| + |s0.queue| && k < |s.gone|
          ensures s.gone[k].delivered
        {
          var i := k - |s0.gone|;
          assert s.gone[|s0.gone| + i] == Gone(s0.queue[i], true);
        }
      }
    }
  }

  lemma DrainLoses(s: Hook)
    requires s.stage == Joined && s.queue != []
    ensures LosesSome(s, [DrainAll])
  {
    assert [DrainAll][..0] == [] && RunAll(s, []) == s;
    var s' := RunAll(s, [DrainAll]);
    assert s' == Next(s, DrainAll);
    hide RunAll;
    assert s'.gone[|s.gone|] == Gone(s.queue[0], false);
  }

  /** Such a state does occur: started, shut down up to the join, started again, and one message accepted. */
  lemma RestartInsideAShutdown(m: string)
    ensures var s := Next(Next(Next(Next(Next(Next(IDLE, Init), Clear), Turn), Init), Send(m)), Append(m, true));
      s.working && s.running && s.stage == Joined && s.queue == [m]
  {
  }

  /**
   Every message waiting when a running service's flag is cleared has been delivered by the time the
   worker is gone, that is before shutdown's join returns.
   */
  lemma {:induction false} ShutdownDeliversTheBacklog(before: seq<Act>, during: seq<Act>)
    requires RunAll(IDLE, before).running && RunAll(IDLE, before).stage == Idle && Init !in during
    requires !RunAll(Next(RunAll(IDLE, before), Clear), during).working
    ensures var s0, s := RunAll(IDLE, before), RunAll(Next(RunAll(IDLE, before), Clear), during);
      && |s.gone| >= |s0.gone| + |s0.queue|
      && forall i | 0 <= i < |s0.queue| :: s.gone[|s0.gone| + i] == Gone(s0.queue[i], true)
  {
    hide RunAll, Items;
    var s0 := RunAll(IDLE, before);
    EveryMessageAccountedFor(before);
    NoInitIsCalm(Next(s0, Clear), during);
    StillAttended(Next(s0, Clear), during, |s0.gone|, |s0.accepted|);
    GrowsOnly(Next(s0, Clear), during);
    DeliveredInOrder(s0, RunAll(Next(s0, Clear), during));
  }

  /** Since some moment without a worker, when `already` messages had left: nothing has been delivered. */
  ghost predicate Deserted(s: Hook, already: nat) {
    && Sane(s) && !s.working && already <= |s.gone|
    && forall k | already <= k < |s.gone| :: !s.gone[k].delivered
  }

  lemma NextKeepsDeserted(s: Hook, a: Act, already: nat)
    requires Deserted(s, already) && a != Init
    ensures Deserted(Next(s, a), already)
  {
    NextKeepsSane(s, a);
  }

  lemma {:induction false} StillDeserted(s: Hook, acts: seq<Act>, already: nat)
    requires Deserted(s, already) && Init !in acts
    ensures Deserted(RunAll(s, acts), already)
  {
    hide Next, Deserted;
    if acts != [] {
      StillDeserted(s, acts[..|acts| - 1], already);
      NextKeepsDeserted(RunAll(s, acts[..|acts| - 1]), acts[|acts| - 1], already);
    }
  }

  /** A message whose fate is still open: a worker is there, but a shutdown is past its join. */
  predicate Contested(s: Hook) { s.working && s.stage == Joined }

  /**
   The fate of every accepted message, unless the service is started anew: once it has left the queue,
   it was delivered exactly when the worker was still there as it was appended. Only in a contested state
   can it go either way.
   */
  lemma {:induction false} DeliveredIffWorkerThere(before: seq<Act>, m: string, after: seq<Act>)
    requires m in RunAll(IDLE, before).passed && Init !in after
    ensures var s0 := RunAll(IDLE, before);
      var s := RunAll(Next(s0, Append(m, true)), after);
      !Contested(s0) ==>
        && (|s0.accepted| < |s.gone| ==> s.gone[|s0.accepted|] == Gone(m, s0.working))
        && (s0.working && !s.working ==> |s0.accepted| < |s.gone|)
  {
    hide RunAll, Items;
    var s0 := RunAll(IDLE, before);
    var s1 := Next(s0, Append(m, true));
    EveryMessageAccountedFor(before);
    NextKeepsSane(s0, Append(m, true));
    GrowsOnly(s1, after);
    if Contested(s0) {
    } else if s0.working {
      NoInitIsCalm(s1, after);
      StillAttended(s1, after, |s1.gone|, |s1.accepted|);
      FateIs(s0, m, RunAll(s1, after));
    } else {
      StillDeserted(s1, after, |s1.gone|);
      FateIs(s0, m, RunAll(s1, after));
    }
  }

  lemma FateIs(s0: Hook, m: string, s: Hook)
    requires Sane(s0) && Sane(s) && s0.accepted + [m] <= s.accepted
    requires if s0.working then Attended(s, |s0.gone|, |s0.accepted| + 1) else Deserted(s, |s0.gone|)
    ensures |s0.accepted| < |s.gone| ==> s.gone[|s0.accepted|] == Gone(m, s0.working)
    ensures s0.working && !s.working ==> |s0.accepted| < |s.gone|
  {
    hide Items;
    var n := |s0.accepted|;
    assert n == |Items(s0.gone)| + |s0.queue| >= |s0.gone|;
    if n < |s.gone| {
      assert s.gone[n].item == Items(s.gone)[n] == s.accepted[n] == m;
    }
  }

  /** A sender that checked before the flag was cleared and appends after the worker left: accepted, yet discarded. */
  lemma LateMessageIsDiscarded(m: string)
    ensures var s0 := Next(Next(Next(Next(IDLE, Init), Send(m)), Clear), Turn);
      var s := Next(Next(s0, Append(m, true)), DrainAll);
      s.accepted == [m] && s.gone == [Gone(m, false)]
  {
    var s0 := Next(Next(Next(Next(IDLE, Init), Send(m)), Clear), Turn);
    var s1 := Next(s0, Append(m, true));
    assert s1.queue == s1.accepted == [m] && s1.gone == [];
    assert Discard([], [m]) == [Gone(m, false)] by { assert [m][..0] == []; }
  }
}
