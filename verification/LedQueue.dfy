/** The LED worker's ring: 32 slots, at most 31 waiting tasks, the oldest dropped to make room. */
module LedQueue {
  import opened Prelude
  import opened Fifo

  const RING_SIZE := 32
  const CAPACITY := 31

  datatype Task =
    | BlinkRed(flashes: int, freqHz: int, duty: int)
    | HubSuccess | NetworkError | HubFailure
    | LockSuccess | LockFailure | UnlockSuccess | UnlockFailure | DoorError

  /** The queue after an enqueue call. */
  function Enqueued(q: seq<Task>, t: Task): seq<Task> {
    if |q| >= CAPACITY then q[1..] + [t] else q + [t]
  }

  function Wrap(i: int): (r: nat)
    ensures r < RING_SIZE
    ensures 0 <= i < RING_SIZE ==> r == i
    ensures i == RING_SIZE ==> r == 0
  {
    i % RING_SIZE
  }

  class LedRing {
    const slots: array<Task>
    var head: nat
    var tail: nat

    ghost predicate Valid()
      reads this
    {
      slots.Length == RING_SIZE && head < RING_SIZE && tail < RING_SIZE
    }

    ghost function Count(): (n: nat)
      requires Valid()
      reads this
      ensures n <= CAPACITY
    {
      if tail >= head then tail - head else tail + RING_SIZE - head
    }

    /** The waiting tasks, oldest first. */
    ghost function Contents(): (q: seq<Task>)
      requires Valid()
      reads this, slots
      ensures |q| == Count()
    {
      if head <= tail then slots[head..tail] else slots[head..] + slots[..tail]
    }

    constructor ()
      ensures Valid() && fresh(slots) && Contents() == []
    {
      slots := new Task[RING_SIZE](_ => HubSuccess);
      head, tail := 0, 0;
    }

    /** `queue_push`; false when full. */
    method Push(t: Task) returns (ok: bool)
      requires Valid()
      modifies this, slots
      ensures Valid() && (ok <==> old(Count()) < 31)
      ensures Contents() == if ok then old(Contents()) + [t] else old(Contents())
    {
      var next := Wrap(tail + 1);
      if next == head {
        return false;
      }
      slots[tail] := t;
      tail := next;
      return true;
    }

    /** `queue_pop`; `None` when empty. */
    method Pop() returns (t: Option<Task>)
      requires Valid()
      modifies this
      ensures Valid() && (t == None <==> old(Contents()) == [])
      ensures match t
        case Some(x) => x == old(Contents())[0] && Contents() == old(Contents())[1..]
        case None => Contents() == old(Contents())
    {
      if head == tail {
        return None;
      }
      t := Some(slots[head]);
      head := Wrap(head + 1);
      assert old(Contents()) == [slots[old(head)]] + Contents();
    }

    /** Every `LED_enqueue_*` function: push, and when full forget the oldest task and push again. */
    method Enqueue(t: Task)
      requires Valid()
      modifies this, slots
      ensures Valid() && Contents() == Enqueued(old(Contents()), t)
    {
      var ok := Push(t);
      if !ok {
        ghost var full := Contents();
        head := Wrap(head + 1);
        assert Contents() == full[1..];
        ok := Push(t);
        assert ok;
      }
    }
  }

  // ---------- Every interleaving of producers, workers and shutdown ----------

  /** `added` and `gone` remember everything ever enqueued and everything that left the ring, and how. */
  datatype Led = Led(queue: seq<Task>, running: bool, workers: nat, added: seq<Task>, gone: seq<Gone<Task>>)

  /** One critical section. */
  datatype Act =
    | Add(t: Task)       // LED_enqueue_*
    | Turn               // a worker holding the lock: dispatch, leave or go on waiting
    | Init               // LED_worker_init
    | Stop               // the first half of LED_worker_shutdown

  /** The effect of one critical section; without a worker nobody takes a turn. */
  function Next(s: Led, a: Act): Led {
    match a
    case Add(t) =>
      s.(queue := Enqueued(s.queue, t), added := s.added + [t],
         gone := if |s.queue| >= CAPACITY then s.gone + [Gone(s.queue[0], false)] else s.gone)
    case Turn =>
      if s.workers == 0 then s
      else if s.queue == [] then (if s.running then s else s.(workers := s.workers - 1))
      else s.(queue := s.queue[1..], gone := s.gone + [Gone(s.queue[0], true)])
    case Init => if s.running then s else s.(running := true, workers := s.workers + 1)
    case Stop => s.(running := false)
  }

  function RunAll(acts: seq<Act>): Led {
    if acts == [] then Led([], false, 0, [], []) else Next(RunAll(acts[..|acts| - 1]), acts[|acts| - 1])
  }

  lemma NextAccounts(s: Led, a: Act)
    requires Accounted(s.added, s.gone, s.queue) && |s.queue| <= CAPACITY
    ensures var s' := Next(s, a); Accounted(s'.added, s'.gone, s'.queue) && |s'.queue| <= CAPACITY
  {
    hide Items;
    if s.queue != [] {
      LeaveOne(s.added, s.gone, s.queue, a.Turn?);
    }
  }

  /**
   In every run, the tasks enqueued are exactly those that left, in order, followed by those waiting,
   in order, and never more than 31 wait.
   */
  lemma {:induction false} RingAccountsForAll(acts: seq<Act>)
    ensures var s := RunAll(acts); Accounted(s.added, s.gone, s.queue) && |s.queue| <= 31
  {
    hide Next, Accounted;
    if acts == [] {
      NothingYet();
    } else {
      RingAccountsForAll(acts[..|acts| - 1]);
      NextAccounts(RunAll(acts[..|acts| - 1]), acts[|acts| - 1]);
    }
  }

  lemma NothingYet()
    ensures Accounted<Task>([], [], [])
  {
  }

  /** A task is dropped exactly when one more is added to 31 waiting ones, and it is the oldest. */
  lemma DropsOnlyTheOldestWhenFull(s: Led, a: Act)
    requires |s.queue| <= 31
    ensures var g := Next(s, a).gone;
      (|g| > |s.gone| && !g[|s.gone|].delivered) <==> a.Add? && |s.queue| == 31
    ensures a.Add? && |s.queue| == 31 ==> Next(s, a).gone == s.gone + [Gone(s.queue[0], false)]
  {
  }

  /** A worker leaves only when told to stop and nothing waits, so by then every task enqueued has left the ring. */
  lemma WorkerLeavesAnEmptyRing(acts: seq<Act>, a: Act)
    requires Next(RunAll(acts), a).workers < RunAll(acts).workers
    ensures var s := RunAll(acts); a == Turn && !s.running && s.queue == [] && s.added == Items(s.gone)
  {
    RingAccountsForAll(acts);
  }

  /** The worker's next `n` turns. */
  function Turns(s: Led, n: nat): Led
    decreases n
  {
    if n == 0 then s else Turns(Next(s, Turn), n - 1)
  }

  /** What waits is dispatched in order, one task a turn; then a worker told to stop leaves. */
  lemma {:induction false} TurnsDispatchAll(s: Led)
    requires s.workers > 0
    ensures var s' := Turns(s, |s.queue|);
      && s'.queue == [] && s'.added == s.added && s'.running == s.running && s'.workers == s.workers
      && |s'.gone| == |s.gone| + |s.queue| && s.gone <= s'.gone
      && (forall i | 0 <= i < |s.queue| :: s'.gone[|s.gone| + i] == Gone(s.queue[i], true))
      && (!s.running ==> Next(s', Turn).workers == s.workers - 1)
    decreases |s.queue|
  {
    if s.queue != [] {
      TurnsDispatchAll(Next(s, Turn));
    }
  }
}
