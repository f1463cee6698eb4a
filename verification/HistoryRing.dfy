/** The hub's 256-slot history ring, and what a reader of it gets. */
module HistoryRing {

  const MAX_HISTORY := 256

  /** What the ring still holds of everything ever appended. */
  function Retained<E>(log: seq<E>): (r: seq<E>)
    ensures |r| == if |log| < 256 then |log| else 256
  {
    if |log| <= MAX_HISTORY then log else log[|log| - MAX_HISTORY..]
  }

  /** What `hub_udp_get_history` returns: the oldest `max` retained entries, oldest first. */
  function Window<E>(log: seq<E>, max: int): seq<E> {
    if max <= 0 then []
    else if |Retained(log)| <= max then Retained(log)
    else Retained(log)[..max]
  }

  lemma RetainedLength<E>(log: seq<E>)
    ensures |Retained(log)| == if |log| < 256 then |log| else 256
  {
  }

  /** The slot of the n-th entry of the log. */
  function Slot(n: nat): (i: nat)
    ensures i < MAX_HISTORY
  {
    n % MAX_HISTORY
  }

  /** Going `k` slots on (or back) from position `n` of the log. */
  lemma SameSlot(n: nat, k: int)
    requires -MAX_HISTORY <= k && n + k >= 0
    ensures (Slot(n) + k + MAX_HISTORY) % MAX_HISTORY == Slot(n + k)
    ensures k >= 0 ==> (Slot(n) + k) % MAX_HISTORY == Slot(n + k)
  {
  }

  /** Positions less than a round apart are in different slots. */
  lemma OtherSlot(n: nat, k: nat)
    requires n - MAX_HISTORY < k < n
    ensures Slot(k) != Slot(n)
  {
  }

  class Ring<E(0)> {
    const slots: array<E>
    var head: nat
    var count: nat
    /** Everything ever appended. */
    ghost var log: seq<E>

    ghost predicate Valid()
      reads this, slots
    {
      && slots.Length == MAX_HISTORY
      && head == Slot(|log|)
      && count == |Retained(log)|
      && forall k | |log| - count <= k < |log| :: slots[Slot(k)] == log[k]
    }

    constructor ()
      ensures Valid() && fresh(slots) && log == []
    {
      slots := new E[MAX_HISTORY];
      head, count, log := 0, 0, [];
    }

    method Add(e: E)
      requires Valid()
      modifies this, slots
      ensures Valid() && log == old(log) + [e]
    {
      hide Slot, Retained;
      ghost var n := |log|;
      RetainedLength(log);
      RetainedLength(log + [e]);
      SameSlot(n, 1);
      slots[head] := e;
      head := (head + 1) % MAX_HISTORY;
      if count < MAX_HISTORY {
        count := count + 1;
      }
      log := log + [e];
      forall k | n + 1 - count <= k < n
        ensures slots[Slot(k)] == log[k]
      {
        OtherSlot(n, k);
      }
    }

    method Get(max: int) returns (out: seq<E>)
      requires Valid()
      ensures out == Window(log, max)
    {
      hide Retained, Slot;
      out := [];
      if max <= 0 {
        return;
      }
      var n := if count < max then count else max;
      var start := (head - count + MAX_HISTORY) % MAX_HISTORY;
      ghost var first := |log| - count;
      SameSlot(|log|, first - |log|);
      for i := 0 to n
        invariant out == log[first..first + i]
      {
        var idx := (start + i) % MAX_HISTORY;
        SameSlot(first, i);
        out := out + [slots[idx]];
        assert out == log[first..first + i + 1];
      }
      NewestIffWholeWindow(log, max);
    }
  }

  /** Position in the append log of the oldest entry the ring still holds. */
  function Oldest<E>(log: seq<E>): (first: nat)
    ensures first <= |log| && |log| - first == |Retained(log)|
  {
    |log| - |Retained(log)|
  }

  lemma RetainedIsTheEnd<E>(log: seq<E>)
    ensures Retained(log) == log[Oldest(log)..]
  {
  }

  /**
   The header promises the most recent entries. The reader gets the stretch of the log that begins at
   the oldest retained entry, and it reaches the newest exactly when the caller asks for at least as
   many as are retained.
   */
  lemma NewestIffWholeWindow<E>(log: seq<E>, max: int)
    ensures Oldest(log) + |Window(log, max)| <= |log|
    ensures Window(log, max) == log[Oldest(log)..Oldest(log) + |Window(log, max)|]
    ensures Oldest(log) + |Window(log, max)| == |log| <==> max >= |Retained(log)| || log == []
    ensures max >= 0 ==> |Window(log, max)| <= max
  {
    RetainedIsTheEnd(log);
    hide Retained, Oldest;
    if 0 < max < |Retained(log)| {
      assert log[Oldest(log)..][..max] == log[Oldest(log)..Oldest(log) + max];
    }
  }

  /** When the caller asks for enough, the reader gets the last `min(256, |log|)` entries in order. */
  lemma WholeWindow<E>(log: seq<E>, max: int, i: nat)
    requires max >= |Retained(log)| && i < |Retained(log)|
    ensures |Window(log, max)| == |Retained(log)| && Window(log, max)[i] == log[|log| - |Retained(log)| + i]
  {
  }
}
