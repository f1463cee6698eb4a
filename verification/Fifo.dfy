/** Bookkeeping shared by the two concurrent queues: what was accepted, what left and how, what waits. */
module Fifo {

  /** An item that left the queue: handed to its consumer, or thrown away. */
  datatype Gone<T> = Gone(item: T, delivered: bool)

  function Items<T>(gone: seq<Gone<T>>): (s: seq<T>)
    ensures |s| == |gone| && forall i | 0 <= i < |s| :: s[i] == gone[i].item
  {
    if gone == [] then [] else Items(gone[..|gone| - 1]) + [gone[|gone| - 1].item]
  }

  /** Everything accepted has left, in order, or still waits, in order. */
  ghost predicate Accounted<T>(accepted: seq<T>, gone: seq<Gone<T>>, waiting: seq<T>) {
    accepted == Items(gone) + waiting
  }

  lemma LeaveOne<T>(accepted: seq<T>, gone: seq<Gone<T>>, waiting: seq<T>, delivered: bool)
    requires Accounted(accepted, gone, waiting) && waiting != []
    ensures Accounted(accepted, gone + [Gone(waiting[0], delivered)], waiting[1..])
  {
    var g := Gone(waiting[0], delivered);
    assert (gone + [g])[..|gone|] == gone;
    assert waiting == [waiting[0]] + waiting[1..];
  }

  /** All of `waiting` thrown away at once. */
  function Discard<T>(gone: seq<Gone<T>>, waiting: seq<T>): (r: seq<Gone<T>>)
    ensures |r| == |gone| + |waiting| && gone <= r
    ensures forall i | |gone| <= i < |r| :: r[i] == Gone(waiting[i - |gone|], false)
  {
    if waiting == [] then gone else Discard(gone, waiting[..|waiting| - 1]) + [Gone(waiting[|waiting| - 1], false)]
  }

  lemma LeaveAll<T>(accepted: seq<T>, gone: seq<Gone<T>>, waiting: seq<T>)
    requires Accounted(accepted, gone, waiting)
    ensures Accounted(accepted, Discard(gone, waiting), [])
  {
    var r := Discard(gone, waiting);
    assert forall i | 0 <= i < |gone| :: r[i] == gone[i];
    assert Items(r) == accepted;
  }
}
