/** Small shared vocabulary: optional values, addresses, datagrams and bounded C strings. */
module Prelude {

  datatype Option<+T> = None | Some(value: T)

  /** An IPv4 endpoint, the `struct sockaddr_in` of the sources. */
  datatype Addr = Addr(ip: nat, port: nat)

  /** A datagram to be sent: where it goes and what it says. */
  datatype Out = Out(dst: Addr, payload: string)

  /** What `snprintf(buf, n + 1, "%s", s)` leaves in `buf`: at most `n` characters. */
  function Clip(s: string, n: nat): (r: string)
    ensures |s| <= n ==> r == s
    ensures |r| <= n && r <= s
    ensures |r| == n || r == s
  {
    if |s| <= n then s else s[..n]
  }

  lemma MultisetShift<T>(a: multiset<T>, b: multiset<T>, x: multiset<T>, y: multiset<T>, z: multiset<T>)
    requires a + x == b + y
    ensures (a + z) + x == (b + z) + y
  {
    forall e: T
      ensures ((a + z) + x)[e] == ((b + z) + y)[e]
    {
      assert (a + x)[e] == (b + y)[e];
    }
  }

  /** One step of a ledger: what comes in leaves by one of two doors or stays. */
  lemma MultisetLedger<T>(total: multiset<T>, a: multiset<T>, b: multiset<T>, rest: multiset<T>, rest': multiset<T>,
                          more: multiset<T>, da: multiset<T>, db: multiset<T>)
    requires total == a + b + rest && rest' + db + da == rest + more
    ensures total + more == (a + da) + (b + db) + rest'
  {
    forall e: T
      ensures (total + more)[e] == ((a + da) + (b + db) + rest')[e]
    {
      assert (rest' + db + da)[e] == (rest + more)[e];
    }
  }
}
