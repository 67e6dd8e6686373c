/** The calls a rate limiter has seen, in the order it saw them, each with the
    clock reading it carried. */
module CallHistory {
  datatype Call = Call(key: string, at: int)

  datatype History = Empty | Snoc(past: History, last: Call)

  predicate NoLaterThan(calls: History, now: int) {
    match calls
    case Empty => true
    case Snoc(past, c) => NoLaterThan(past, now) && c.at <= now
  }

  /** No call carries a clock reading more than skew older than one before it. */
  predicate Skewed(calls: History, skew: nat) {
    match calls
    case Empty => true
    case Snoc(past, c) => Skewed(past, skew) && NoLaterThan(past, c.at + skew)
  }

  /** The calls come in time order. */
  predicate Ordered(calls: History) {
    Skewed(calls, 0)
  }

  lemma {:induction false} LaterStill(calls: History, now: int, later: int)
    requires NoLaterThan(calls, now) && now <= later
    ensures NoLaterThan(calls, later)
  {
    match calls
    case Empty =>
    case Snoc(past, _) => LaterStill(past, now, later);
  }

  lemma {:induction false} SkewedMore(calls: History, skew: nat, more: nat)
    requires Skewed(calls, skew) && skew <= more
    ensures Skewed(calls, more)
  {
    match calls
    case Empty =>
    case Snoc(past, c) =>
      SkewedMore(past, skew, more);
      LaterStill(past, c.at + skew, c.at + more);
  }

  /** k calls of one key with the same clock reading. */
  function Burst(calls: History, key: string, at: int, k: nat): History {
    if k == 0 then calls else Snoc(Burst(calls, key, at, k - 1), Call(key, at))
  }

  lemma {:induction false} BurstInTime(calls: History, key: string, at: int, k: nat, skew: nat)
    requires Skewed(calls, skew) && NoLaterThan(calls, at + skew)
    ensures Skewed(Burst(calls, key, at, k), skew) && NoLaterThan(Burst(calls, key, at, k), at + skew)
  {
    if k == 0 {
    } else {
      BurstInTime(calls, key, at, k - 1, skew);
    }
  }
}
