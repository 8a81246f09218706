/** The twin's lease over any sequence of `advance` calls, in unbounded time. */
module TwinLease {
  import opened Words
  import opened TwinModel

  /** `advance` called with one number of milliseconds after the other. */
  function Advanced(t: Twin, ticks: seq<nat>): (r: Twin) {
    if ticks == [] then t else Advance(Advanced(t, ticks[..|ticks| - 1]), ticks[|ticks| - 1]).value
  }

  /** The time these calls let pass. */
  function Total(ticks: seq<nat>): (r: nat) {
    if ticks == [] then 0 else Total(ticks[..|ticks| - 1]) + ticks[|ticks| - 1]
  }

  /** The time since the last command, while it fits into 32 bits. */
  function Elapsed(t: Twin): (r: nat) { U32(t.nowMs - t.lastCommandMs) }

  /** The wrapped time is below the lease after each of the calls. */
  predicate BelowThroughout(t: Twin, ticks: seq<nat>) {
    if ticks == [] then true
    else BelowThroughout(t, ticks[..|ticks| - 1]) && U32(Elapsed(t) + Total(ticks)) < t.armLeaseMs
  }

  lemma Wraps(now: int, last: int, passed: int, more: int)
    ensures U32(U32(U32(now + passed) + more) - last) == U32(U32(now - last) + passed + more)
  {
    var a, b := U32(now + passed), U32(now - last);
    assert (a - (now + passed)) % TWO32 == 0;
    assert (b - (now - last)) % TWO32 == 0;
    SameResidue(U32(a + more) - last, b + passed + more);
  }

  lemma SameResidue(x: int, y: int)
    requires (x - y) % TWO32 == 0
    ensures U32(x) == U32(y)
  {}

  lemma WrapsOnce(now: int, passed: int, more: int)
    ensures U32(U32(now + passed) + more) == U32(now + (passed + more))
  {}

  /** An armed simulator stays armed over any calls of `advance` exactly if the
      wrapped time since its last command is below the lease after each of them. */
  lemma {:induction false} AdvancesExactly(t: Twin, ticks: seq<nat>)
    requires t.sw.armed && t.armLeaseMs != 0 && 0 <= t.nowMs < TWO32
    ensures var u := Advanced(t, ticks);
            && (u.sw.armed <==> BelowThroughout(t, ticks))
            && (u.sw.armed ==> u == t.(nowMs := U32(t.nowMs + Total(ticks))))
  {
    if ticks == [] {
    } else {
      var init, ms := ticks[..|ticks| - 1], ticks[|ticks| - 1];
      AdvancesExactly(t, init);
      Wraps(t.nowMs, t.lastCommandMs, Total(init), ms);
      WrapsOnce(t.nowMs, Total(init), ms);
    }
  }

  /** No single call advances further than this without a chance of being missed. */
  predicate Short(t: Twin, ticks: seq<nat>) {
    forall i :: 0 <= i < |ticks| ==> ticks[i] <= TWO32 - t.armLeaseMs
  }

  lemma {:induction false} BelowIsTotal(t: Twin, ticks: seq<nat>)
    requires Elapsed(t) < t.armLeaseMs <= TWO32 && Short(t, ticks)
    ensures BelowThroughout(t, ticks) <==> Elapsed(t) + Total(ticks) < t.armLeaseMs
  {
    if ticks == [] {
    } else {
      BelowIsTotal(t, ticks[..|ticks| - 1]);
    }
  }

  /** With calls that are short enough the lease is exact in unbounded time, over any
      number of wraps of the clock: armed exactly as long as less time than the lease
      has passed since the last command. */
  lemma LeaseIsExact(t: Twin, ticks: seq<nat>)
    requires t.sw.armed && t.armLeaseMs != 0 && 0 <= t.nowMs < TWO32
    requires Elapsed(t) < t.armLeaseMs <= TWO32 && Short(t, ticks)
    ensures Advanced(t, ticks).sw.armed <==> Elapsed(t) + Total(ticks) < t.armLeaseMs
  {
    AdvancesExactly(t, ticks);
    BelowIsTotal(t, ticks);
  }

  /** One call of 2^32 milliseconds passes any lease unseen. */
  lemma LongAdvanceIsMissed(t: Twin)
    requires t.sw.armed && t.armLeaseMs > 0 && 0 <= t.nowMs < TWO32 && t.lastCommandMs == t.nowMs
    ensures Advanced(t, [TWO32]).sw.armed
  {
    var ticks: seq<nat> := [TWO32];
    assert ticks[..0] == [];
    assert Total(ticks) == Total([]) + TWO32;
    assert BelowThroughout(t, []) && Elapsed(t) == 0 && U32(TWO32) == 0;
    AdvancesExactly(t, ticks);
  }
}
