/** The bounds the handshake timers keep between them, against what the kernel may draw. */
module Timers {
  import opened Text

  type Ends = (int, int)

  datatype TimerFault = BelowRekey | BelowCycle | ResponderFirst(short: int) | ExpiresWaiting(short: int)

  /** The four tests of _check_timers in their order; a parameter that is not set or not readable is
      left out. */
  function Verdict(rekey: Option<Ends>, reject: Option<Ends>, timeout: Option<Ends>, keepalive: Option<Ends>)
    : Option<TimerFault>
  {
    if reject.None? then None
    else
      var low := reject.value.0;
      if rekey.Some? && low <= rekey.value.1 then Some(BelowRekey)
      else if timeout.None? || keepalive.None? then None
      else
        var cycle := keepalive.value.0 + timeout.value.0;
        if low <= cycle then Some(BelowCycle)
        else if rekey.Some? && low - cycle <= rekey.value.1 then Some(ResponderFirst(rekey.value.1 - (low - cycle) + 1))
        else if rekey.Some? && low <= rekey.value.1 + keepalive.value.1 + timeout.value.1
        then Some(ExpiresWaiting(rekey.value.1 + keepalive.value.1 + timeout.value.1 - low + 1))
        else None
  }

  predicate In(x: int, r: Ends) {
    r.0 <= x <= r.1
  }

  predicate WellFormed(r: Ends) {
    0 <= r.0 <= r.1
  }

  /** The initiator's key outlasts the wait for its replacement, whatever is drawn: for the rekey
      moment, for the keepalive, for the retry and for the key's end. */
  ghost predicate EveryDrawOutlasts(rekey: Ends, reject: Ends, timeout: Ends, keepalive: Ends) {
    forall r, k, t, j :: In(r, rekey) && In(k, keepalive) && In(t, timeout) && In(j, reject) ==> r + k + t < j
  }

  /** The responder's threshold, which takes the bottoms of both waits off whatever is drawn for the
      key's end, is never negative and comes after every rekey moment. */
  ghost predicate ResponderWaits(rekey: Ends, reject: Ends, timeout: Ends, keepalive: Ends) {
    forall r, j :: In(r, rekey) && In(j, reject) ==> 0 <= j - keepalive.0 - timeout.0 && r < j - keepalive.0 - timeout.0
  }

  /** With all four set and well formed, the check passes exactly when no draw can stall the tunnel. */
  lemma VerdictIsExact(rekey: Ends, reject: Ends, timeout: Ends, keepalive: Ends)
    requires WellFormed(rekey) && WellFormed(reject) && WellFormed(timeout) && WellFormed(keepalive)
    ensures Verdict(Some(rekey), Some(reject), Some(timeout), Some(keepalive)).None?
            <==> EveryDrawOutlasts(rekey, reject, timeout, keepalive)
  {
    var verdict := Verdict(Some(rekey), Some(reject), Some(timeout), Some(keepalive));
    if EveryDrawOutlasts(rekey, reject, timeout, keepalive) {
      assert In(rekey.1, rekey) && In(keepalive.1, keepalive) && In(timeout.1, timeout) && In(reject.0, reject);
      assert rekey.1 + keepalive.1 + timeout.1 < reject.0;
    }
    if verdict.None? {
      forall r, k, t, j | In(r, rekey) && In(k, keepalive) && In(t, timeout) && In(j, reject) ensures r + k + t < j {
      }
    }
  }

  /** Passing also means that the responder never starts a handshake of its own first, and that its
      subtraction never goes below zero. */
  lemma PassingKeepsTheResponderWaiting(rekey: Ends, reject: Ends, timeout: Ends, keepalive: Ends)
    requires WellFormed(rekey) && WellFormed(reject) && WellFormed(timeout) && WellFormed(keepalive)
    requires Verdict(Some(rekey), Some(reject), Some(timeout), Some(keepalive)).None?
    ensures ResponderWaits(rekey, reject, timeout, keepalive)
  {
    VerdictIsExact(rekey, reject, timeout, keepalive);
    forall r, j | In(r, rekey) && In(j, reject)
      ensures 0 <= j - keepalive.0 - timeout.0 && r < j - keepalive.0 - timeout.0
    {
      assert In(keepalive.0, keepalive) && In(timeout.0, timeout);
      assert r + keepalive.0 + timeout.0 < j;
    }
  }

  /** The first three tests never refuse what the last would let through: they only say better what is
      wrong, and say how many seconds are missing where they say a number. */
  lemma EarlierTestsOnlyExplain(rekey: Ends, reject: Ends, timeout: Ends, keepalive: Ends)
    requires WellFormed(rekey) && WellFormed(timeout) && WellFormed(keepalive)
    ensures var verdict := Verdict(Some(rekey), Some(reject), Some(timeout), Some(keepalive));
            && (verdict.Some? <==> reject.0 <= rekey.1 + keepalive.1 + timeout.1)
            && (verdict.Some? && verdict.value.ExpiresWaiting? ==>
                  Verdict(Some(rekey), Some((reject.0 + verdict.value.short, reject.1)), Some(timeout), Some(keepalive)).None?
                  && Verdict(Some(rekey), Some((reject.0 + verdict.value.short - 1, reject.1)), Some(timeout), Some(keepalive)).Some?)
  {
  }

  /** With only the two timers that are always compared, passing is again what every draw needs. */
  lemma TwoTimersAreExact(rekey: Ends, reject: Ends, timeout: Option<Ends>)
    requires WellFormed(rekey) && WellFormed(reject)
    ensures Verdict(Some(rekey), Some(reject), timeout, None).None?
            <==> forall r, j :: In(r, rekey) && In(j, reject) ==> r < j
  {
    if forall r, j :: In(r, rekey) && In(j, reject) ==> r < j {
      assert In(rekey.1, rekey) && In(reject.0, reject);
    }
  }
}
