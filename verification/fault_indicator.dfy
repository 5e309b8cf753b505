/** The fault indicator (error LED) as a write-only boolean sink. */
module FaultIndicator {
  import opened Peripherals

  /** The indicator state after the calls `calls` starting from `led`:
      every `SetFault` switches it on, every other call leaves it alone. */
  function LedAfter(led: bool, calls: seq<Call>): bool
    decreases |calls|
  {
    if |calls| == 0 then led
    else LedAfter(if calls[0] == SetFault then true else led, calls[1..])
  }

  /** The indicator is on after a sequence of calls exactly when it was on
      before or some call in the sequence raised the fault. */
  lemma {:induction false} LedAfterIsRaised(led: bool, calls: seq<Call>)
    ensures LedAfter(led, calls) <==> led || SetFault in calls
    decreases |calls|
  {
    if |calls| > 0 {
      LedAfterIsRaised(if calls[0] == SetFault then true else led, calls[1..]);
      assert calls == [calls[0]] + calls[1..];
    }
  }

  /** The fault flag is never cleared: once on, it stays on. */
  lemma NeverCleared(led: bool, calls: seq<Call>)
    requires led
    ensures LedAfter(led, calls)
  {
  }

  /** Running two call sequences one after the other is the same as running
      their concatenation. */
  lemma {:induction false} LedAfterAppend(led: bool, a: seq<Call>, b: seq<Call>)
    ensures LedAfter(led, a + b) == LedAfter(LedAfter(led, a), b)
    decreases |a|
  {
    if |a| > 0 {
      assert (a + b)[0] == a[0];
      assert (a + b)[1..] == a[1..] + b;
      LedAfterAppend(if a[0] == SetFault then true else led, a[1..], b);
    } else {
      assert a + b == b;
    }
  }

  /** Raising the fault twice has the same observable effect as raising it once. */
  lemma SetFaultIdempotent(led: bool, before: seq<Call>, after: seq<Call>)
    ensures LedAfter(led, before + [SetFault, SetFault] + after)
         == LedAfter(led, before + [SetFault] + after)
  {
    LedAfterIsRaised(led, before + [SetFault, SetFault] + after);
    LedAfterIsRaised(led, before + [SetFault] + after);
    assert SetFault in before + [SetFault] + after by {
      assert (before + [SetFault] + after)[|before|] == SetFault;
    }
    assert SetFault in before + [SetFault, SetFault] + after by {
      assert (before + [SetFault, SetFault] + after)[|before|] == SetFault;
    }
  }
}
