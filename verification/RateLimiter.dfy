/** The membership rate limiter: a window that starts over one second after it
    began, and at most `maxPerSecond` calls per window. */
module RateLimiter {

  /** Instants are counted in nanoseconds. */
  const SECOND: nat := 1_000_000_000

  datatype Window = Window(start: nat, count: nat)

  /** `duration_since(start).as_secs() >= 1`; a clock reading before the start
      counts as no time. */
  predicate Over(w: Window, now: nat) {
    now >= w.start && (now - w.start) / SECOND >= 1
  }

  predicate Admits(w: Window, max: nat, now: nat) {
    Over(w, now) || w.count < max
  }

  function AfterCall(w: Window, max: nat, now: nat): Window {
    if Over(w, now) then Window(now, 1)
    else if w.count < max then w.(count := w.count + 1)
    else w
  }

  function AfterCalls(w: Window, max: nat, calls: seq<nat>): Window
    decreases calls
  {
    if calls == [] then w else AfterCalls(AfterCall(w, max, calls[0]), max, calls[1..])
  }

  /** How many of the calls, made at the given times, are admitted. */
  function Admitted(w: Window, max: nat, calls: seq<nat>): nat
    decreases calls
  {
    if calls == [] then 0
    else (if Admits(w, max, calls[0]) then 1 else 0) + Admitted(AfterCall(w, max, calls[0]), max, calls[1..])
  }

  ghost predicate NonDecreasing(calls: seq<nat>) {
    forall i, j :: 0 <= i <= j < |calls| ==> calls[i] <= calls[j]
  }

  /** What `m` full windows admit. */
  function Budget(m: nat, max: nat): nat {
    if m == 0 then 0 else max + Budget(m - 1, max)
  }

  lemma {:induction false} BudgetIsProduct(m: nat, max: nat)
    ensures Budget(m, max) == m * max
  {
    if m > 0 {
      BudgetIsProduct(m - 1, max);
    }
  }

  /** Calls before `m` seconds after the window's start. */
  lemma {:induction false} AdmittedBeforeDeadline(w: Window, max: nat, calls: seq<nat>, m: nat)
    requires max >= 1 && m >= 1 && w.count <= max && NonDecreasing(calls)
    requires forall i :: 0 <= i < |calls| ==> w.start <= calls[i] < w.start + m * SECOND
    ensures Admitted(w, max, calls) + w.count <= Budget(m, max)
    decreases calls
  {
    if calls != [] {
      var now, rest := calls[0], calls[1..];
      assert forall i :: 0 <= i < |rest| ==> rest[i] == calls[i + 1] && now <= rest[i];
      if Over(w, now) {
        AdmittedBeforeDeadline(Window(now, 1), max, rest, m - 1);
      } else {
        AdmittedBeforeDeadline(AfterCall(w, max, now), max, rest, m);
      }
    }
  }

  lemma {:induction false} WindowStaysWithin(w: Window, max: nat, calls: seq<nat>, bound: nat)
    requires max >= 1 && w.count <= max && w.start <= bound
    requires forall i :: 0 <= i < |calls| ==> calls[i] <= bound
    ensures AfterCalls(w, max, calls).count <= max && AfterCalls(w, max, calls).start <= bound
    decreases calls
  {
    if calls != [] {
      WindowStaysWithin(AfterCall(w, max, calls[0]), max, calls[1..], bound);
    }
  }

  /** Calls made in a span shorter than `k` seconds, after any earlier calls, on a
      clock that does not run backwards. */
  ghost predicate IsSpan(created: nat, before: seq<nat>, span: seq<nat>, k: nat) {
    && span != [] && NonDecreasing(before + span)
    && (forall i :: 0 <= i < |before + span| ==> created <= (before + span)[i])
    && span[|span| - 1] - span[0] < k * SECOND
  }

  /** For non-decreasing call times, every span shorter than `k` seconds admits at
      most `(k + 1) * max` calls, whatever came before. */
  lemma SpanAdmitsAtMost(created: nat, max: nat, before: seq<nat>, span: seq<nat>, k: nat)
    requires max >= 1 && k >= 1 && IsSpan(created, before, span, k)
    ensures Admitted(AfterCalls(Window(created, 0), max, before), max, span) <= (k + 1) * max
  {
    var first := span[0];
    forall i | 0 <= i < |before|
      ensures before[i] <= first
    {
      assert (before + span)[i] == before[i] && (before + span)[|before|] == first;
    }
    forall i, j | 0 <= i <= j < |span|
      ensures span[i] <= span[j]
    {
      assert (before + span)[|before| + i] == span[i] && (before + span)[|before| + j] == span[j];
    }
    assert created <= (before + span)[|before|] == first;
    WindowStaysWithin(Window(created, 0), max, before, first);
    BudgetIsProduct(k + 1, max);
    var w := AfterCalls(Window(created, 0), max, before);
    if Over(w, first) {
      AdmittedBeforeDeadline(Window(first, 1), max, span[1..], k);
    } else {
      AdmittedBeforeDeadline(w, max, span, k + 1);
    }
  }

  // --- The bound is reached ---

  function Burst(now: nat, n: nat): seq<nat> {
    if n == 0 then [] else [now] + Burst(now, n - 1)
  }

  /** A burst inside a window is admitted while there is room. */
  lemma {:induction false} BurstFillsWindow(w: Window, max: nat, now: nat, n: nat)
    requires !Over(w, now) && w.count + n <= max
    ensures Admitted(w, max, Burst(now, n)) == n
    ensures AfterCalls(w, max, Burst(now, n)) == w.(count := w.count + n)
    decreases n
  {
    if n > 0 {
      assert Burst(now, n)[1..] == Burst(now, n - 1);
      BurstFillsWindow(w.(count := w.count + 1), max, now, n - 1);
    }
  }

  /** A burst after the window's end opens a new window and fills it. */
  lemma BurstOpensWindow(w: Window, max: nat, now: nat)
    requires max >= 1 && Over(w, now)
    ensures Admitted(w, max, Burst(now, max)) == max
    ensures AfterCalls(w, max, Burst(now, max)) == Window(now, max)
  {
    assert Burst(now, max)[1..] == Burst(now, max - 1);
    BurstFillsWindow(Window(now, 1), max, now, max - 1);
  }

  lemma {:induction false} AdmittedConcat(w: Window, max: nat, a: seq<nat>, b: seq<nat>)
    ensures Admitted(w, max, a + b) == Admitted(w, max, a) + Admitted(AfterCalls(w, max, a), max, b)
    ensures AfterCalls(w, max, a + b) == AfterCalls(AfterCalls(w, max, a), max, b)
    decreases a
  {
    if a == [] {
      assert a + b == b;
    } else {
      assert (a + b)[1..] == a[1..] + b;
      AdmittedConcat(AfterCall(w, max, a[0]), max, a[1..], b);
    }
  }

  /** Bursts at the end of the first second and at the start of the next `k`. */
  function Bursts(max: nat, k: nat): seq<nat> {
    if k == 0 then Burst(SECOND - 1, max) else Bursts(max, k - 1) + Burst(k * SECOND, max)
  }

  lemma {:induction false} BurstsAdmitted(max: nat, k: nat)
    requires max >= 1
    ensures Admitted(Window(0, 0), max, Bursts(max, k)) == (k + 1) * max
    ensures AfterCalls(Window(0, 0), max, Bursts(max, k)) == Window(k * SECOND, max)
  {
    if k == 0 {
      BurstFillsWindow(Window(0, 0), max, SECOND - 1, max);
    } else {
      BurstsAdmitted(max, k - 1);
      AdmittedConcat(Window(0, 0), max, Bursts(max, k - 1), Burst(k * SECOND, max));
      assert k * SECOND - (k - 1) * SECOND == SECOND;
      BurstOpensWindow(Window((k - 1) * SECOND, max), max, k * SECOND);
      assert (k + 1) * max == k * max + max;
    }
  }

  lemma {:induction false} BurstWithin(now: nat, n: nat)
    ensures |Burst(now, n)| == n && forall i :: 0 <= i < n ==> Burst(now, n)[i] == now
  {
    if n > 0 {
      BurstWithin(now, n - 1);
    }
  }

  lemma {:induction false} BurstsWithinSpan(max: nat, k: nat)
    requires max >= 1
    ensures NonDecreasing(Bursts(max, k)) && Bursts(max, k) != []
    ensures forall i :: 0 <= i < |Bursts(max, k)| ==>
              SECOND - 1 <= Bursts(max, k)[i] <= (if k == 0 then SECOND - 1 else k * SECOND)
  {
    if k == 0 {
      BurstWithin(SECOND - 1, max);
    } else {
      BurstsWithinSpan(max, k - 1);
      BurstWithin(k * SECOND, max);
      assert k * SECOND == (k - 1) * SECOND + SECOND;
    }
  }

  /** For every limit and every `k` some calls within a span shorter than `k` seconds
      are admitted `(k + 1) * max` times. */
  lemma BoundIsReached(max: nat, k: nat)
    requires max >= 1 && k >= 1
    ensures exists span :: IsSpan(0, [], span, k) && Admitted(Window(0, 0), max, span) == (k + 1) * max
  {
    BurstsAdmitted(max, k);
    BurstsWithinSpan(max, k);
    var span := Bursts(max, k);
    assert [] + span == span;
    assert IsSpan(0, [], span, k);
  }

  /** The bound, for every limiter, every earlier call and every span. */
  ghost predicate EverySpanWithin(max: nat, k: nat) {
    forall created: nat, before: seq<nat>, span: seq<nat> ::
      IsSpan(created, before, span, k) ==>
        Admitted(AfterCalls(Window(created, 0), max, before), max, span) <= (k + 1) * max
  }

  /** A limit of zero is the only one not kept: a new window admits its first call
      without looking at the limit. */
  lemma SpansBoundedIffLimitPositive(max: nat, k: nat)
    requires k >= 1
    ensures EverySpanWithin(max, k) <==> max >= 1
  {
    if max >= 1 {
      forall created: nat, before: seq<nat>, span: seq<nat> | IsSpan(created, before, span, k)
        ensures Admitted(AfterCalls(Window(created, 0), max, before), max, span) <= (k + 1) * max
      {
        SpanAdmitsAtMost(created, max, before, span, k);
      }
    } else {
      assert IsSpan(0, [], [SECOND], k);
      assert Admitted(AfterCalls(Window(0, 0), 0, []), 0, [SECOND]) == 1;
    }
  }

  class Limiter {
    const maxPerSecond: nat
    var windowStart: nat
    var count: nat

    function View(): Window
      reads this
    {
      Window(windowStart, count)
    }

    constructor (maxPerSecond: nat, now: nat)
      ensures this.maxPerSecond == maxPerSecond && View() == Window(now, 0)
    {
      this.maxPerSecond, windowStart, count := maxPerSecond, now, 0;
    }

    method Check(now: nat) returns (ok: bool)
      modifies this
      ensures ok <==> Admits(old(View()), maxPerSecond, now)
      ensures View() == AfterCall(old(View()), maxPerSecond, now)
    {
      var elapsed := if now >= windowStart then now - windowStart else 0;
      if elapsed / SECOND >= 1 {
        windowStart, count := now, 1;
        return true;
      } else if count < maxPerSecond {
        count := count + 1;
        return true;
      } else {
        return false;
      }
    }
  }
}
