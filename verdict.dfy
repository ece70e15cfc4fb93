/**
 * The verdict printed for one branch after its candidate histogram has
 * been compared with the reference: either "All Tests Passed" or the
 * error lines of the individual tests. The outer test and the five inner
 * tests are kept exactly as the tool writes them, and a corrected verdict
 * whose outer test is the disjunction of the inner ones stands beside it.
 */
module Verdict {

  /** What ROOT reports about one histogram. */
  datatype Stats = Stats(mean: real, meanError: real, std: real, stdError: real, max: real, min: real)

  /** The lines the verdict can print, in the order the tool prints them. */
  datatype Message =
    | MeanOutsideStd          // "Error: Mean outside of 1 Standard Deviation"
    | StdErrorTooLarge        // "Error: Standard Deviation Error to large"
    | MeanOutsideErrorBounds  // "Error: Mean Value outside error bounds"
    | MaxMinReversed          // "Error: Max, Min reversed"
    | PValueTooLow            // "Error: P-value less than 0.99"
    | AllTestsPassed          // "All Tests Passed"

  function Rank(m: Message): nat
  {
    match m
    case MeanOutsideStd => 0
    case StdErrorTooLarge => 1
    case MeanOutsideErrorBounds => 2
    case MaxMinReversed => 3
    case PValueTooLow => 4
    case AllTestsPassed => 5
  }

  /** The lines appear in the tool's order, none twice. */
  predicate InOrder(v: seq<Message>)
  {
    forall i, j :: 0 <= i < j < |v| ==> Rank(v[i]) < Rank(v[j])
  }

  /**
   * A double-precision quotient: a number, or the infinity or not-a-number
   * that dividing by zero yields.
   */
  datatype Quotient = Finite(q: real) | PosInf | NegInf | NaN

  function Div(a: real, b: real): (d: Quotient)
    ensures b != 0.0 ==> d.Finite? && d.q * b == a
    ensures b == 0.0 ==> (d == PosInf <==> a > 0.0) && (d == NegInf <==> a < 0.0) && (d == NaN <==> a == 0.0)
  {
    if b != 0.0 then Finite(a / b)
    else if a > 0.0 then PosInf
    else if a < 0.0 then NegInf
    else NaN
  }

  /** `quotient > t`: false for not-a-number. */
  predicate Above(d: Quotient, t: real)
  {
    match d
    case Finite(q) => q > t
    case PosInf => true
    case _ => false
  }

  /** `quotient < t`: false for not-a-number. */
  predicate Below(d: Quotient, t: real)
  {
    match d
    case Finite(q) => q < t
    case NegInf => true
    case _ => false
  }

  /** The outer test, term by term as the tool writes it. */
  predicate Guard(c: Stats, r: Stats, p: real)
  {
    || c.mean > c.mean + r.std || c.mean < c.mean - r.std
    || Above(Div(c.stdError, r.stdError), r.std) || Above(Div(r.stdError, c.stdError), r.std)
    || Above(Div(r.stdError, c.stdError), c.std) || Above(Div(c.stdError, r.stdError), c.std)
    || c.mean > r.mean + r.meanError || c.mean < r.mean - r.meanError
    || r.mean > c.mean + c.meanError || r.mean < c.mean - c.meanError
    || c.max < r.min || r.max < c.min || p < 0.99
  }

  /**
   * The candidate mean lies more than one reference standard deviation
   * from the reference mean (only this direction is tested).
   */
  predicate MeanRule(c: Stats, r: Stats)
  {
    c.mean > r.mean + r.std || c.mean < r.mean - r.std
  }

  /** The two standard-deviation errors differ by more than one percent. */
  predicate StdErrorRule(c: Stats, r: Stats)
  {
    || Above(Div(c.stdError, r.stdError), 1.01) || Above(Div(r.stdError, c.stdError), 1.01)
    || Below(Div(r.stdError, c.stdError), 0.99) || Below(Div(c.stdError, r.stdError), 0.99)
  }

  /** Each mean lies outside the other's error bar. */
  predicate MeanErrorRule(c: Stats, r: Stats)
  {
    || c.mean > r.mean + r.meanError || c.mean < r.mean - r.meanError
    || r.mean > c.mean + c.meanError || r.mean < c.mean - c.meanError
  }

  predicate MaxMinRule(c: Stats, r: Stats)
  {
    c.max < r.min || r.max < c.min
  }

  predicate PValueRule(p: real)
  {
    p < 0.99
  }

  /** Whether the inner test behind error line `m` fails. */
  predicate Fires(m: Message, c: Stats, r: Stats, p: real)
  {
    match m
    case MeanOutsideStd => MeanRule(c, r)
    case StdErrorTooLarge => StdErrorRule(c, r)
    case MeanOutsideErrorBounds => MeanErrorRule(c, r)
    case MaxMinReversed => MaxMinRule(c, r)
    case PValueTooLow => PValueRule(p)
    case AllTestsPassed => false
  }

  /** The lines of `s` whose test fails, in the order of `s`. */
  function Keep(s: seq<Message>, c: Stats, r: Stats, p: real): (v: seq<Message>)
    ensures forall x :: x in v <==> x in s && Fires(x, c, r, p)
    ensures v == [] <==> forall x :: x in s ==> !Fires(x, c, r, p)
  {
    if s == [] then []
    else (if Fires(s[0], c, r, p) then [s[0]] else []) + Keep(s[1..], c, r, p)
  }

  /** A line ranked before every line of an ordered list can lead it. */
  lemma ConsInOrder(x: Message, v: seq<Message>)
    requires InOrder(v)
    requires forall y :: y in v ==> Rank(x) < Rank(y)
    ensures InOrder([x] + v)
  {
    var w := [x] + v;
    forall i, j | 0 <= i < j < |w|
      ensures Rank(w[i]) < Rank(w[j])
    {
      assert w[j] == v[j - 1];
      if i > 0 {
        assert w[i] == v[i - 1];
      }
    }
  }

  lemma {:induction false} KeepKeepsOrder(s: seq<Message>, c: Stats, r: Stats, p: real)
    requires InOrder(s)
    ensures InOrder(Keep(s, c, r, p))
  {
    if s != [] {
      KeepKeepsOrder(s[1..], c, r, p);
      forall y | y in Keep(s[1..], c, r, p)
        ensures Rank(s[0]) < Rank(y)
      {
        var k :| 0 <= k < |s[1..]| && s[1..][k] == y;
        assert s[k + 1] == y;
      }
      if Fires(s[0], c, r, p) {
        ConsInOrder(s[0], Keep(s[1..], c, r, p));
      }
    }
  }

  /** The five error lines in the order the tool tests them. */
  const ErrorLines := [MeanOutsideStd, StdErrorTooLarge, MeanOutsideErrorBounds, MaxMinReversed, PValueTooLow]

  /**
   * The error lines of the five inner tests, each printed when its own test
   * holds: nothing at all when none of them fails.
   */
  function Failures(c: Stats, r: Stats, p: real): (v: seq<Message>)
    ensures InOrder(v) && AllTestsPassed !in v
    ensures MeanOutsideStd in v <==> MeanRule(c, r)
    ensures StdErrorTooLarge in v <==> StdErrorRule(c, r)
    ensures MeanOutsideErrorBounds in v <==> MeanErrorRule(c, r)
    ensures MaxMinReversed in v <==> MaxMinRule(c, r)
    ensures PValueTooLow in v <==> PValueRule(p)
    ensures v == [] <==> !IntendedGuard(c, r, p)
  {
    assert InOrder(ErrorLines);
    KeepKeepsOrder(ErrorLines, c, r, p);
    Keep(ErrorLines, c, r, p)
  }

  /** What the tool prints for candidate `c`, reference `r` and p-value `p`. */
  function Messages(c: Stats, r: Stats, p: real): (v: seq<Message>)
    ensures InOrder(v)
    ensures AllTestsPassed in v <==> !Guard(c, r, p)
    ensures !Guard(c, r, p) ==> v == [AllTestsPassed]
  {
    if Guard(c, r, p) then Failures(c, r, p) else [AllTestsPassed]
  }

  /**
   * Once the outer test holds, each error line is printed exactly when its
   * own test holds.
   */
  lemma ReportedUnderGuard(c: Stats, r: Stats, p: real)
    requires Guard(c, r, p)
    ensures var v := Messages(c, r, p);
      && (MeanOutsideStd in v <==> MeanRule(c, r))
      && (StdErrorTooLarge in v <==> StdErrorRule(c, r))
      && (MeanOutsideErrorBounds in v <==> MeanErrorRule(c, r))
      && (MaxMinReversed in v <==> MaxMinRule(c, r))
      && (PValueTooLow in v <==> PValueRule(p))
  {
  }

  /**
   * The mean-error, max/min and p-value tests appear verbatim in the outer
   * test: when one of them fails its line is always printed, and "All
   * Tests Passed" never is.
   */
  lemma ClearFailuresAlwaysReported(c: Stats, r: Stats, p: real)
    ensures var v := Messages(c, r, p);
      && (MeanErrorRule(c, r) ==> MeanOutsideErrorBounds in v)
      && (MaxMinRule(c, r) ==> MaxMinReversed in v)
      && (PValueRule(p) ==> PValueTooLow in v)
      && (MeanErrorRule(c, r) || MaxMinRule(c, r) || PValueRule(p) ==> AllTestsPassed !in v)
  {
    if MeanErrorRule(c, r) || MaxMinRule(c, r) || PValueRule(p) {
      assert Guard(c, r, p);
    }
  }

  /**
   * The outer test's first two terms compare the candidate mean with
   * itself: together they only ask whether the reference standard
   * deviation is negative.
   */
  lemma GuardMeanTermsTestSign(c: Stats, r: Stats)
    ensures (c.mean > c.mean + r.std || c.mean < c.mean - r.std) <==> r.std < 0.0
  {
  }

  /**
   * A candidate mean 100 reference standard deviations away from the
   * reference mean passes when both mean errors are larger still: the
   * outer test never checks the mean rule.
   */
  lemma MeanRuleMaskedByGuard()
    ensures var c, r := Stats(100.0, 200.0, 1.0, 1.0, 500.0, -500.0), Stats(0.0, 200.0, 1.0, 1.0, 500.0, -500.0);
      MeanRule(c, r) && Messages(c, r, 1.0) == [AllTestsPassed]
  {
    var c, r := Stats(100.0, 200.0, 1.0, 1.0, 500.0, -500.0), Stats(0.0, 200.0, 1.0, 1.0, 500.0, -500.0);
    assert Div(1.0, 1.0) == Finite(1.0);
    assert !Guard(c, r, 1.0);
  }

  /**
   * While the reference mean error does not exceed the reference standard
   * deviation, as for a mean error of std/sqrt(n), the outer test's
   * mean-error terms catch every failing mean test: the self-comparison
   * then has no visible effect.
   */
  lemma MeanRuleCaughtWhenErrorWithinStd(c: Stats, r: Stats, p: real)
    requires r.meanError <= r.std && MeanRule(c, r)
    ensures Guard(c, r, p) && MeanOutsideStd in Messages(c, r, p)
  {
  }

  /**
   * Standard-deviation errors five percent apart pass when both standard
   * deviations exceed the ratio: the outer test compares the ratio with
   * the standard deviations instead of 1.01.
   */
  lemma StdErrorRuleMaskedByGuard()
    ensures var c, r := Stats(0.0, 1.0, 10.0, 1.05, 5.0, -5.0), Stats(0.0, 1.0, 10.0, 1.0, 5.0, -5.0);
      StdErrorRule(c, r) && Messages(c, r, 1.0) == [AllTestsPassed]
  {
    var c, r := Stats(0.0, 1.0, 10.0, 1.05, 5.0, -5.0), Stats(0.0, 1.0, 10.0, 1.0, 5.0, -5.0);
    assert Div(1.05, 1.0) == Finite(1.05);
    assert Div(1.0, 1.05).q < 1.0;
    assert !Guard(c, r, 1.0);
  }

  /**
   * Identical statistics with a standard deviation of one half trip the
   * outer test (a ratio of 1 exceeds 0.5) while no inner test fails: the
   * verdict prints nothing at all.
   */
  lemma SilentVerdict()
    ensures var s := Stats(0.0, 0.07, 0.5, 0.05, 5.0, 1.0);
      Messages(s, s, 1.0) == []
  {
    var s := Stats(0.0, 0.07, 0.5, 0.05, 5.0, 1.0);
    assert Div(1.0, 1.0) == Finite(1.0);
    assert Guard(s, s, 1.0) && !IntendedGuard(s, s, 1.0);
  }

  /**
   * The mean test the comment above it describes: each mean lies within
   * one standard deviation of the other, the candidate's against the
   * reference and the reference's against the candidate.
   */
  function TwoWayMeanRule(c: Stats, r: Stats): (b: bool)
    ensures MeanRule(c, r) ==> b
    ensures !b <==> r.mean - r.std <= c.mean <= r.mean + r.std && c.mean - c.std <= r.mean <= c.mean + c.std
  {
    MeanRule(c, r) || MeanRule(r, c)
  }

  /** The two-way test does not depend on which histogram is the reference. */
  lemma TwoWayMeanRuleSymmetric(c: Stats, r: Stats)
    ensures TwoWayMeanRule(c, r) <==> TwoWayMeanRule(r, c)
  {
  }

  /**
   * A candidate mean within the reference's standard deviation while the
   * reference mean lies five candidate standard deviations away: the
   * two-way test fails, yet the mean line is not printed.
   */
  lemma MeanRuleOneWay()
    ensures var c, r := Stats(0.0, 0.1, 1.0, 0.1, 5.0, -5.0), Stats(5.0, 0.1, 10.0, 0.1, 15.0, -5.0);
      && !MeanRule(c, r) && TwoWayMeanRule(c, r)
      && MeanOutsideStd !in Messages(c, r, 1.0)
  {
    var c, r := Stats(0.0, 0.1, 1.0, 0.1, 5.0, -5.0), Stats(5.0, 0.1, 10.0, 0.1, 15.0, -5.0);
    assert Guard(c, r, 1.0) by {
      assert c.mean < r.mean - r.meanError;
    }
  }

  /** The outer test the inner tests call for: one of them fails. */
  predicate IntendedGuard(c: Stats, r: Stats, p: real)
  {
    MeanRule(c, r) || StdErrorRule(c, r) || MeanErrorRule(c, r) || MaxMinRule(c, r) || PValueRule(p)
  }

  /** The verdict with the outer test replaced by `IntendedGuard`. */
  function IntendedMessages(c: Stats, r: Stats, p: real): (v: seq<Message>)
    ensures InOrder(v) && v != []
    ensures AllTestsPassed in v <==> !IntendedGuard(c, r, p)
    ensures MeanOutsideStd in v <==> MeanRule(c, r)
    ensures StdErrorTooLarge in v <==> StdErrorRule(c, r)
    ensures MeanOutsideErrorBounds in v <==> MeanErrorRule(c, r)
    ensures MaxMinReversed in v <==> MaxMinRule(c, r)
    ensures PValueTooLow in v <==> PValueRule(p)
  {
    if IntendedGuard(c, r, p) then Failures(c, r, p) else [AllTestsPassed]
  }

  /**
   * Whenever both outer tests hold, the tool prints what the corrected
   * verdict prints; in particular whenever the mean-error, max/min or
   * p-value test fails.
   */
  lemma AgreesWithIntended(c: Stats, r: Stats, p: real)
    requires (Guard(c, r, p) && IntendedGuard(c, r, p)) || MeanErrorRule(c, r) || MaxMinRule(c, r) || PValueRule(p)
    ensures Messages(c, r, p) == IntendedMessages(c, r, p)
  {
    if MeanErrorRule(c, r) || MaxMinRule(c, r) || PValueRule(p) {
      assert Guard(c, r, p);
    }
  }
}
