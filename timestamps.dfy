/**
 * The JavaScript `Date` values the voyage form works with, reduced to what the form
 * observes: a local calendar date and a time of day at minute precision, or the
 * "Invalid Date" a `Date` constructor produces when one of its arguments is `NaN`.
 */
module Timestamps {

  /**
   * `At` holds what `getFullYear`, `getMonth` (0-based, as in JavaScript), `getDate`,
   * `getHours` and `getMinutes` return; `Invalid` is a date whose `getTime()` is `NaN`.
   * An invalid date is still an object, so it is truthy wherever the source tests
   * a date for presence.
   */
  datatype Timestamp =
    | Invalid
    | At(year: int, month: int, day: int, hour: int, minute: int)

  /** The components of a valid timestamp, most significant first. */
  function Components(t: Timestamp): (c: seq<int>)
    requires t.At?
    ensures |c| == 5
  {
    [t.year, t.month, t.day, t.hour, t.minute]
  }

  /** Strict lexicographic order on equally long sequences of integers. */
  predicate LexLess(x: seq<int>, y: seq<int>)
    requires |x| == |y|
  {
    x != [] && (x[0] < y[0] || (x[0] == y[0] && LexLess(x[1..], y[1..])))
  }

  /**
   * `a.getTime() < b.getTime()`: `a` is an earlier instant than `b`. Any comparison
   * with `NaN` is false, so nothing is before or after an invalid date.
   */
  predicate Before(a: Timestamp, b: Timestamp) {
    a.At? && b.At? && LexLess(Components(a), Components(b))
  }

  /** `a <= b` on two dates: both valid and `a` not later than `b`. */
  predicate AtOrBefore(a: Timestamp, b: Timestamp) {
    a.At? && b.At? && (Before(a, b) || a == b)
  }

  lemma {:induction false} LexLessIrreflexive(x: seq<int>)
    ensures !LexLess(x, x)
  {
    if x != [] {
      LexLessIrreflexive(x[1..]);
    }
  }

  lemma {:induction false} LexLessTransitive(x: seq<int>, y: seq<int>, z: seq<int>)
    requires |x| == |y| == |z|
    requires LexLess(x, y) && LexLess(y, z)
    ensures LexLess(x, z)
  {
    if x[0] == y[0] == z[0] {
      LexLessTransitive(x[1..], y[1..], z[1..]);
    }
  }

  lemma {:induction false} LexLessTotal(x: seq<int>, y: seq<int>)
    requires |x| == |y|
    ensures LexLess(x, y) || x == y || LexLess(y, x)
  {
    if x != [] && x[0] == y[0] {
      LexLessTotal(x[1..], y[1..]);
      if x[1..] == y[1..] {
        assert x == [x[0]] + x[1..] && y == [y[0]] + y[1..];
      }
    }
  }

  lemma {:induction false} LexLessAsymmetric(x: seq<int>, y: seq<int>)
    requires |x| == |y|
    requires LexLess(x, y)
    ensures !LexLess(y, x)
  {
    if LexLess(y, x) {
      LexLessTransitive(x, y, x);
      LexLessIrreflexive(x);
    }
  }

  /** No timestamp is before itself. */
  lemma BeforeIrreflexive(a: Timestamp)
    ensures !Before(a, a)
  {
    if a.At? {
      LexLessIrreflexive(Components(a));
    }
  }

  /** `Before` is transitive. */
  lemma BeforeTransitive(a: Timestamp, b: Timestamp, c: Timestamp)
    requires Before(a, b) && Before(b, c)
    ensures Before(a, c)
  {
    LexLessTransitive(Components(a), Components(b), Components(c));
  }

  /** Two valid timestamps are equal or one of them is before the other. */
  lemma BeforeTotal(a: Timestamp, b: Timestamp)
    requires a.At? && b.At?
    ensures Before(a, b) || a == b || Before(b, a)
  {
    LexLessTotal(Components(a), Components(b));
    if Components(a) == Components(b) {
      assert a.year == b.year && a.month == b.month && a.day == b.day;
      assert a.hour == b.hour && a.minute == b.minute;
    }
  }

  /** Of two timestamps, at most one is before the other. */
  lemma BeforeAsymmetric(a: Timestamp, b: Timestamp)
    requires Before(a, b)
    ensures !Before(b, a)
  {
    LexLessAsymmetric(Components(a), Components(b));
  }

  /** For valid timestamps, `a <= b` is exactly "`b` is not before `a`". */
  lemma AtOrBeforeIffNotAfter(a: Timestamp, b: Timestamp)
    requires a.At? && b.At?
    ensures AtOrBefore(a, b) <==> !Before(b, a)
  {
    BeforeTotal(a, b);
    if Before(a, b) {
      BeforeAsymmetric(a, b);
    }
    if a == b {
      BeforeIrreflexive(a);
    }
  }
}
