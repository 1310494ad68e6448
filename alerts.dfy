/**
 * The alert list of the system status: newest first and at most five long.
 * A new alert goes to the front and the list keeps the first four older
 * ones (`[alert, ...prev.alerts.slice(0, 4)]`); starting the motor drops the
 * alerts whose message is exactly "Motor stopped" (`filter`).
 */
module Alerts {
  import opened MotorTypes

  const MaxAlerts: nat := 5

  /** `prev.slice(0, n)`: the first `n` elements, or all of them when fewer. */
  function Take<T>(s: seq<T>, n: nat): (r: seq<T>)
    ensures |r| == if |s| < n then |s| else n
    ensures r == s[..|r|]
  {
    if |s| <= n then s else s[..n]
  }

  /** Puts `a` in front of the list, keeping the first four alerts already there. */
  function PushAlert(alerts: seq<Alert>, a: Alert): (r: seq<Alert>)
    ensures 1 <= |r| <= MaxAlerts
    ensures r[0] == a
    ensures |r| == if |alerts| < MaxAlerts then |alerts| + 1 else MaxAlerts
    ensures forall i :: 1 <= i < |r| ==> r[i] == alerts[i - 1]
  {
    [a] + Take(alerts, MaxAlerts - 1)
  }

  /** Pushes the alerts of `xs` one after the other, in order. */
  function PushAll(alerts: seq<Alert>, xs: seq<Alert>): seq<Alert>
    decreases |xs|
  {
    if xs == [] then alerts else PushAll(PushAlert(alerts, xs[0]), xs[1..])
  }

  function Reverse<T>(s: seq<T>): (r: seq<T>)
    ensures |r| == |s|
    ensures forall i :: 0 <= i < |s| ==> r[i] == s[|s| - 1 - i]
  {
    if s == [] then [] else Reverse(s[1..]) + [s[0]]
  }

  /**
   * A run of pushes leaves the five most recent alerts, newest first: the
   * pushed ones in reverse order, then what was there before.
   */
  lemma {:induction false} PushAllNewestFirst(alerts: seq<Alert>, xs: seq<Alert>)
    requires |alerts| <= MaxAlerts
    ensures PushAll(alerts, xs) == Take(Reverse(xs) + alerts, MaxAlerts)
    decreases |xs|
  {
    if xs != [] {
      var pushed := PushAlert(alerts, xs[0]);
      PushAllNewestFirst(pushed, xs[1..]);
      var front := Reverse(xs[1..]);
      assert Reverse(xs) == front + [xs[0]];
      TakeOfPrefixed(front, xs[0], alerts);
      assert Reverse(xs) + alerts == front + [xs[0]] + alerts;
      assert PushAll(alerts, xs) == PushAll(pushed, xs[1..]);
    }
  }

  /** Truncating the older part before prepending more does not change the first five. */
  lemma TakeOfPrefixed(front: seq<Alert>, a: Alert, alerts: seq<Alert>)
    ensures Take(front + PushAlert(alerts, a), MaxAlerts) == Take(front + [a] + alerts, MaxAlerts)
  {
  }

  /** The alerts whose message is not `message`, in their original order. */
  function WithoutMessage(alerts: seq<Alert>, message: string): (r: seq<Alert>)
    ensures |r| <= |alerts|
    ensures forall i :: 0 <= i < |r| ==> r[i].message != message && r[i] in alerts
  {
    if alerts == [] then []
    else if alerts[0].message != message then [alerts[0]] + WithoutMessage(alerts[1..], message)
    else WithoutMessage(alerts[1..], message)
  }

  /** Every alert with another message survives the filter. */
  lemma {:induction false} WithoutMessageKeeps(alerts: seq<Alert>, message: string, a: Alert)
    requires a in alerts && a.message != message
    ensures a in WithoutMessage(alerts, message)
  {
    if alerts[0] != a {
      WithoutMessageKeeps(alerts[1..], message, a);
    }
  }

  /** The filter works piecewise, so the survivors keep their relative order. */
  lemma {:induction false} WithoutMessageAppend(xs: seq<Alert>, ys: seq<Alert>, message: string)
    ensures WithoutMessage(xs + ys, message) == WithoutMessage(xs, message) + WithoutMessage(ys, message)
  {
    if xs != [] {
      assert (xs + ys)[1..] == xs[1..] + ys;
      WithoutMessageAppend(xs[1..], ys, message);
    } else {
      assert xs + ys == ys;
    }
  }

  /** A list without the message passes the filter unchanged. */
  lemma {:induction false} WithoutMessageIdentity(alerts: seq<Alert>, message: string)
    requires forall i :: 0 <= i < |alerts| ==> alerts[i].message != message
    ensures WithoutMessage(alerts, message) == alerts
  {
    if alerts != [] {
      WithoutMessageIdentity(alerts[1..], message);
    }
  }
}
