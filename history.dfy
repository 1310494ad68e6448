/**
 * The rolling window behind the live power chart: each tick appends one
 * point and keeps the last thirty (`[...prev, point].slice(-30)`), so the
 * oldest point is the one evicted.
 */
module History {
  import opened MotorTypes

  const HistoryWindow: nat := 30

  /** `s.slice(-n)`: the last `n` elements, or all of them when fewer. */
  function LastN<T>(s: seq<T>, n: nat): seq<T>
  {
    if |s| <= n then s else s[|s| - n..]
  }

  /** `updatePowerHistory`: appends `p` and trims the history to the window. */
  function AppendPoint(history: seq<PowerHistoryPoint>, p: PowerHistoryPoint): (r: seq<PowerHistoryPoint>)
    ensures |r| == if |history| < HistoryWindow then |history| + 1 else HistoryWindow
    ensures r[|r| - 1] == p
    ensures |history| < HistoryWindow ==> r == history + [p]
    ensures |history| >= HistoryWindow ==> r == history[|history| - (HistoryWindow - 1)..] + [p]
  {
    LastN(history + [p], HistoryWindow)
  }

  /** Appends the points of `ps` one tick after the other. */
  function AppendAll(history: seq<PowerHistoryPoint>, ps: seq<PowerHistoryPoint>): seq<PowerHistoryPoint>
    decreases |ps|
  {
    if ps == [] then history else AppendAll(AppendPoint(history, ps[0]), ps[1..])
  }

  /**
   * However many ticks run, the history is the last thirty points of
   * everything ever appended, in the order they came.
   */
  lemma {:induction false} AppendAllIsWindow(history: seq<PowerHistoryPoint>, ps: seq<PowerHistoryPoint>)
    requires |history| <= HistoryWindow
    ensures AppendAll(history, ps) == LastN(history + ps, HistoryWindow)
    decreases |ps|
  {
    if ps != [] {
      var next := AppendPoint(history, ps[0]);
      AppendAllIsWindow(next, ps[1..]);
      assert history + ps == (history + [ps[0]]) + ps[1..];
      LastNOfAppended(history + [ps[0]], ps[1..]);
    }
  }

  /** Trimming before appending more does not change the last thirty. */
  lemma LastNOfAppended(s: seq<PowerHistoryPoint>, t: seq<PowerHistoryPoint>)
    ensures LastN(LastN(s, HistoryWindow) + t, HistoryWindow) == LastN(s + t, HistoryWindow)
  {
  }

  /**
   * Thirty-one ticks from an empty chart: the first point has been evicted
   * and the other thirty are there in order.
   */
  lemma ThirtyFirstTickEvictsFirst(ps: seq<PowerHistoryPoint>)
    requires |ps| == HistoryWindow + 1
    ensures AppendAll([], ps) == ps[1..]
  {
    AppendAllIsWindow([], ps);
    assert [] + ps == ps;
  }
}
