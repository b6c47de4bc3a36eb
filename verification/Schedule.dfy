/** When the engine runs, and the display freeze the schedule implies. */
module Schedule {
  import opened Sums
  import opened Store

  /** An enabled window, open on `[start, end)`. */
  datatype Window = Window(start: int, end: int)

  predicate Inside(w: Window, now: int) { w.start <= now < w.end }

  predicate InSomeWindow(windows: seq<Window>, now: int) {
    exists i | 0 <= i < |windows| :: Inside(windows[i], now)
  }

  predicate EngineShouldRun(windows: seq<Window>, now: int) {
    windows == [] || InSomeWindow(windows, now)
  }

  function LatestEnd(windows: seq<Window>, now: int): (r: Option<int>)
    ensures r.None? ==> forall w | w in windows :: w.end > now
    ensures r.Some? ==> r.value <= now && exists w :: w in windows && w.end == r.value
    ensures r.Some? ==> forall w | w in windows && w.end <= now :: w.end <= r.value
  {
    if windows == [] then None
    else
      var rest := LatestEnd(windows[1..], now);
      if windows[0].end <= now && (rest.None? || windows[0].end >= rest.value) then Some(windows[0].end) else rest
  }

  /** None while the board is live or before the first window; else the end of the last closed window. */
  function WindowDerivedFreeze(windows: seq<Window>, now: int): Option<int> {
    if windows == [] || InSomeWindow(windows, now) then None else LatestEnd(windows, now)
  }

  /** Every instant is live, before everything, or frozen: no freeze is derived exactly in the first two cases. */
  lemma NoFreezeExactly(windows: seq<Window>, now: int)
    ensures WindowDerivedFreeze(windows, now).None? <==>
              EngineShouldRun(windows, now) || (windows != [] && forall w | w in windows :: w.end > now)
  {
    if LatestEnd(windows, now).Some? {
      var w :| w in windows && w.end == LatestEnd(windows, now).value;
    }
  }

  /** Without a schedule the engine always runs; the first window shuts every instant but its own. */
  lemma FirstWindow(w: Window, now: int)
    ensures EngineShouldRun([], now)
    ensures EngineShouldRun([w], now) <==> w.start <= now < w.end
  {
    assert [w][0] == w;
  }

  /** Wherever it is put, a further window opens the instants from its start up to its end, and shuts none. */
  lemma AnotherWindow(before: seq<Window>, w: Window, after: seq<Window>, now: int)
    requires before + after != []
    ensures EngineShouldRun(before + [w] + after, now) <==>
              EngineShouldRun(before + after, now) || w.start <= now < w.end
  {
    var old', new' := before + after, before + [w] + after;
    if i :| 0 <= i < |old'| && Inside(old'[i], now) {
      assert new'[if i < |before| then i else i + 1] == old'[i];
    }
    if i :| 0 <= i < |new'| && Inside(new'[i], now) {
      assert i == |before| || old'[if i < |before| then i else i - 1] == new'[i];
    }
    assert new'[|before|] == w;
  }

  /** A derived freeze at `now` means: no window has been open at any instant from the freeze until now. */
  lemma NothingOpenSinceFreeze(windows: seq<Window>, now: int, instant: int)
    requires WindowDerivedFreeze(windows, now).Some?
    requires WindowDerivedFreeze(windows, now).value <= instant <= now
    ensures !EngineShouldRun(windows, instant)
  {
    forall i | 0 <= i < |windows| ensures !Inside(windows[i], instant) {
      assert windows[i] in windows;
      assert !Inside(windows[i], now);
    }
  }

  /** The derived freeze is the earliest instant since which no window has been open, once some window has closed. */
  lemma FreezeIsWhenTheLastWindowClosed(windows: seq<Window>, now: int, since: int)
    requires since <= now && forall w | w in windows :: w.start < w.end
    requires exists w :: w in windows && w.end <= now
    ensures (forall instant | since <= instant <= now :: !EngineShouldRun(windows, instant)) <==>
            WindowDerivedFreeze(windows, now).Some? && WindowDerivedFreeze(windows, now).value <= since
  {
    var freeze := WindowDerivedFreeze(windows, now);
    if freeze.Some? && freeze.value <= since {
      forall instant | since <= instant <= now ensures !EngineShouldRun(windows, instant) {
        NothingOpenSinceFreeze(windows, now, instant);
      }
    } else if freeze.Some? {
      var w :| w in windows && w.end == freeze.value;
      var i :| 0 <= i < |windows| && windows[i] == w;
      assert Inside(windows[i], w.end - 1) && EngineShouldRun(windows, w.end - 1);
    } else {
      assert EngineShouldRun(windows, now);
    }
  }

  /**
   Rounds with the instants at which their loop passed the schedule gate: a round ends
   after its gate and before the gate of any later round, and nothing lies beyond `clock`.
   From `since` on the gate was that of `windows`; earlier rounds may have run under any
   other schedule, or under none.
   */
  ghost predicate Timed(rounds: seq<Round>, gates: seq<int>, windows: seq<Window>, since: int, clock: int) {
    && |gates| == |rounds|
    && (forall i | 0 <= i < |gates| :: gates[i] <= clock && (gates[i] >= since ==> EngineShouldRun(windows, gates[i])))
    && (forall i | 0 <= i < |rounds| :: rounds[i].end.Some? ==> gates[i] <= rounds[i].end.value <= clock)
    && (forall i, j | 0 <= i < j < |rounds| :: rounds[i].end.Some? ==> rounds[i].end.value <= gates[j])
  }

  /** `round_end <= freeze` rejects the round. */
  predicate Hidden(r: Round, freeze: int) { r.end.Some? && r.end.value > freeze }

  /** A gap at `now` that the schedule in force since `since` explains. */
  predicate GapSince(windows: seq<Window>, since: int, now: int) {
    WindowDerivedFreeze(windows, now).Some? && since <= WindowDerivedFreeze(windows, now).value
  }

  function FreezeOf(windows: seq<Window>, now: int): int
    requires WindowDerivedFreeze(windows, now).Some?
  {
    WindowDerivedFreeze(windows, now).value
  }

  /** A hidden round was let through the gate before the freeze instant ... */
  lemma HiddenRoundsStartedEarlier(rounds: seq<Round>, gates: seq<int>, windows: seq<Window>, since: int, clock: int,
                                   now: int, i: nat)
    requires Timed(rounds, gates, windows, since, clock) && clock <= now && GapSince(windows, since, now)
    requires i < |rounds| && Hidden(rounds[i], FreezeOf(windows, now))
    ensures gates[i] < FreezeOf(windows, now)
  {
    if gates[i] >= FreezeOf(windows, now) {
      NothingOpenSinceFreeze(windows, now, gates[i]);
    }
  }

  /** ... so the frozen board never hides more than one closed round. */
  lemma AtMostOneHiddenRound(rounds: seq<Round>, gates: seq<int>, windows: seq<Window>, since: int, clock: int,
                             now: int, i: nat, j: nat)
    requires Timed(rounds, gates, windows, since, clock) && clock <= now && GapSince(windows, since, now)
    requires i < |rounds| && j < |rounds|
    requires Hidden(rounds[i], FreezeOf(windows, now)) && Hidden(rounds[j], FreezeOf(windows, now))
    ensures i == j
  {
    HiddenRoundsStartedEarlier(rounds, gates, windows, since, clock, now, i);
    HiddenRoundsStartedEarlier(rounds, gates, windows, since, clock, now, j);
  }

  lemma TimedAppend(rounds: seq<Round>, gates: seq<int>, windows: seq<Window>, since: int, clock: int,
                    r: Round, gate: int, later: int)
    requires Timed(rounds, gates, windows, since, clock) && clock <= gate <= later
    requires gate >= since ==> EngineShouldRun(windows, gate)
    requires r.end.Some? ==> gate <= r.end.value <= later
    ensures Timed(rounds + [r], gates + [gate], windows, since, later)
  {
  }

  lemma TimedPrefix(rounds: seq<Round>, gates: seq<int>, windows: seq<Window>, since: int, clock: int, k: nat,
                    later: int)
    requires Timed(rounds, gates, windows, since, clock) && k <= |rounds| && clock <= later
    ensures Timed(rounds[..k], gates[..k], windows, since, later)
  {
  }
}
