/**
  The time accounting of the telemetry metadata provider. The navigation
  session keeps closed totals of time spent in the foreground, the
  background, portrait and landscape, and the instant each current interval
  began; `updateTimeState` adds the still-open interval to the bucket of the
  current state and derives whole-number percentages from the totals.

  Instants and durations are whole milliseconds. The current instant, the
  device orientation and the application state are parameters.
 */
module EventsMetadata {
  import opened Device

  /** The session's time accounting, as the navigation session hands it over. */
  datatype SessionState = SessionState(
    timeSpentInForeground: nat,
    timeSpentInBackground: nat,
    timeSpentInPortrait: nat,
    timeSpentInLandscape: nat,
    lastTimeInForeground: int,
    lastTimeInBackground: int,
    lastTimeInPortrait: int,
    lastTimeInLandscape: int)

  /** The totals and percentages one update arrives at. */
  datatype TimeSplit = TimeSplit(
    totalTimeInPortrait: nat,
    totalTimeInLandscape: nat,
    totalTimeInForeground: nat,
    totalTimeInBackground: nat,
    percentTimeInPortrait: int,
    percentTimeInForeground: int)

  /**
    The magnitude of the time between an earlier or later instant and now:
    the absolute value taken of `timeIntervalSinceNow`.
   */
  function Elapsed(since: int, now: int): (d: nat)
    ensures since <= now ==> since + d == now
    ensures now <= since ==> now + d == since
  {
    if since <= now then now - since else since - now
  }

  /**
    The share of `part` in `part + other` as a percentage truncated to a whole
    number, and 100 when there is no time at all.
   */
  function PercentOf(part: nat, other: nat): (r: int)
    ensures 0 <= r <= 100
    ensures part + other == 0 ==> r == 100
    ensures part + other > 0 ==> r * (part + other) <= part * 100 < (r + 1) * (part + other)
    ensures other == 0 ==> r == 100
    ensures part == 0 && other > 0 ==> r == 0
  {
    if part + other == 0 then 100
    else
      var r := (part * 100) / (part + other);
      DivBelow(part * 100, part + other, 100);
      r
  }

  /** `a / b` is at most `c` when `a` is at most `c * b`. */
  lemma DivBelow(a: nat, b: nat, c: nat)
    requires b > 0 && a <= c * b
    ensures a / b <= c
  {
  }

  /** Multiplying by a natural number keeps an order. */
  lemma MulLeft(x: int, y: int, k: nat)
    requires x <= y
    ensures x * k <= y * k
  {
  }

  /**
    The totals and percentages as of `now`. The open interval is added to
    portrait time when the device is upright, to landscape time when it is on
    its side, and to neither when it is flat or its orientation is unknown;
    it is added to foreground time when the application is active and to
    background time otherwise. The foreground percentage is computed from the
    portrait and landscape totals, exactly as the portrait percentage is.
   */
  function SplitAt(session: SessionState, orientation: Orientation, appState: ApplicationState, now: int)
    : (s: TimeSplit)
    ensures s.percentTimeInPortrait == PercentOf(s.totalTimeInPortrait, s.totalTimeInLandscape)
    ensures 0 <= s.percentTimeInPortrait <= 100
    ensures s.totalTimeInPortrait + s.totalTimeInLandscape == 0 ==> s.percentTimeInPortrait == 100
    ensures s.percentTimeInForeground == s.percentTimeInPortrait
    // only the bucket of the current orientation grows, by the open interval
    ensures s.totalTimeInPortrait == session.timeSpentInPortrait
              + (if orientation.IsPortrait() then Elapsed(session.lastTimeInPortrait, now) else 0)
    ensures s.totalTimeInLandscape == session.timeSpentInLandscape
              + (if orientation.IsLandscape() then Elapsed(session.lastTimeInLandscape, now) else 0)
    // exactly one of foreground and background grows, chosen by the activity state
    ensures appState == Active ==>
              s.totalTimeInForeground == session.timeSpentInForeground + Elapsed(session.lastTimeInForeground, now)
              && s.totalTimeInBackground == session.timeSpentInBackground
    ensures appState != Active ==>
              s.totalTimeInForeground == session.timeSpentInForeground
              && s.totalTimeInBackground == session.timeSpentInBackground + Elapsed(session.lastTimeInBackground, now)
  {
    var portrait := session.timeSpentInPortrait
      + (if orientation.IsPortrait() then Elapsed(session.lastTimeInPortrait, now) else 0);
    var landscape := session.timeSpentInLandscape
      + (if !orientation.IsPortrait() && orientation.IsLandscape() then Elapsed(session.lastTimeInLandscape, now) else 0);
    var active := appState == Active;
    var foreground := session.timeSpentInForeground
      + (if active then Elapsed(session.lastTimeInForeground, now) else 0);
    var background := session.timeSpentInBackground
      + (if active then 0 else Elapsed(session.lastTimeInBackground, now));
    TimeSplit(portrait, landscape, foreground, background,
              PercentOf(portrait, landscape), PercentOf(portrait, landscape))
  }

  /** More time for the part never lowers its percentage. */
  lemma PercentGrowsWithPart(part: nat, other: nat, extra: nat)
    ensures PercentOf(part, other) <= PercentOf(part + extra, other)
  {
    var r, r' := PercentOf(part, other), PercentOf(part + extra, other);
    if part + other > 0 {
      var t := part + other;
      // r also fits below the enlarged share: r * (t + extra) <= (part + extra) * 100
      assert r * t <= part * 100;
      MulLeft(r, 100, extra);
      assert r * (t + extra) == r * t + r * extra;
      assert r * (t + extra) <= (part + extra) * 100;
      if r > r' {
        MulLeft(r' + 1, r, t + extra);
        assert false;
      }
    }
  }

  /** More time for the other side never raises the percentage of the part. */
  lemma PercentShrinksWithOther(part: nat, other: nat, extra: nat)
    ensures PercentOf(part, other + extra) <= PercentOf(part, other)
  {
    var r, r' := PercentOf(part, other), PercentOf(part, other + extra);
    if part + other > 0 {
      var t := part + other;
      assert r' * (t + extra) == r' * t + r' * extra;
      MulLeft(0, r', extra);
      assert r' * t <= part * 100;
      if r' > r {
        MulLeft(r + 1, r', t);
        assert false;
      }
    }
  }

  /**
    While the device stays upright, a later update counts the whole extra
    time as portrait time and never reports a lower portrait percentage.
   */
  lemma PortraitShareGrowsWithTime(
    session: SessionState, orientation: Orientation, appState: ApplicationState, now: int, later: int)
    requires orientation.IsPortrait()
    requires session.lastTimeInPortrait <= now <= later
    ensures SplitAt(session, orientation, appState, later).totalTimeInPortrait
         == SplitAt(session, orientation, appState, now).totalTimeInPortrait + (later - now)
    ensures SplitAt(session, orientation, appState, later).percentTimeInPortrait
         >= SplitAt(session, orientation, appState, now).percentTimeInPortrait
  {
    var s := SplitAt(session, orientation, appState, now);
    PercentGrowsWithPart(s.totalTimeInPortrait, s.totalTimeInLandscape, later - now);
  }

  /**
    While the device stays on its side, a later update counts the whole extra
    time as landscape time and never reports a higher portrait percentage.
   */
  lemma LandscapeTimeLowersPortraitShare(
    session: SessionState, orientation: Orientation, appState: ApplicationState, now: int, later: int)
    requires orientation.IsLandscape()
    requires session.lastTimeInLandscape <= now <= later
    ensures SplitAt(session, orientation, appState, later).totalTimeInLandscape
         == SplitAt(session, orientation, appState, now).totalTimeInLandscape + (later - now)
    ensures SplitAt(session, orientation, appState, later).percentTimeInPortrait
         <= SplitAt(session, orientation, appState, now).percentTimeInPortrait
  {
    var s := SplitAt(session, orientation, appState, now);
    PercentShrinksWithOther(s.totalTimeInPortrait, s.totalTimeInLandscape, later - now);
  }

  /**
    A flat device, or one whose orientation is unknown, adds nothing to
    either orientation: the portrait percentage comes from the closed totals
    alone, whenever the update happens.
   */
  lemma FlatDeviceFreezesOrientation(
    session: SessionState, orientation: Orientation, appState: ApplicationState, now: int, later: int)
    requires orientation in {UnknownOrientation, FaceUp, FaceDown}
    ensures SplitAt(session, orientation, appState, now).percentTimeInPortrait
         == PercentOf(session.timeSpentInPortrait, session.timeSpentInLandscape)
    ensures SplitAt(session, orientation, appState, now).percentTimeInPortrait
         == SplitAt(session, orientation, appState, later).percentTimeInPortrait
  {
  }

  /**
    The foreground percentage does not depend on the application state at
    all: it is the portrait percentage under another name.
   */
  lemma ForegroundPercentIgnoresActivity(
    session: SessionState, orientation: Orientation, a: ApplicationState, b: ApplicationState, now: int)
    ensures SplitAt(session, orientation, a, now).percentTimeInForeground
         == SplitAt(session, orientation, b, now).percentTimeInForeground
  {
  }

  /**
    A session spent wholly in the background, with the application still in
    the background, reports 100 percent of its time in the foreground while
    the device has only been upright.
   */
  lemma BackgroundSessionReportsFullForeground()
    ensures var session := SessionState(0, 60_000, 60_000, 0, 0, 0, 0, 0);
            var s := SplitAt(session, Portrait, Background, 30_000);
            s.totalTimeInForeground == 0 && s.totalTimeInBackground == 90_000
            && s.percentTimeInForeground == 100
  {
  }

  /**
    One minute each way, then thirty seconds upright: 90 s portrait against
    60 s landscape, 60 percent portrait.
   */
  lemma SixtyPercentPortrait()
    ensures var session := SessionState(0, 0, 60_000, 60_000, 0, 0, 70_000, 0);
            var s := SplitAt(session, Portrait, Active, 100_000);
            s.totalTimeInPortrait == 90_000 && s.totalTimeInLandscape == 60_000
            && s.percentTimeInPortrait == 60
  {
  }

  /**
    The metadata provider's time-accounting state: the two percentages and
    the foreground and background totals of the last update.
   */
  class EventsMetadataProvider {
    var percentTimeInPortrait: int
    var percentTimeInForeground: int
    var totalTimeInForeground: nat
    var totalTimeInBackground: nat

    /** Both percentages agree and lie between 0 and 100. */
    ghost predicate Valid()
      reads this
    {
      0 <= percentTimeInPortrait <= 100 && percentTimeInForeground == percentTimeInPortrait
    }

    /** Before any update every percentage and total is zero. */
    constructor ()
      ensures Valid()
      ensures percentTimeInPortrait == 0 && percentTimeInForeground == 0
      ensures totalTimeInForeground == 0 && totalTimeInBackground == 0
    {
      percentTimeInPortrait := 0;
      percentTimeInForeground := 0;
      totalTimeInForeground := 0;
      totalTimeInBackground := 0;
    }

    /**
      Recomputes the state from a session snapshot as of `now`, for the given
      device orientation and application state.
     */
    method UpdateTimeState(session: SessionState, orientation: Orientation, appState: ApplicationState, now: int)
      modifies this
      ensures Valid()
      ensures var s := SplitAt(session, orientation, appState, now);
              && percentTimeInPortrait == s.percentTimeInPortrait
              && percentTimeInForeground == s.percentTimeInForeground
              && totalTimeInForeground == s.totalTimeInForeground
              && totalTimeInBackground == s.totalTimeInBackground
    {
      var totalTimeInPortrait := session.timeSpentInPortrait;
      var totalTimeInLandscape := session.timeSpentInLandscape;
      if orientation.IsPortrait() {
        totalTimeInPortrait := totalTimeInPortrait + Elapsed(session.lastTimeInPortrait, now);
      } else if orientation.IsLandscape() {
        totalTimeInLandscape := totalTimeInLandscape + Elapsed(session.lastTimeInLandscape, now);
      }
      percentTimeInPortrait := PercentOf(totalTimeInPortrait, totalTimeInLandscape);

      totalTimeInForeground := session.timeSpentInForeground;
      totalTimeInBackground := session.timeSpentInBackground;
      if appState == Active {
        totalTimeInForeground := totalTimeInForeground + Elapsed(session.lastTimeInForeground, now);
      } else {
        totalTimeInBackground := totalTimeInBackground + Elapsed(session.lastTimeInBackground, now);
      }
      percentTimeInForeground := PercentOf(totalTimeInPortrait, totalTimeInLandscape);
    }
  }
}
