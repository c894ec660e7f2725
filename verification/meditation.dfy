/**
 * The guided-meditation player: the session registry, the one-second timer
 * with its play/pause toggle, stop and restart controls, and the `m:ss`
 * clock display.
 */
module Meditation {
  import opened Wrappers
  import Text

  // ---------------------------------------------------------------------------
  // Session registry
  // ---------------------------------------------------------------------------

  /** Length in seconds of every session the player knows, by route id. */
  const Durations: map<string, nat> :=
    map["mindfulness-5" := 300, "stress-relief-10" := 600, "box-breathing" := 300]

  /** The `sessionData[type]` lookup: absent ids yield `None` (JavaScript's `undefined`). */
  function LookupSession(id: string): (r: Option<nat>)
    ensures r.Some? <==> id in {"mindfulness-5", "stress-relief-10", "box-breathing"}
    ensures r.Some? ==> r.value > 0
  {
    if id in Durations then Some(Durations[id]) else None
  }

  // ---------------------------------------------------------------------------
  // Timer state
  // ---------------------------------------------------------------------------

  datatype Timer = Timer(currentTime: nat, isPlaying: bool, sessionComplete: bool, duration: nat)

  /** The invariant every reachable timer keeps: elapsed time stays within the
      session, and the session is complete exactly when all of it has elapsed. */
  predicate Valid(t: Timer) {
    && t.duration > 0
    && t.currentTime <= t.duration
    && (t.sessionComplete <==> t.currentTime == t.duration)
  }

  /** The state a freshly opened session starts in. */
  function Initial(duration: nat): (t: Timer)
    ensures duration > 0 ==> Valid(t)
    ensures t.currentTime == 0 && !t.isPlaying && !t.sessionComplete
    ensures t.duration == duration
  {
    Timer(0, false, false, duration)
  }

  /** Seconds still to go; the big clock shows this value. It never exceeds
      the session, and it reaches zero exactly when the session is complete. */
  function Remaining(t: Timer): (r: nat)
    requires t.currentTime <= t.duration
    ensures r <= t.duration
    ensures Valid(t) ==> (r == 0 <==> t.sessionComplete)
  {
    t.duration - t.currentTime
  }

  /** Whether the effect installs a one-second interval in this state. */
  predicate TickScheduled(t: Timer) {
    t.isPlaying && t.currentTime < t.duration
  }

  /** Whether the next tick is the one that finishes the session (and shows the toast). */
  predicate CompletesOnTick(t: Timer) {
    TickScheduled(t) && t.currentTime + 1 >= t.duration
  }

  /** One firing of the one-second interval. When no interval is installed the
      event changes nothing. */
  function Tick(t: Timer): (r: Timer)
    ensures Valid(t) ==> Valid(r)
    ensures r.duration == t.duration
    ensures t.currentTime <= r.currentTime <= t.currentTime + 1
    ensures r.currentTime != t.currentTime ==> t.isPlaying
    ensures Valid(t) && t.sessionComplete ==> r == t
    ensures !TickScheduled(t) ==> r == t
    ensures TickScheduled(t) && t.currentTime + 1 < t.duration ==> r == t.(currentTime := t.currentTime + 1)
    ensures CompletesOnTick(t) ==> r.currentTime == r.duration && !r.isPlaying && r.sessionComplete
  {
    if !TickScheduled(t) then t
    else if t.currentTime + 1 >= t.duration then
      t.(currentTime := t.duration, isPlaying := false, sessionComplete := true)
    else
      t.(currentTime := t.currentTime + 1)
  }

  /** The completion toast fires on a tick exactly when that tick turns an
      unfinished session into a finished one. */
  lemma CompletionNotifiedOnTransition(t: Timer)
    requires Valid(t)
    ensures CompletesOnTick(t) <==> !t.sessionComplete && Tick(t).sessionComplete
  {
  }

  /** The single play/pause button: a toggle, not an idempotent pause. */
  function PlayPause(t: Timer): (r: Timer)
    ensures r.isPlaying == !t.isPlaying
    ensures r.currentTime == t.currentTime && r.sessionComplete == t.sessionComplete
    ensures r.duration == t.duration
    ensures Valid(t) ==> Valid(r)
  {
    t.(isPlaying := !t.isPlaying)
  }

  lemma PlayPauseTwice(t: Timer)
    ensures PlayPause(PlayPause(t)) == t
  {
  }

  /** The stop button: from any state, back to the start, not playing. */
  function Stop(t: Timer): (r: Timer)
    ensures r == Initial(t.duration)
    ensures t.duration > 0 ==> Valid(r) && Remaining(r) == t.duration
  {
    t.(currentTime := 0, isPlaying := false, sessionComplete := false)
  }

  /** The restart button (also "Do Again"): from any state, back to the start
      and playing. */
  function Restart(t: Timer): (r: Timer)
    ensures r == Initial(t.duration).(isPlaying := true)
    ensures t.duration > 0 ==> Valid(r) && TickScheduled(r)
  {
    t.(currentTime := 0, sessionComplete := false, isPlaying := true)
  }

  // ---------------------------------------------------------------------------
  // Runs of events
  // ---------------------------------------------------------------------------

  datatype Event = TickEvent | PlayPauseEvent | StopEvent | RestartEvent

  function Step(t: Timer, e: Event): Timer {
    match e
    case TickEvent => Tick(t)
    case PlayPauseEvent => PlayPause(t)
    case StopEvent => Stop(t)
    case RestartEvent => Restart(t)
  }

  function Run(t: Timer, es: seq<Event>): Timer
    decreases |es|
  {
    if |es| == 0 then t else Run(Step(t, es[0]), es[1..])
  }

  /** How many times the completion toast fires along a run. */
  function Notifications(t: Timer, es: seq<Event>): nat
    decreases |es|
  {
    if |es| == 0 then 0
    else (if es[0] == TickEvent && CompletesOnTick(t) then 1 else 0) + Notifications(Step(t, es[0]), es[1..])
  }

  /** The big clock counts down one second per installed tick, and nothing
      else lowers it: play/pause keeps it, stop and restart refill it. */
  lemma RemainingCountsDown(t: Timer, e: Event)
    requires Valid(t)
    ensures Valid(Step(t, e))
    ensures e == TickEvent && TickScheduled(t) ==> Remaining(Step(t, e)) + 1 == Remaining(t)
    ensures Remaining(Step(t, e)) < Remaining(t) ==> e == TickEvent && TickScheduled(t)
    ensures e == StopEvent || e == RestartEvent ==> Remaining(Step(t, e)) == t.duration
  {
  }

  /** Every sequence of user and clock events keeps the timer invariant. */
  lemma {:induction false} RunPreservesValid(t: Timer, es: seq<Event>)
    requires Valid(t)
    ensures Valid(Run(t, es))
    ensures Run(t, es).duration == t.duration
    decreases |es|
  {
    if |es| > 0 {
      RunPreservesValid(Step(t, es[0]), es[1..]);
    }
  }

  /** Without a stop or a restart the session completes, and is announced, at
      most once; a session already complete is never announced again. */
  lemma {:induction false} NotifiedAtMostOnce(t: Timer, es: seq<Event>)
    requires Valid(t)
    requires forall i :: 0 <= i < |es| ==> es[i] == TickEvent || es[i] == PlayPauseEvent
    ensures Notifications(t, es) <= if t.sessionComplete then 0 else 1
    decreases |es|
  {
    if |es| > 0 {
      var t' := Step(t, es[0]);
      NotifiedAtMostOnce(t', es[1..]);
      if es[0] == TickEvent && CompletesOnTick(t) {
        assert t'.sessionComplete;
      }
    }
  }

  /** `n` consecutive clock ticks. */
  function TickN(t: Timer, n: nat): Timer
    decreases n
  {
    if n == 0 then t else TickN(Tick(t), n - 1)
  }

  /** While playing, each tick adds one second until the last one completes
      the session: exactly `Remaining(t)` ticks finish it. */
  lemma {:induction false} TicksWhilePlaying(t: Timer, n: nat)
    requires Valid(t) && t.isPlaying && !t.sessionComplete
    requires n <= Remaining(t)
    ensures n < Remaining(t) ==> TickN(t, n) == t.(currentTime := t.currentTime + n)
    ensures n == Remaining(t) ==> TickN(t, n) == t.(currentTime := t.duration, isPlaying := false, sessionComplete := true)
    decreases n
  {
    if n > 0 {
      if t.currentTime + 1 < t.duration {
        TicksWhilePlaying(Tick(t), n - 1);
      } else {
        assert TickN(t, n) == TickN(Tick(t), 0);
      }
    }
  }

  /** A fresh session started with play completes after exactly `duration` ticks. */
  lemma FullSessionCompletes(duration: nat)
    requires duration > 0
    ensures TickN(PlayPause(Initial(duration)), duration) == Timer(duration, false, true, duration)
  {
    TicksWhilePlaying(PlayPause(Initial(duration)), duration);
  }

  /** Ticks delivered while paused, or after completion, change nothing. */
  lemma {:induction false} TicksWhileIdle(t: Timer, n: nat)
    requires !TickScheduled(t)
    ensures TickN(t, n) == t
    decreases n
  {
    if n > 0 {
      TicksWhileIdle(Tick(t), n - 1);
    }
  }

  // ---------------------------------------------------------------------------
  // Clock display
  // ---------------------------------------------------------------------------

  /** `a:b`, with both halves recoverable from the result. */
  function JoinClock(mins: string, secs: string): (r: string)
    ensures |r| == |mins| + 1 + |secs|
    ensures r[..|mins|] == mins && r[|mins|] == ':' && r[|mins| + 1..] == secs
  {
    mins + ":" + secs
  }

  /** The seconds field: `seconds % 60` padded to two digits. */
  function SecondsField(seconds: nat): (r: string)
    ensures |r| == 2 && Text.AllDigits(r)
  {
    Text.PadStart(Text.NatToString(seconds % 60), 2, '0')
  }

  /** `formatTime`: whole minutes, a colon, then the seconds padded to two digits. */
  function FormatTime(seconds: nat): (r: string)
    ensures |r| >= 4 && r[|r| - 3] == ':'
    ensures Text.AllDigits(r[..|r| - 3]) && Text.AllDigits(r[|r| - 2..])
  {
    JoinClock(Text.NatToString(seconds / 60), SecondsField(seconds))
  }

  /** Reads an `m:ss` display back into seconds; `None` when it is not one. */
  function ParseTime(s: string): Option<nat> {
    if |s| >= 4 && s[|s| - 3] == ':' && Text.AllDigits(s[..|s| - 3]) && Text.AllDigits(s[|s| - 2..]) then
      var secs := Text.ParseDigits(s[|s| - 2..]);
      if secs < 60 then Some(60 * Text.ParseDigits(s[..|s| - 3]) + secs) else None
    else None
  }

  /** Reading a joined clock recovers the value of its two fields. */
  lemma ParseClock(mins: string, secs: string, q: nat, m: nat)
    requires |mins| >= 1 && Text.AllDigits(mins) && Text.ParseDigits(mins) == q
    requires |secs| == 2 && Text.AllDigits(secs) && Text.ParseDigits(secs) == m && m < 60
    ensures ParseTime(JoinClock(mins, secs)) == Some(60 * q + m)
  {
    var r := JoinClock(mins, secs);
    assert r[..|r| - 3] == mins;
    assert r[|r| - 2..] == secs;
  }

  /** The clock built from `q` minutes and `m < 60` seconds reads back as `60 * q + m`. */
  lemma ParseClockOf(q: nat, m: nat)
    requires m < 60
    ensures ParseTime(JoinClock(Text.NatToString(q), Text.PadStart(Text.NatToString(m), 2, '0'))) == Some(60 * q + m)
  {
    Text.ParseNatToString(q);
    Text.ParsePadded(m, 2);
    ParseClock(Text.NatToString(q), Text.PadStart(Text.NatToString(m), 2, '0'), q, m);
  }

  lemma DivMod60(seconds: nat)
    ensures seconds == 60 * (seconds / 60) + seconds % 60 && seconds % 60 < 60
  {
  }

  lemma ParseClockOfSeconds(seconds: nat)
    ensures ParseTime(JoinClock(Text.NatToString(seconds / 60), Text.PadStart(Text.NatToString(seconds % 60), 2, '0'))) == Some(seconds)
  {
    DivMod60(seconds);
    ParseClockOf(seconds / 60, seconds % 60);
  }

  /** The display is faithful: the minutes field is `seconds / 60`, the two-digit
      seconds field is `seconds % 60`, so reading it back gives `seconds`. */
  lemma FormatTimeRoundTrip(seconds: nat)
    ensures ParseTime(FormatTime(seconds)) == Some(seconds)
  {
    assert FormatTime(seconds) == JoinClock(Text.NatToString(seconds / 60), Text.PadStart(Text.NatToString(seconds % 60), 2, '0'));
    ParseClockOfSeconds(seconds);
  }

  // ---------------------------------------------------------------------------
  // Opening a session
  // ---------------------------------------------------------------------------

  datatype Screen = NotFound | Player(id: string, timer: Timer) | Crashed

  /** The page as written: the progress computation dereferences the looked-up
      session before the "Session not found" guard runs, so an unknown id throws. */
  function OpenAsWritten(id: string): (s: Screen)
    ensures s.Crashed? <==> LookupSession(id).None?
    ensures s.Player? ==> Valid(s.timer) && s.timer == Initial(Durations[id])
  {
    match LookupSession(id)
    case None => Crashed
    case Some(d) => Player(id, Initial(d))
  }

  /** A breathing exercise the content page links to has no player entry. */
  lemma UnknownSessionCrashes()
    ensures OpenAsWritten("478-breathing") == Crashed
  {
  }

  /** The page with the guard evaluated first: unknown ids show "Session not found". */
  function Open(id: string): (s: Screen)
    ensures !s.Crashed?
    ensures s.NotFound? <==> id !in Durations
    ensures s.Player? ==> s.id == id && Valid(s.timer) && s.timer == Initial(Durations[id])
  {
    match LookupSession(id)
    case None => NotFound
    case Some(d) => Player(id, Initial(d))
  }
}
