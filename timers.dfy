/**
 * The event-timer registry (mTrackTimer): a map from event name to a timer
 * with a start instant, an accumulated duration and a paused flag, and the
 * sweeps the host's foreground and background transitions run over it.
 */
module Timers {
  import opened Wrappers
  import opened Names

  /** One EventTimer. Instants and durations are milliseconds on the elapsed-time clock. */
  datatype Timer = Timer(start: int, accumulated: int, paused: bool)

  type Registry = map<string, Timer>

  /** The timer registered under `name`, if any (mTrackTimer.get). */
  function TimerFor(m: Registry, name: string): (r: Option<Timer>)
    ensures r.Some? <==> name in m
    ensures r.Some? ==> r.value == m[name]
  {
    if name in m then Some(m[name]) else None
  }

  /**
   * The foreground sweep (appBecomeActive): every timer's clock restarts at
   * `now`; accumulated durations, paused flags and the set of names stay.
   */
  function Foreground(m: Registry, now: int): (r: Registry)
    ensures r.Keys == m.Keys
    ensures forall k :: k in r ==>
      r[k].start == now && r[k].accumulated == m[k].accumulated && r[k].paused == m[k].paused
  {
    map k | k in m :: m[k].(start := now)
  }

  /** Whether the background sweep adds elapsed time to the timer under `name`. */
  predicate SweptInBackground(name: string, t: Timer) {
    name != AppEnd && !t.paused
  }

  /** The new value of one timer under the background sweep. */
  function BackgroundTimer(name: string, t: Timer, now: int, gap: int): (r: Timer)
    ensures !SweptInBackground(name, t) ==> r == t
    ensures SweptInBackground(name, t) ==>
      !r.paused && r.start == now && r.accumulated == t.accumulated + (now - t.start - gap)
  {
    if SweptInBackground(name, t) then Timer(now, t.accumulated + now - t.start - gap, false) else t
  }

  /**
   * The background sweep (appEnterBackground): every running timer other
   * than the one for $AppEnd adds `now - start - gap` to its accumulated
   * duration and restarts its clock at `now`; `gap` is the session interval.
   */
  function Background(m: Registry, now: int, gap: int): (r: Registry)
    ensures r.Keys == m.Keys
    ensures forall k :: k in m && !SweptInBackground(k, m[k]) ==> r[k] == m[k]
    ensures forall k :: k in m && SweptInBackground(k, m[k]) ==>
      r[k] == Timer(now, m[k].accumulated + (now - m[k].start - gap), false)
  {
    map k | k in m :: BackgroundTimer(k, m[k], now, gap)
  }

  /**
   * EventTimer.setTimerState: the timer takes the requested paused flag and
   * its clock restarts at `now`; pausing first adds the time run since the
   * last start to the accumulated duration.
   */
  function SetState(t: Timer, pause: bool, now: int): (r: Timer)
    ensures r.paused == pause && r.start == now
    ensures pause ==> r.accumulated == t.accumulated + (now - t.start)
    ensures !pause ==> r.accumulated == t.accumulated
  {
    Timer(now, if pause then t.accumulated + now - t.start else t.accumulated, pause)
  }

  /**
   * Explicit pause or resume of the timer under `name` (trackTimerState):
   * the registry changes only when that timer exists and its paused flag
   * differs from the request.
   */
  function WithTimerState(m: Registry, name: string, pause: bool, now: int): (r: Registry)
    ensures name !in m || m[name].paused == pause ==> r == m
    ensures r.Keys == m.Keys
    ensures forall k :: k in m && k != name ==> r[k] == m[k]
    ensures name in m ==> r[name].paused == pause
    ensures name in m && m[name].paused != pause ==> r[name] == SetState(m[name], pause, now)
  {
    if name in m && m[name].paused != pause then m[name := SetState(m[name], pause, now)] else m
  }

  /** A repeated pause (or resume) request leaves the registry as the first one left it. */
  lemma TimerStateIdempotent(m: Registry, name: string, pause: bool, t1: int, t2: int)
    ensures WithTimerState(WithTimerState(m, name, pause, t1), name, pause, t2)
         == WithTimerState(m, name, pause, t1)
  {
  }

  /** Coming to the foreground twice is the same as coming once. */
  lemma ForegroundIdempotent(m: Registry, t1: int, t2: int)
    ensures Foreground(Foreground(m, t1), t2) == Foreground(m, t2)
  {
  }

  /**
   * A foreground stretch from `t1` to `t2` adds exactly `t2 - t1 - gap` to a
   * running timer (other than $AppEnd's), whatever it had accumulated before.
   */
  lemma SessionAccumulation(m: Registry, name: string, t1: int, t2: int, gap: int)
    requires name in m && SweptInBackground(name, m[name])
    ensures var r := Background(Foreground(m, t1), t2, gap);
      name in r && r[name].accumulated == m[name].accumulated + (t2 - t1 - gap)
      && r[name].start == t2 && !r[name].paused
  {
    var f := Foreground(m, t1);
    assert f[name] == m[name].(start := t1);
    assert SweptInBackground(name, f[name]);
  }

  /** The registry after one background sweep at each instant of `instants`, in order. */
  function Sweeps(m: Registry, instants: seq<int>, gap: int): (r: Registry)
    ensures r.Keys == m.Keys
    decreases |instants|
  {
    if instants == [] then m else Sweeps(Background(m, instants[0], gap), instants[1..], gap)
  }

  /** The background sweep never touches a paused timer, however often it runs. */
  lemma {:induction false} PausedTimerSurvivesSweeps(m: Registry, name: string, instants: seq<int>, gap: int)
    requires name in m && m[name].paused
    ensures Sweeps(m, instants, gap)[name] == m[name]
    decreases |instants|
  {
    if instants != [] {
      var b := Background(m, instants[0], gap);
      assert b[name] == m[name];
      PausedTimerSurvivesSweeps(b, name, instants[1..], gap);
    }
  }

  /**
   * A running timer (other than $AppEnd's) swept at each of `instants`
   * banks every stretch up to the last sweep, less one session interval per
   * sweep, and ends running with its clock at the last instant.
   */
  lemma {:induction false} RunningTimerSweeps(m: Registry, name: string, instants: seq<int>, gap: int)
    requires name in m && SweptInBackground(name, m[name]) && instants != []
    ensures var last := instants[|instants| - 1];
      Sweeps(m, instants, gap)[name]
      == Timer(last, m[name].accumulated + (last - m[name].start) - |instants| * gap, false)
    decreases |instants|
  {
    var b := Background(m, instants[0], gap);
    assert b[name] == Timer(instants[0], m[name].accumulated + (instants[0] - m[name].start - gap), false);
    assert Sweeps(m, instants, gap) == Sweeps(b, instants[1..], gap);
    var rest := instants[1..];
    if rest == [] {
      assert Sweeps(b, rest, gap) == b;
    } else {
      RunningTimerSweeps(b, name, rest, gap);
      assert rest[|rest| - 1] == instants[|instants| - 1];
      OneMoreInterval(|rest|, gap);
    }
  }

  /** One more sweep subtracts one more session interval. */
  lemma OneMoreInterval(n: nat, gap: int)
    ensures (n + 1) * gap == n * gap + gap
  {
  }

  /** Whether a track call for `name` strips a timer decoration (it ends in _SATimer and is longer than 45). */
  predicate HasTimerDecoration(name: string) {
    |name| > TimerDecorationLength
    && |name| >= |TimerSuffix| && name[|name| - |TimerSuffix|..] == TimerSuffix
  }

  /**
   * The event name a track call reports: a name ending in _SATimer that is
   * longer than 45 characters loses its last 45 characters; any other name
   * is kept.
   */
  function TrimTimerSuffix(name: string): (r: string)
    ensures HasTimerDecoration(name) ==>
      |r| == |name| - TimerDecorationLength && r == name[..|name| - TimerDecorationLength]
    ensures !HasTimerDecoration(name) ==> r == name
    ensures r <= name
  {
    if HasTimerDecoration(name) then name[..|name| - TimerDecorationLength] else name
  }

  /**
   * Round trip: a non-empty base name decorated with a 45-character suffix
   * ending in _SATimer is trimmed back to the base name.
   */
  lemma TrimRecoversBaseName(base: string, decoration: string)
    requires base != []
    requires |decoration| == TimerDecorationLength
    requires decoration[|decoration| - |TimerSuffix|..] == TimerSuffix
    ensures TrimTimerSuffix(base + decoration) == base
  {
    var name := base + decoration;
    assert name[|name| - |TimerSuffix|..] == decoration[|decoration| - |TimerSuffix|..];
    assert HasTimerDecoration(name);
    assert name[..|name| - TimerDecorationLength] == base;
  }
}
