/**
  The keystroke capture hook of hooks/useKeystrokeLogger.ts: a map from
  physical key code to the time it was pressed, and an append-only log of
  completed keystrokes with their dwell time. The class `Logger` holds the
  two pieces of state the hook keeps and updates them in place; `Step` and
  `Run` describe the same transitions on values, so that properties of whole
  event sequences can be stated and proved as lemmas.
  The browser clock (performance.now()) is the `now` parameter of each handler.
*/
module KeystrokeLogger {

  /** One completed key press (the `KeystrokeData` interface). */
  datatype KeystrokeData = KeystrokeData(
    key: string,        // the character, e.g. "a" or "Enter"
    code: string,       // the physical key, e.g. "KeyA"
    downTime: real,
    upTime: real,
    dwellTime: real)

  /** The hook's state: the held keys and the completed log. */
  datatype LoggerState = LoggerState(activeKeys: map<string, real>, log: seq<KeystrokeData>)

  /** The three things that change the state: the two key handlers and `clearLog`. */
  datatype Event =
    | KeyDown(code: string, now: real)
    | KeyUp(key: string, code: string, now: real)
    | ClearLog

  /**
    `if (startTime)` after `activeKeys.get(code)`: the code has a recorded
    start time and that time is truthy, i.e. not 0.
  */
  predicate HasStart(activeKeys: map<string, real>, code: string) {
    code in activeKeys && activeKeys[code] != 0.0
  }

  /** The record a successful key-up appends. */
  function Completed(key: string, code: string, start: real, now: real): KeystrokeData
  {
    KeystrokeData(key, code, start, now, now - start)
  }

  /**
    The effect of one event on the hook's state. Apart from clearLog the log
    only gains at most one record at its end; a key-down adds only its own
    code, a key-up never adds one, and a held code never changes its start time.
  */
  function Step(s: LoggerState, e: Event): (r: LoggerState)
    ensures !e.ClearLog? ==> |s.log| <= |r.log| <= |s.log| + 1 && r.log[..|s.log|] == s.log
    ensures e.KeyDown? ==> r.activeKeys.Keys == s.activeKeys.Keys + {e.code}
    ensures e.KeyUp? ==> r.activeKeys.Keys <= s.activeKeys.Keys
    ensures forall c :: c in s.activeKeys && c in r.activeKeys ==> r.activeKeys[c] == s.activeKeys[c]
  {
    match e
    case KeyDown(code, now) =>
      if code in s.activeKeys then s else s.(activeKeys := s.activeKeys[code := now])
    case KeyUp(key, code, now) =>
      if HasStart(s.activeKeys, code) then
        LoggerState(s.activeKeys - {code}, s.log + [Completed(key, code, s.activeKeys[code], now)])
      else s
    case ClearLog =>
      s.(log := [])
  }

  /**
    The state after a sequence of events, handled one after the other.
    Without clearLog no record is ever lost: the old log stays a prefix.
  */
  function Run(s: LoggerState, events: seq<Event>): (r: LoggerState)
    ensures NoClear(events) ==> |s.log| <= |r.log| && r.log[..|s.log|] == s.log
    decreases |events|
  {
    if events == [] then s else Run(Step(s, events[0]), events[1..])
  }

  /** The hook as an object whose two fields are updated in place. */
  class Logger {
    var activeKeys: map<string, real>
    var keystrokeLog: seq<KeystrokeData>

    function State(): LoggerState
      reads this
    {
      LoggerState(activeKeys, keystrokeLog)
    }

    constructor ()
      ensures activeKeys == map[] && keystrokeLog == []
    {
      activeKeys := map[];
      keystrokeLog := [];
    }

    /** handleKeyDown: a held code keeps its original start time. */
    method HandleKeyDown(code: string, now: real)
      modifies this
      ensures code in old(activeKeys) ==> activeKeys == old(activeKeys)
      ensures code !in old(activeKeys) ==> activeKeys == old(activeKeys)[code := now]
      ensures keystrokeLog == old(keystrokeLog)
      ensures State() == Step(old(State()), KeyDown(code, now))
    {
      if code in activeKeys {
        return;
      }
      activeKeys := activeKeys[code := now];
    }

    /** handleKeyUp: a code with a truthy start time is logged and released. */
    method HandleKeyUp(key: string, code: string, now: real)
      modifies this
      ensures HasStart(old(activeKeys), code) ==>
        && keystrokeLog == old(keystrokeLog) + [Completed(key, code, old(activeKeys)[code], now)]
        && activeKeys == old(activeKeys) - {code}
      ensures !HasStart(old(activeKeys), code) ==>
        activeKeys == old(activeKeys) && keystrokeLog == old(keystrokeLog)
      ensures State() == Step(old(State()), KeyUp(key, code, now))
    {
      if code in activeKeys {
        var startTime := activeKeys[code];
        if startTime != 0.0 {
          var endTime := now;
          var dwell := endTime - startTime;
          var newEntry := KeystrokeData(key, code, startTime, endTime, dwell);
          keystrokeLog := keystrokeLog + [newEntry];
          activeKeys := activeKeys - {code};
        }
      }
    }

    /** clearLog: empties the log; held keys stay held. */
    method ClearLog()
      modifies this
      ensures keystrokeLog == []
      ensures activeKeys == old(activeKeys)
      ensures State() == Step(old(State()), Event.ClearLog)
    {
      keystrokeLog := [];
    }
  }

  // ---------------------------------------------------------------------
  // Single-event properties

  /** A key-down on a held code changes nothing: neither its start time nor the log. */
  lemma KeyDownWhileHeld(s: LoggerState, code: string, now: real)
    requires code in s.activeKeys
    ensures Step(s, KeyDown(code, now)) == s
  {
  }

  /** A key-down on a free code records exactly that code, at that time. */
  lemma KeyDownRecords(s: LoggerState, code: string, now: real)
    requires code !in s.activeKeys
    ensures var t := Step(s, KeyDown(code, now));
      && t.activeKeys.Keys == s.activeKeys.Keys + {code}
      && t.activeKeys[code] == now
      && (forall c :: c in s.activeKeys ==> t.activeKeys[c] == s.activeKeys[c])
      && t.log == s.log
  {
  }

  /** A key-up without a truthy start time changes nothing; a start time of 0 stays held. */
  lemma KeyUpWithoutStart(s: LoggerState, key: string, code: string, now: real)
    requires !HasStart(s.activeKeys, code)
    ensures Step(s, KeyUp(key, code, now)) == s
  {
  }

  /**
    A key-up on a held code appends exactly one record at the end, keeps the
    earlier records, releases that code and keeps every other held code.
  */
  lemma KeyUpCompletes(s: LoggerState, key: string, code: string, now: real)
    requires HasStart(s.activeKeys, code)
    ensures var t := Step(s, KeyUp(key, code, now));
      && |t.log| == |s.log| + 1
      && t.log[..|s.log|] == s.log
      && t.log[|s.log|] == KeystrokeData(key, code, s.activeKeys[code], now, now - s.activeKeys[code])
      && code !in t.activeKeys
      && t.activeKeys.Keys == s.activeKeys.Keys - {code}
      && (forall c :: c in t.activeKeys ==> t.activeKeys[c] == s.activeKeys[c])
  {
  }

  /** clearLog empties the log and leaves the held keys alone. */
  lemma ClearLogKeepsHeld(s: LoggerState)
    ensures Step(s, ClearLog) == LoggerState(s.activeKeys, [])
  {
  }

  // ---------------------------------------------------------------------
  // Properties of event sequences

  /** Handling `a` and then `b` is handling `a + b`. */
  lemma {:induction false} RunAppend(s: LoggerState, a: seq<Event>, b: seq<Event>)
    ensures Run(s, a + b) == Run(Run(s, a), b)
    decreases |a|
  {
    if a == [] {
      assert a + b == b;
    } else {
      assert (a + b)[0] == a[0];
      assert (a + b)[1..] == a[1..] + b;
      RunAppend(Step(s, a[0]), a[1..], b);
    }
  }

  predicate NoClear(events: seq<Event>) {
    forall i :: 0 <= i < |events| ==> !events[i].ClearLog?
  }

  /** A key-up that finds a truthy start time for its code. */
  predicate Completes(s: LoggerState, e: Event) {
    e.KeyUp? && HasStart(s.activeKeys, e.code)
  }

  /** How many events of the sequence are successful key-ups, each judged in the state it meets. */
  function CompletedCount(s: LoggerState, events: seq<Event>): nat
    decreases |events|
  {
    if events == [] then 0
    else (if Completes(s, events[0]) then 1 else 0) + CompletedCount(Step(s, events[0]), events[1..])
  }

  /** Without clearLog the log only grows at its end, by one record per successful key-up. */
  lemma {:induction false} LogGrowsByCompletions(s: LoggerState, events: seq<Event>)
    requires NoClear(events)
    ensures |Run(s, events).log| == |s.log| + CompletedCount(s, events)
    ensures Run(s, events).log[..|s.log|] == s.log
    decreases |events|
  {
    if events != [] {
      var t := Step(s, events[0]);
      assert |t.log| == |s.log| + (if Completes(s, events[0]) then 1 else 0);
      assert t.log[..|s.log|] == s.log;
      LogGrowsByCompletions(t, events[1..]);
      var r := Run(t, events[1..]);
      assert r.log[..|s.log|] == r.log[..|t.log|][..|s.log|];
    }
  }

  /** After the last clearLog, the log holds one record per successful key-up since then. */
  lemma LogCountsSinceLastClear(s: LoggerState, before: seq<Event>, after: seq<Event>)
    requires NoClear(after)
    ensures var cleared := Run(s, before + [ClearLog]);
      && cleared.log == []
      && cleared.activeKeys == Run(s, before).activeKeys
      && |Run(s, before + [ClearLog] + after).log| == CompletedCount(cleared, after)
  {
    RunAppend(s, before, [ClearLog]);
    RunAppend(s, before + [ClearLog], after);
    LogGrowsByCompletions(Run(s, before + [ClearLog]), after);
  }

  /** A code whose start time is 0 can never be released nor re-pressed. */
  lemma {:induction false} ZeroStartStaysHeld(s: LoggerState, events: seq<Event>, code: string)
    requires code in s.activeKeys && s.activeKeys[code] == 0.0
    ensures code in Run(s, events).activeKeys && Run(s, events).activeKeys[code] == 0.0
    decreases |events|
  {
    if events != [] {
      ZeroStartStaysHeld(Step(s, events[0]), events[1..], code);
    }
  }

  /** The timestamp an event carries; clearLog carries none and keeps `t`. */
  function TimeOf(e: Event, t: real): real {
    match e
    case KeyDown(_, now) => now
    case KeyUp(_, _, now) => now
    case ClearLog => t
  }

  /** The event timestamps never go back in time, starting from `t`. */
  predicate MonotoneFrom(t: real, events: seq<Event>)
    decreases |events|
  {
    events == [] || (t <= TimeOf(events[0], t) && MonotoneFrom(TimeOf(events[0], t), events[1..]))
  }

  predicate StartsNoLaterThan(activeKeys: map<string, real>, t: real) {
    forall c :: c in activeKeys ==> activeKeys[c] <= t
  }

  predicate DwellsNonNegative(log: seq<KeystrokeData>) {
    forall i :: 0 <= i < |log| ==> log[i].dwellTime >= 0.0
  }

  /** With a clock that never goes back, every logged dwell time is non-negative. */
  lemma {:induction false} DwellNonNegative(s: LoggerState, t: real, events: seq<Event>)
    requires StartsNoLaterThan(s.activeKeys, t)
    requires DwellsNonNegative(s.log)
    requires MonotoneFrom(t, events)
    ensures DwellsNonNegative(Run(s, events).log)
    decreases |events|
  {
    if events != [] {
      var t' := TimeOf(events[0], t);
      var next := Step(s, events[0]);
      assert StartsNoLaterThan(next.activeKeys, t');
      assert DwellsNonNegative(next.log);
      DwellNonNegative(next, t', events[1..]);
    }
  }

  /** From the empty state the hook starts in, a monotone clock gives non-negative dwell times. */
  lemma FreshLoggerDwellNonNegative(t: real, events: seq<Event>)
    requires MonotoneFrom(t, events)
    ensures DwellsNonNegative(Run(LoggerState(map[], []), events).log)
  {
    DwellNonNegative(LoggerState(map[], []), t, events);
  }
}
