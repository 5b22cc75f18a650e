/**
  The front end of the remote player. Property setters and commands come from a remote client and are
  deferred to tasks on the main loop; the media player calls back when its video buffer state changes,
  possibly in the middle of a command given to it.
 */
module FrontEnd {
  import opened Options

  // The video buffer states the code compares with, in the player's order.
  const HAVE_NOTHING := 0
  const HAVE_CURRENT_DATA := 2
  const HAVE_FUTURE_DATA := 3

  /** The events that speak of playing or standing still; `Loaded` marks the start of a load. */
  datatype Event = Loaded | Playing | Paused | Other

  /**
    A call the player makes back: its buffer state changed (`couldPlay`: it would play given enough data),
    or something else happened that only sends another event.
   */
  datatype Callback = Buffer(newState: int, couldPlay: bool) | Report

  datatype State = State(
    hasPlayer: bool,
    isPaused: bool,
    videoState: int,
    videoMax: int,
    seekTime: Option<real>,  // None is NaN
    pendingSeeks: nat,       // seek tasks waiting on the main loop
    events: seq<Event>)

  const INIT := State(false, true, HAVE_NOTHING, HAVE_NOTHING, None, 0, [])

  function Emit(s: State, e: Event): State { s.(events := s.events + [e]) }

  function StartPlaying(s: State): State { Emit(s.(isPaused := false), Playing) }

  function StandStill(s: State): State { Emit(s.(isPaused := true), Paused) }

  function WakeUp(s: State): State { if s.isPaused then StartPlaying(s) else s }

  // ---------------------------------------------------------------------------
  // Callbacks and tasks
  // ---------------------------------------------------------------------------

  function VideoStateChanged(s: State, c: Callback): State {
    if c.Report? then Emit(s, Other)
    else if c.newState == s.videoState then s
    else
      var before := s.videoState;
      var t := s.(videoState := c.newState, videoMax := if before > s.videoMax then before else s.videoMax);
      var buffering := t.videoMax >= HAVE_FUTURE_DATA && t.videoState < HAVE_FUTURE_DATA;
      var potentially := (buffering || t.videoState >= HAVE_FUTURE_DATA) && c.couldPlay;
      if potentially && c.newState >= HAVE_FUTURE_DATA && before <= HAVE_CURRENT_DATA then WakeUp(t)
      else if !t.isPaused && t.videoMax >= HAVE_FUTURE_DATA && HAVE_NOTHING < t.videoState < HAVE_FUTURE_DATA
      then StandStill(t)
      else t
  }

  /** The callbacks a player makes while a command runs in it. */
  function Callbacks(s: State, cs: seq<Callback>): State
    decreases |cs|
  {
    if cs == [] then s else Callbacks(VideoStateChanged(s, cs[0]), cs[1..])
  }

  /** A new player that has nothing yet. */
  function Unloaded(s: State): State {
    s.(hasPlayer := true, isPaused := true, videoState := HAVE_NOTHING, videoMax := HAVE_NOTHING)
  }

  function DoLoad(s: State, cs: seq<Callback>): State {
    Callbacks(Emit(Unloaded(s), Loaded), cs)
  }

  function DoPlay(s: State, canPlay: bool, playerPaused: bool, cs: seq<Callback>): State {
    if !s.hasPlayer || !canPlay || !(s.isPaused || playerPaused) then s
    else
      var t := Callbacks(s, cs);
      if t.videoState >= HAVE_FUTURE_DATA then StartPlaying(t) else t
  }

  function DoPause(s: State, pausedBefore: bool, pausedAfter: bool, cs: seq<Callback>): State {
    if !s.hasPlayer || pausedBefore then s
    else
      var t := Callbacks(s, cs);
      if pausedAfter then StandStill(t) else t
  }

  function DoStop(s: State, cs: seq<Callback>): State {
    if !s.hasPlayer then s else Callbacks(s, cs).(hasPlayer := false)
  }

  function DoChangeSpeed(s: State, cs: seq<Callback>): State {
    if !s.hasPlayer then s else Callbacks(WakeUp(s), cs)
  }

  function SetCurrentTime(s: State, t: Option<real>): State {
    s.(seekTime := t, pendingSeeks := s.pendingSeeks + 1)
  }

  /** A seek task: applies the latest value, if it is still there. Without a player the value stays. */
  function DoSeek(s: State, cs: seq<Callback>): State
    requires s.pendingSeeks > 0
  {
    var t := s.(pendingSeeks := s.pendingSeeks - 1);
    if !s.hasPlayer then t
    else if s.seekTime.None? then t
    else WakeUp(Callbacks(t.(seekTime := None), cs))
  }

  datatype Step =
    | Load(cs: seq<Callback>)
    | Play(canPlay: bool, playerPaused: bool, cs: seq<Callback>)
    | Pause(pausedBefore: bool, pausedAfter: bool, cs: seq<Callback>)
    | Stop(cs: seq<Callback>)
    | ChangeSpeed(cs: seq<Callback>)
    | SetTime(time: Option<real>)
    | Seek(cs: seq<Callback>)
    | VideoState(c: Callback)

  /** A seek task runs only if one is waiting; callbacks come only from an existing player. */
  function Next(s: State, step: Step): State {
    match step
    case Load(cs) => DoLoad(s, cs)
    case Play(canPlay, playerPaused, cs) => DoPlay(s, canPlay, playerPaused, cs)
    case Pause(before, after, cs) => DoPause(s, before, after, cs)
    case Stop(cs) => DoStop(s, cs)
    case ChangeSpeed(cs) => DoChangeSpeed(s, cs)
    case SetTime(time) => SetCurrentTime(s, time)
    case Seek(cs) => if s.pendingSeeks > 0 then DoSeek(s, cs) else s
    case VideoState(c) => if s.hasPlayer then VideoStateChanged(s, c) else s
  }

  function Run(s: State, steps: seq<Step>): State
    decreases |steps|
  {
    if steps == [] then s else Run(Next(s, steps[0]), steps[1..])
  }

  // ---------------------------------------------------------------------------
  // When the flag turns, and which events are sent
  // ---------------------------------------------------------------------------

  /** A paused player whose buffer fills up from current data or less, and that would play, starts. */
  predicate Starts(s: State, c: Callback) {
    c.Buffer? && s.isPaused && c.couldPlay && c.newState >= 3 && s.videoState <= 2
  }

  /** A player that has had future data and plays, and whose buffer runs low but not empty, stalls. */
  predicate Stalls(s: State, c: Callback) {
    && c.Buffer? && !s.isPaused && c.newState != s.videoState && 1 <= c.newState <= 2
    && (s.videoState >= 3 || s.videoMax >= 3)
  }

  /** Exactly what a callback does: the flag turns only to start or stall, each with its one event. */
  lemma CallbackMeans(s: State, c: Callback)
    ensures var t := VideoStateChanged(s, c);
            && t.isPaused == (if Starts(s, c) then false else if Stalls(s, c) then true else s.isPaused)
            && t.events == s.events + (if c.Report? then [Other] else if Starts(s, c) then [Playing]
                                       else if Stalls(s, c) then [Paused] else [])
            && t.videoState == (if c.Buffer? then c.newState else s.videoState)
            && t.videoMax == (if c.Buffer? && c.newState != s.videoState && s.videoState > s.videoMax
                              then s.videoState else s.videoMax)
            && t.hasPlayer == s.hasPlayer && t.seekTime == s.seekTime && t.pendingSeeks == s.pendingSeeks
  {
  }

  /** Callbacks happen one after the other. */
  lemma {:induction false} CallbacksAre(s: State, cs: seq<Callback>, c: Callback)
    ensures Callbacks(s, []) == s && Callbacks(s, cs + [c]) == VideoStateChanged(Callbacks(s, cs), c)
    decreases |cs|
  {
    if cs == [] {
      assert cs + [c] == [c] && [c][1..] == [];
      assert Callbacks(s, [c]) == Callbacks(VideoStateChanged(s, c), []);
    } else {
      assert (cs + [c])[1..] == cs[1..] + [c];
      CallbacksAre(VideoStateChanged(s, cs[0]), cs[1..], c);
    }
  }

  /** What was sent stays sent. */
  lemma {:induction false} CallbacksAppend(s: State, cs: seq<Callback>)
    ensures s.events <= Callbacks(s, cs).events
    decreases |cs|
  {
    if cs != [] {
      CallbackMeans(s, cs[0]);
      CallbacksAppend(VideoStateChanged(s, cs[0]), cs[1..]);
    }
  }

  // ---------------------------------------------------------------------------
  // The paused flag mirrors the events
  // ---------------------------------------------------------------------------

  /** Event `i` is the last one that says "playing", nothing after it says otherwise. */
  ghost predicate PlayingSince(events: seq<Event>, i: int) {
    0 <= i < |events| && events[i] == Playing && forall j | i < j < |events| :: events[j] == Other
  }

  ghost predicate LastSaysPlaying(events: seq<Event>) {
    exists i :: PlayingSince(events, i)
  }

  ghost predicate Mirrors(s: State) {
    !s.isPaused <==> LastSaysPlaying(s.events)
  }

  lemma EmitMirrors(s: State, e: Event)
    ensures e == Playing ==> LastSaysPlaying(Emit(s, e).events)
    ensures e == Paused || e == Loaded ==> !LastSaysPlaying(Emit(s, e).events)
  {
    var events := Emit(s, e).events;
    if e == Playing {
      assert PlayingSince(events, |events| - 1);
    } else if e != Other {
      forall i ensures !PlayingSince(events, i) {
        assert events[|events| - 1] == e;
      }
    }
  }

  lemma OtherMirrors(s: State)
    ensures LastSaysPlaying(Emit(s, Other).events) <==> LastSaysPlaying(s.events)
  {
    var events := Emit(s, Other).events;
    forall i ensures PlayingSince(events, i) <==> PlayingSince(s.events, i) {
      assert forall j | 0 <= j < |s.events| :: events[j] == s.events[j];
    }
  }

  lemma CallbackMirrors(s: State, c: Callback)
    requires Mirrors(s)
    ensures Mirrors(VideoStateChanged(s, c))
  {
    if c.Report? {
      OtherMirrors(s);
    } else {
      SwitchMirrors(
        s.(videoState := c.newState, videoMax := if s.videoState > s.videoMax then s.videoState else s.videoMax));
    }
  }

  lemma {:induction false} CallbacksMirror(s: State, cs: seq<Callback>)
    requires Mirrors(s)
    ensures Mirrors(Callbacks(s, cs))
    decreases |cs|
  {
    if cs != [] {
      CallbackMirrors(s, cs[0]);
      CallbacksMirror(VideoStateChanged(s, cs[0]), cs[1..]);
    }
  }

  lemma SwitchMirrors(s: State)
    ensures Mirrors(StartPlaying(s)) && Mirrors(StandStill(s)) && (Mirrors(s) ==> Mirrors(WakeUp(s)))
  {
    EmitMirrors(s.(isPaused := false), Playing);
    EmitMirrors(s.(isPaused := true), Paused);
  }

  lemma NextMirrors(s: State, step: Step)
    requires Mirrors(s)
    ensures Mirrors(Next(s, step))
  {
    match step
    case Load(cs) =>
      EmitMirrors(Unloaded(s), Loaded);
      CallbacksMirror(Emit(Unloaded(s), Loaded), cs);
    case Play(_, _, cs) =>
      CallbacksMirror(s, cs);
      SwitchMirrors(Callbacks(s, cs));
    case Pause(_, _, cs) =>
      CallbacksMirror(s, cs);
      SwitchMirrors(Callbacks(s, cs));
    case Stop(cs) => CallbacksMirror(s, cs);
    case ChangeSpeed(cs) =>
      SwitchMirrors(s);
      CallbacksMirror(WakeUp(s), cs);
    case Seek(cs) =>
      if s.pendingSeeks > 0 {
        var t := s.(pendingSeeks := s.pendingSeeks - 1, seekTime := None);
        CallbacksMirror(t, cs);
        SwitchMirrors(Callbacks(t, cs));
      }
    case VideoState(c) => CallbackMirrors(s, c);
    case _ =>
  }

  lemma {:induction false} RunMirrors(s: State, steps: seq<Step>)
    requires Mirrors(s)
    ensures Mirrors(Run(s, steps))
    decreases |steps|
  {
    if steps != [] {
      NextMirrors(s, steps[0]);
      RunMirrors(Next(s, steps[0]), steps[1..]);
    }
  }

  /** Over any run the flag is down exactly when the last play or pause event since the last load was "playing". */
  lemma PausedMirrorsEvents(steps: seq<Step>)
    ensures Mirrors(Run(INIT, steps))
  {
    RunMirrors(INIT, steps);
  }

  // ---------------------------------------------------------------------------
  // Deferred seeks coalesce
  // ---------------------------------------------------------------------------

  /** The record of a run: all values set, which were applied, and whether a player existed since the last set. */
  datatype Seeks = Seeks(sets: seq<Option<real>>, applied: seq<nat>, playerSince: bool)

  /** The value a step hands to the player, if it does. */
  function Applies(s: State, step: Step): Option<real> {
    if step.Seek? && s.pendingSeeks > 0 && s.hasPlayer then s.seekTime else None
  }

  function Record(r: Seeks, s: State, step: Step): Seeks {
    if step.SetTime? then r.(sets := r.sets + [step.time], playerSince := s.hasPlayer)
    else if step.Stop? then r.(playerSince := false)
    else if Applies(s, step).Some? && r.sets != [] then r.(applied := r.applied + [|r.sets| - 1])
    else r
  }

  function History(r: Seeks, s: State, steps: seq<Step>): Seeks
    decreases |steps|
  {
    if steps == [] then r else History(Record(r, s, steps[0]), Next(s, steps[0]), steps[1..])
  }

  const NO_SEEKS := Seeks([], [], false)

  /** The last set value has been handed to the player. */
  predicate LastApplied(r: Seeks) {
    r.applied != [] && r.applied[|r.applied| - 1] + 1 == |r.sets|
  }

  ghost predicate Coalesced(r: Seeks, s: State) {
    // a pending value is the most recently set one, and was not applied yet
    && (s.seekTime.Some? ==> r.sets != [] && s.seekTime == r.sets[|r.sets| - 1] && !LastApplied(r))
    // no value is applied twice, none out of order, none that is not a number
    && (forall i | 0 <= i < |r.applied| :: r.applied[i] < |r.sets| && r.sets[r.applied[i]].Some?)
    && (forall i, j | 0 <= i < j < |r.applied| :: r.applied[i] < r.applied[j])
    // a value set while a player stays loaded is applied or still has a task coming
    && (r.playerSince ==> s.hasPlayer && r.sets != [])
    && (r.playerSince && r.sets[|r.sets| - 1].Some? ==> LastApplied(r) || (s.seekTime.Some? && s.pendingSeeks > 0))
  }

  lemma CallbackKeepsSeeks(s: State, c: Callback)
    ensures var t := VideoStateChanged(s, c);
            t.seekTime == s.seekTime && t.pendingSeeks == s.pendingSeeks && t.hasPlayer == s.hasPlayer
  {
  }

  lemma {:induction false} CallbacksKeepSeeks(s: State, cs: seq<Callback>)
    ensures var t := Callbacks(s, cs);
            t.seekTime == s.seekTime && t.pendingSeeks == s.pendingSeeks && t.hasPlayer == s.hasPlayer
    decreases |cs|
  {
    if cs != [] {
      CallbackKeepsSeeks(s, cs[0]);
      CallbacksKeepSeeks(VideoStateChanged(s, cs[0]), cs[1..]);
    }
  }

  /** What each step does to the pending seek, whatever the player calls back. */
  lemma NextSeeks(s: State, step: Step)
    ensures var t := Next(s, step);
            && t.seekTime == (if step.SetTime? then step.time else if Applies(s, step).Some? then None else s.seekTime)
            && t.hasPlayer == (if step.Load? then true else if step.Stop? then false else s.hasPlayer)
            && t.pendingSeeks == (if step.SetTime? then s.pendingSeeks + 1
                                  else if step.Seek? && s.pendingSeeks > 0 then s.pendingSeeks - 1 else s.pendingSeeks)
  {
    match step
    case Load(cs) =>
      CallbacksKeepSeeks(Emit(Unloaded(s), Loaded), cs);
    case Play(_, _, cs) => CallbacksKeepSeeks(s, cs);
    case Pause(_, _, cs) => CallbacksKeepSeeks(s, cs);
    case Stop(cs) => CallbacksKeepSeeks(s, cs);
    case ChangeSpeed(cs) => CallbacksKeepSeeks(WakeUp(s), cs);
    case Seek(cs) =>
      if s.pendingSeeks > 0 {
        CallbacksKeepSeeks(s.(pendingSeeks := s.pendingSeeks - 1, seekTime := None), cs);
      }
    case VideoState(c) => CallbackKeepsSeeks(s, c);
    case _ =>
  }

  lemma NextCoalesced(r: Seeks, s: State, step: Step)
    requires Coalesced(r, s)
    ensures Coalesced(Record(r, s, step), Next(s, step))
  {
    NextSeeks(s, step);
  }

  lemma {:induction false} RunCoalesced(r: Seeks, s: State, steps: seq<Step>)
    requires Coalesced(r, s)
    ensures Coalesced(History(r, s, steps), Run(s, steps))
    decreases |steps|
  {
    if steps != [] {
      NextCoalesced(r, s, steps[0]);
      RunCoalesced(Record(r, s, steps[0]), Next(s, steps[0]), steps[1..]);
    }
  }

  /**
    Over any run: a seek handed to the player carries the most recently set value; every set value is
    applied at most once; and when no seek task is left, the last value (if a number) was applied
    provided a player existed ever since it was set.
   */
  lemma SeeksCoalesce(steps: seq<Step>, step: Step)
    ensures var r, s := History(NO_SEEKS, INIT, steps), Run(INIT, steps);
            && (Applies(s, step).Some? ==> r.sets != [] && Applies(s, step) == r.sets[|r.sets| - 1])
            && (forall i, j | 0 <= i < j < |r.applied| :: r.applied[i] < r.applied[j])
            && (r.playerSince && s.pendingSeeks == 0 ==>
                  r.sets != [] && (r.sets[|r.sets| - 1].Some? ==> LastApplied(r)))
  {
    RunCoalesced(NO_SEEKS, INIT, steps);
  }

  // ---------------------------------------------------------------------------
  // The front-end object
  // ---------------------------------------------------------------------------

  class RtPlayer {
    var hasPlayer: bool
    var isPaused: bool
    var videoState: int
    var videoStateMaximum: int
    var seekTime: Option<real>
    var pendingSeeks: nat
    ghost var events: seq<Event>
    ghost var seeks: Seeks

    ghost function View(): State
      reads this
    {
      State(hasPlayer, isPaused, videoState, videoStateMaximum, seekTime, pendingSeeks, events)
    }

    /** The flag says what the events say, and the pending seek is the latest one. */
    ghost predicate Valid()
      reads this
    {
      Mirrors(View()) && Coalesced(seeks, View())
    }

    constructor ()
      ensures View() == INIT && seeks == NO_SEEKS && Valid()
    {
      hasPlayer, isPaused, videoState, videoStateMaximum := false, true, HAVE_NOTHING, HAVE_NOTHING;
      seekTime, pendingSeeks, events, seeks := None, 0, [], NO_SEEKS;
    }

    /**
      Anything that can happen to the player. Both laws survive; a value handed on is the one set last, was not
      handed on before, and by the time no seek task is left the last value set with a player was handed on.
     */
    method Handle(step: Step) returns (applied: Option<real>)
      requires Valid()
      modifies this
      ensures Valid() && View() == Next(old(View()), step)
      ensures applied.Some? ==>
                && old(seeks.sets) != [] && applied == old(seeks.sets[|seeks.sets| - 1])
                && !old(LastApplied(seeks)) && LastApplied(seeks)
      ensures applied.None? ==> seeks.applied == old(seeks.applied)
      ensures pendingSeeks == 0 && seeks.playerSince && seeks.sets[|seeks.sets| - 1].Some? ==> LastApplied(seeks)
    {
      NextMirrors(View(), step);
      NextCoalesced(seeks, View(), step);
      ghost var record := Record(seeks, View(), step);
      applied := Dispatch(step);
      seeks := record;
    }

    method Dispatch(step: Step) returns (applied: Option<real>)
      modifies this
      ensures View() == Next(old(View()), step) && applied == Applies(old(View()), step)
      ensures seeks == old(seeks)
    {
      applied := None;
      match step
      case Load(cs) => OnLoad(cs);
      case Play(canPlay, playerPaused, cs) => OnPlay(canPlay, playerPaused, cs);
      case Pause(before, after, cs) => OnPause(before, after, cs);
      case Stop(cs) => OnStop(cs);
      case ChangeSpeed(cs) => OnChangeSpeed(cs);
      case SetTime(time) => OnSetCurrentTime(time);
      case Seek(cs) =>
        if pendingSeeks > 0 {
          applied := OnSeek(cs);
        }
      case VideoState(c) =>
        if hasPlayer {
          OnCallback(c);
        }
    }

    method OnCallback(c: Callback)
      modifies this`hasPlayer, this`isPaused, this`videoState, this`videoStateMaximum
      modifies this`seekTime, this`pendingSeeks, this`events
      ensures View() == VideoStateChanged(old(View()), c)
      ensures isPaused ==
              if Starts(old(View()), c) then false else if Stalls(old(View()), c) then true else old(isPaused)
      ensures events == old(events) + (if c.Report? then [Other] else if Starts(old(View()), c) then [Playing]
                                       else if Stalls(old(View()), c) then [Paused] else [])
      ensures old(Mirrors(View())) ==> Mirrors(View())
    {
      CallbackMeans(View(), c);
      if Mirrors(View()) {
        CallbackMirrors(View(), c);
      }
      if c.Report? {
        events := events + [Other];
        return;
      }
      var oldState := videoState;
      if c.newState == oldState {
        return;
      }
      videoState := c.newState;
      if oldState > videoStateMaximum {
        videoStateMaximum := oldState;
      }
      var pausedToBuffer := videoStateMaximum >= HAVE_FUTURE_DATA && videoState < HAVE_FUTURE_DATA;
      var potentiallyPlaying := (pausedToBuffer || videoState >= HAVE_FUTURE_DATA) && c.couldPlay;
      var isPlaying := false;
      if potentiallyPlaying {
        isPlaying := c.newState >= HAVE_FUTURE_DATA && oldState <= HAVE_CURRENT_DATA;
      }
      if isPlaying {
        if isPaused {
          isPaused := false;
          events := events + [Playing];
        }
      } else if !isPaused && videoStateMaximum >= HAVE_FUTURE_DATA && HAVE_NOTHING < videoState < HAVE_FUTURE_DATA {
        isPaused := true;
        events := events + [Paused];
      }
    }

    /** What the media player calls back while one of its commands runs. */
    method PlayerCalls(cs: seq<Callback>)
      modifies this`hasPlayer, this`isPaused, this`videoState, this`videoStateMaximum
      modifies this`seekTime, this`pendingSeeks, this`events
      ensures View() == Callbacks(old(View()), cs)
    {
      for i := 0 to |cs|
        invariant Callbacks(View(), cs[i..]) == Callbacks(old(View()), cs)
      {
        OnCallback(cs[i]);
        assert cs[i..][1..] == cs[i + 1..];
      }
    }

    method OnLoad(cs: seq<Callback>)
      modifies this`hasPlayer, this`isPaused, this`videoState, this`videoStateMaximum
      modifies this`seekTime, this`pendingSeeks, this`events
      ensures View() == DoLoad(old(View()), cs)
      // A new player, paused and with an empty buffer, and the mark of the load; then what it calls back.
      ensures hasPlayer && old(events) + [Loaded] <= events
      ensures cs == [] ==> isPaused && videoState == 0 && videoStateMaximum == 0 && events == old(events) + [Loaded]
      ensures old(Mirrors(View())) ==> Mirrors(View())
    {
      if Mirrors(View()) {
        NextMirrors(View(), Load(cs));
      }
      CallbacksAppend(Emit(Unloaded(View()), Loaded), cs);
      CallbacksKeepSeeks(Emit(Unloaded(View()), Loaded), cs);
      videoState, videoStateMaximum, isPaused := HAVE_NOTHING, HAVE_NOTHING, true;
      events := events + [Loaded];
      hasPlayer := true;
      PlayerCalls(cs);
    }

    method OnPlay(canPlay: bool, playerPaused: bool, cs: seq<Callback>)
      modifies this`hasPlayer, this`isPaused, this`videoState, this`videoStateMaximum
      modifies this`seekTime, this`pendingSeeks, this`events
      ensures View() == DoPlay(old(View()), canPlay, playerPaused, cs)
      // The player is told to play if it can and something stands still; with data enough that is reported.
      ensures old(hasPlayer) && canPlay && (old(isPaused) || playerPaused) ==>
                var called := Callbacks(old(View()), cs);
                if called.videoState >= 3
                then !isPaused && events == called.events + [Playing] && videoState == called.videoState
                else View() == called
      ensures !(old(hasPlayer) && canPlay && (old(isPaused) || playerPaused)) ==> View() == old(View())
      ensures old(Mirrors(View())) ==> Mirrors(View())
    {
      if Mirrors(View()) {
        NextMirrors(View(), Play(canPlay, playerPaused, cs));
      }
      if !hasPlayer || !canPlay {
        return;
      }
      if isPaused || playerPaused {
        PlayerCalls(cs);
        if videoState >= HAVE_FUTURE_DATA {
          isPaused := false;
          events := events + [Playing];
        }
      }
    }

    method OnPause(pausedBefore: bool, pausedAfter: bool, cs: seq<Callback>)
      modifies this`hasPlayer, this`isPaused, this`videoState, this`videoStateMaximum
      modifies this`seekTime, this`pendingSeeks, this`events
      ensures View() == DoPause(old(View()), pausedBefore, pausedAfter, cs)
      // The player is told to pause unless it stands still already; if it then does, that is reported.
      ensures old(hasPlayer) && !pausedBefore ==>
                var called := Callbacks(old(View()), cs);
                if pausedAfter then isPaused && events == called.events + [Paused] && videoState == called.videoState
                else View() == called
      ensures !(old(hasPlayer) && !pausedBefore) ==> View() == old(View())
      ensures old(Mirrors(View())) ==> Mirrors(View())
    {
      if Mirrors(View()) {
        NextMirrors(View(), Pause(pausedBefore, pausedAfter, cs));
      }
      if !hasPlayer {
        return;
      }
      if !pausedBefore {
        PlayerCalls(cs);
        if pausedAfter {
          isPaused := true;
          events := events + [Paused];
        }
      }
    }

    method OnStop(cs: seq<Callback>)
      modifies this`hasPlayer, this`isPaused, this`videoState, this`videoStateMaximum
      modifies this`seekTime, this`pendingSeeks, this`events
      ensures View() == DoStop(old(View()), cs)
      ensures !hasPlayer && old(events) <= events && (!old(hasPlayer) || cs == [] ==> events == old(events))
      ensures old(Mirrors(View())) ==> Mirrors(View())
    {
      if Mirrors(View()) {
        NextMirrors(View(), Stop(cs));
      }
      CallbacksAppend(View(), cs);
      if !hasPlayer {
        return;
      }
      PlayerCalls(cs);
      hasPlayer := false;
    }

    method OnChangeSpeed(cs: seq<Callback>)
      modifies this`hasPlayer, this`isPaused, this`videoState, this`videoStateMaximum
      modifies this`seekTime, this`pendingSeeks, this`events
      ensures View() == DoChangeSpeed(old(View()), cs)
      // A paused player is woken up, with one event, before the new speed is set.
      ensures !old(hasPlayer) ==> View() == old(View())
      ensures old(hasPlayer && isPaused) ==>
                old(events) + [Playing] <= events && (cs == [] ==> !isPaused && events == old(events) + [Playing])
      ensures old(hasPlayer && !isPaused) ==>
                old(events) <= events && (cs == [] ==> !isPaused && events == old(events))
      ensures old(Mirrors(View())) ==> Mirrors(View())
    {
      if Mirrors(View()) {
        NextMirrors(View(), ChangeSpeed(cs));
      }
      CallbacksAppend(WakeUp(View()), cs);
      if !hasPlayer {
        return;
      }
      if isPaused {
        isPaused := false;
        events := events + [Playing];
      }
      PlayerCalls(cs);
    }

    method OnSetCurrentTime(t: Option<real>)
      modifies this`hasPlayer, this`isPaused, this`videoState, this`videoStateMaximum
      modifies this`seekTime, this`pendingSeeks, this`events
      ensures View() == SetCurrentTime(old(View()), t)
    {
      seekTime := t;
      pendingSeeks := pendingSeeks + 1;
    }

    /** A seek task; `applied` is the value handed to the player, if any. */
    method OnSeek(cs: seq<Callback>) returns (applied: Option<real>)
      requires pendingSeeks > 0
      modifies this`hasPlayer, this`isPaused, this`videoState, this`videoStateMaximum
      modifies this`seekTime, this`pendingSeeks, this`events
      ensures View() == DoSeek(old(View()), cs) && applied == Applies(old(View()), Seek(cs))
      ensures applied == (if old(hasPlayer) then old(seekTime) else None) && pendingSeeks == old(pendingSeeks) - 1
      // A seek handed on takes the value away and wakes a player up that is still paused after it.
      ensures applied.None? ==> seekTime == old(seekTime) && isPaused == old(isPaused) && events == old(events)
      ensures applied.Some? ==>
                var called := Callbacks(old(View()).(seekTime := None, pendingSeeks := old(pendingSeeks) - 1), cs);
                seekTime == None && !isPaused && events == called.events + if called.isPaused then [Playing] else []
      ensures old(Mirrors(View())) ==> Mirrors(View())
    {
      if Mirrors(View()) {
        NextMirrors(View(), Seek(cs));
      }
      CallbacksKeepSeeks(View().(seekTime := None, pendingSeeks := pendingSeeks - 1), cs);
      pendingSeeks := pendingSeeks - 1;
      applied := None;
      if !hasPlayer {
        return;
      }
      applied := seekTime;
      seekTime := None;
      if applied.Some? {
        PlayerCalls(cs);
        if isPaused {
          isPaused := false;
          events := events + [Playing];
        }
      }
    }
  }
}
