/**
  Trick play of the home-network source: pause, resume, seek and jump-to-live over a time-shift
  buffer (TSB), and the latch that limits terminal notifications.

  Every operation is a function on `State`; the class in `HnSource` updates its fields step by step
  and is tied to these functions. Times are reals, in seconds.
 */
module TrickPlay {
  import opened Options

  const GUARD: real := 3.0  // seconds kept between the live edge and a paused position

  const EOS_CODE: int := 3
  const TUNE_TIMEOUT_CODE: int := 24
  const SRM_26_CODE: int := 26
  const COMPLETED_CODE: int := 66

  /** A trailer received from the server: the phrases its text contains and the number after "ErrorCode-". */
  datatype Trailer = Trailer(completed: bool, authFailure: bool, trmCancel: bool, code: int)

  const NO_TRAILER := Trailer(false, false, false, 0)

  /** The phrases an error text on the bus contains. */
  datatype Message = Message(
    caError: bool,       // "CA_ERROR"
    unknownType: bool,   // "determine type of stream"
    cancelled: bool,     // "Cancelled"
    pcpFailure: bool,    // "DTCP_PCP_HEADER_DECODE_FAILURE"
    dtcpServer: bool,    // "DTCP_ERR_SERVER_NOT_REACHABLE"
    noConnection: bool,  // "Cannot connect to destination"
    serverClosed: bool)  // "server closed the connection"

  /** What the URL of `open` says: its scheme parts and, if given, the TSB size in minutes. */
  datatype Url = Url(http: bool, ocap: bool, vod: bool, tsb: Option<real>)

  /** What GStreamer and the wall clock answer during one call. */
  datatype Env = Env(
    stateOk: bool,       // the pipeline state could be read
    prerolled: bool,     // and was PAUSED or PLAYING
    contentLength: real, // length the server reported, negative if none
    position: real,      // position of the current segment
    now: real)           // wall clock

  datatype Asset = Asset(isVod: bool, isLive: bool)

  /** How playback stands still, if it does. */
  datatype Pausing = Pausing(
    isPaused: bool,
    atLive: bool,      // paused at the live edge (or VOD)
    afterLimit: bool,  // and with the TSB full or nearly so
    since: real)       // wall clock of a pause at live

  const RUNNING := Pausing(false, false, false, 0.0)

  /** The terminal-notification latch and the last trailer. */
  datatype Bus = Bus(errorReported: bool, validTrailer: bool, trailer: Trailer)

  datatype State = State(
    pipeline: bool,
    asset: Asset,
    speed: real,
    seekTime: real,
    pausing: Pausing,
    liveFlag: bool,      // playing at the live edge (or VOD)
    videoLength: real,
    gotLength: bool,
    tsbMax: real,
    bus: Bus,
    keepPipeline: bool)  // configuration: the pipeline keeps playing while VOD is paused

  function Fresh(keepPipeline: bool): State {
    State(true, Asset(false, false), 1.0, 0.0, RUNNING, false, 0.0, false, 0.0,
          Bus(false, false, NO_TRAILER), keepPipeline)
  }

  function Max(x: real, y: real): real { if x >= y then x else y }

  function Min(x: real, y: real): real { if x <= y then x else y }

  // ---------------------------------------------------------------------------
  // Operations
  // ---------------------------------------------------------------------------

  function Open(s: State, url: Url): State {
    if !url.http then s
    else
      var asset := if url.ocap then s.asset.(isLive := true)
                   else if url.vod then s.asset.(isVod := true)
                   else s.asset;
      s.(asset := asset,
         liveFlag := url.ocap || url.vod,
         tsbMax := if asset.isLive && url.tsb.Some? then 60.0 * url.tsb.value else s.tsbMax,
         gotLength := s.gotLength || !asset.isLive)
  }

  function Term(s: State): State {
    s.(pipeline := false, asset := Asset(false, false), speed := 0.0, videoLength := 0.0, tsbMax := 0.0,
       pausing := RUNNING.(isPaused := s.pausing.isPaused), bus := s.bus.(trailer := NO_TRAILER))
  }

  /** The length update that reading the position may trigger. */
  function Measured(s: State, env: Env): State {
    if s.pipeline && env.stateOk && env.prerolled && !s.gotLength && env.contentLength >= 0.0
    then s.(gotLength := true, seekTime := env.contentLength) else s
  }

  /** The playing position; `fallback` if the pipeline state cannot be read. */
  function MediaTime(s: State, fallback: real, env: Env): real {
    if !s.pipeline then 0.0
    else if !env.stateOk then fallback
    else if !env.prerolled then s.seekTime
    else Max(0.0, Measured(s, env).seekTime + Max(0.0, env.position) * s.speed)
  }

  /** Where a pause at the live edge parks the position. */
  function ParkAt(s: State, cur: real): real {
    if !s.asset.isLive then cur
    else if cur >= s.tsbMax then s.tsbMax - GUARD
    else if cur <= s.videoLength then s.videoLength - GUARD
    else cur - GUARD
  }

  function Pause(s: State, env: Env): State {
    if s.bus.errorReported || s.pausing.isPaused then s
    else if s.asset.isVod || (s.asset.isLive && s.liveFlag) then
      var cur := MediaTime(s, s.seekTime, env);
      var full := s.pausing.afterLimit || (s.asset.isLive && cur + GUARD >= s.tsbMax);
      Measured(s, env).(pausing := Pausing(true, true, full, env.now),
                        seekTime := ParkAt(s, cur),
                        liveFlag := s.asset.isVod)
    else s.(pausing := s.pausing.(isPaused := true))
  }

  function Clamped(s: State, time: real): real {
    if !s.asset.isVod && s.videoLength != 0.0 && time >= s.videoLength - GUARD then s.videoLength - GUARD else time
  }

  function Compensated(s: State, speed: real, time: real): real {
    if s.asset.isLive && s.pausing.atLive && (speed == 0.5 || speed == -4.0) then time + GUARD else time
  }

  function Untrailed(s: State): State {
    s.(bus := s.bus.(validTrailer := false))
  }

  function PlayAt(s: State, speed: real, time: real, env: Env): State {
    if speed == 0.0 then Untrailed(Pause(s, env))
    else if s.asset.isLive && s.liveFlag && speed > 1.0 then Untrailed(s)
    else if !(s.pipeline && env.stateOk) then s.(pausing := s.pausing.(afterLimit := false, since := 0.0))
    else Untrailed(s.(pausing := RUNNING, seekTime := Compensated(s, speed, Clamped(s, time)), speed := speed,
                      liveFlag := s.asset.isVod))
  }

  function ResumePosition(s: State, howLong: real): real {
    if s.asset.isVod then s.seekTime
    else if s.pausing.afterLimit then s.seekTime - howLong
    else if s.videoLength >= s.tsbMax - GUARD then s.tsbMax - howLong
    else if howLong >= GUARD then s.seekTime + GUARD
    else s.seekTime
  }

  function Resume(s: State, env: Env): State {
    var cur := ResumePosition(s, env.now - s.pausing.since);
    var t := PlayAt(s.(pausing := s.pausing.(since := 0.0, afterLimit := false)), s.speed, cur, env);
    t.(pausing := t.pausing.(atLive := false))
  }

  function Play(s: State, env: Env): State {
    if s.bus.errorReported then s
    else if s.pausing.isPaused && (s.asset.isVod || s.asset.isLive) && s.pausing.atLive then Resume(s, env)
    else s.(pausing := s.pausing.(isPaused := false))
  }

  function PlayAtLive(s: State, duration: real, env: Env): State {
    if !s.pipeline || s.bus.errorReported || !env.stateOk then s
    else s.(seekTime := duration, speed := 1.0, pausing := RUNNING, liveFlag := true)
  }

  function SetSpeed(s: State, speed: real, env: Env): State {
    if !s.pipeline || s.speed == speed || s.bus.errorReported then s
    else PlayAt(Measured(s, env), speed, MediaTime(s, s.seekTime, env), env)
  }

  function SetMediaTime(s: State, time: real, env: Env): State {
    if !s.pipeline || s.bus.errorReported then s else PlayAt(s, 1.0, time, env)
  }

  function SetVideoLength(s: State, length: real): State {
    s.(videoLength := if length >= 0.0 then length else 0.0)
  }

  // ---------------------------------------------------------------------------
  // Bus messages
  // ---------------------------------------------------------------------------

  datatype Note = Eos | Error(kind: ErrorKind)

  datatype ErrorKind =
    LegacyCa | Format | TrailerError | DtcpConnection | Network | VodTuneTimeout | VodPauseTimeout | Generic

  /** The new latch and trailer, and what is forwarded to the application. */
  datatype Reaction = Reaction(bus: Bus, notes: seq<Note>)

  function Silent(b: Bus): Reaction { Reaction(b, []) }

  function Latch(b: Bus, kind: ErrorKind): Reaction { Reaction(b.(errorReported := true), [Error(kind)]) }

  /** Fetches the trailer from the plugin, which may have none. */
  function Fetch(b: Bus, fetched: Option<Trailer>): Bus {
    if fetched.Some? then b.(trailer := fetched.value) else b
  }

  /** The error with which a DVR recording ends. */
  predicate RecordingEnded(b: Bus, a: Asset, msg: Message, fetched: Option<Trailer>) {
    !b.errorReported && !msg.caError && !msg.unknownType && !msg.cancelled && b.validTrailer
    && !a.isLive && !a.isVod && msg.pcpFailure && Fetch(b, fetched).trailer.completed
  }

  /** An error on the bus. Only the GStreamer 0.10 build turns the end of a recording into an EOS. */
  function OnError(b: Bus, a: Asset, msg: Message, fetched: Option<Trailer>, gst1: bool): Reaction {
    if b.errorReported then Silent(b)
    else if msg.caError then Latch(b, LegacyCa)
    else if msg.unknownType then Latch(b, Format)
    else if msg.cancelled then Silent(b)
    else if RecordingEnded(b, a, msg, fetched) then Reaction(Fetch(b, fetched), if gst1 then [] else [Eos])
    else if b.validTrailer then Latch(Fetch(b, fetched), TrailerError)
    else if msg.dtcpServer then Latch(b, DtcpConnection)
    else if msg.noConnection then Latch(b, Network)
    else if a.isVod && msg.serverClosed then Latch(b, VodTuneTimeout)
    else Latch(b, Generic)
  }

  /** A trailer for VOD at normal speed; `still` says playback runs and has not moved since the last seek. */
  function AtNormalSpeed(b: Bus, fetched: Option<Trailer>, still: bool): Reaction {
    var f := Fetch(b, fetched);
    if b.errorReported then Silent(b)
    else if still then
      if f.trailer.code == EOS_CODE then Reaction(f.(errorReported := true), [Eos]) else Silent(f)
    else if f.trailer.code == SRM_26_CODE then Latch(f, TrailerError)
    else Silent(f)
  }

  function InTrickMode(b: Bus, fetched: Option<Trailer>): Reaction {
    var f := Fetch(b, fetched);
    if b.errorReported then Silent(b)
    else if f.trailer.code == SRM_26_CODE || f.trailer.code == TUNE_TIMEOUT_CODE then Latch(f, TrailerError)
    else Silent(f)
  }

  function WhilePaused(b: Bus, fetched: Option<Trailer>): Reaction {
    var f := Fetch(b, fetched);
    if f.trailer.code == COMPLETED_CODE && !f.errorReported then Latch(f, VodPauseTimeout) else Silent(f)
  }

  /** The server's end-of-response message. */
  function OnTrailer(b: Bus, s: State, fetched: Option<Trailer>, still: bool): Reaction {
    if s.asset.isVod then
      if s.pausing.isPaused && !s.keepPipeline then WhilePaused(b, fetched)
      else if s.speed == 1.0 then AtNormalSpeed(b, fetched, still)
      else InTrickMode(b, fetched)
    else if s.asset.isLive && !b.errorReported && b.trailer.code == TUNE_TIMEOUT_CODE then Latch(b, TrailerError)
    else Silent(b)
  }

  /** End of stream on the bus. It never looks at the latch before forwarding. */
  function OnEos(b: Bus, a: Asset, isPaused: bool, fetched: Option<Trailer>): Reaction {
    if !b.validTrailer then Reaction(b, [Eos])
    else
      var f := Fetch(b, fetched);
      if f.trailer.authFailure || f.trailer.trmCancel then Latch(f, TrailerError)
      else if f.trailer.completed || !(a.isLive || a.isVod) then Reaction(f, [Eos])
      else if a.isLive || f.trailer.code != COMPLETED_CODE || !isPaused then Latch(f, TrailerError)
      else if !f.errorReported then Latch(f, VodPauseTimeout)
      else Reaction(f, [Eos])
  }

  function AfterError(s: State, msg: Message, fetched: Option<Trailer>, gst1: bool): State {
    s.(bus := OnError(s.bus, s.asset, msg, fetched, gst1).bus,
       seekTime := if s.speed < 0.0 && RecordingEnded(s.bus, s.asset, msg, fetched) then 0.0 else s.seekTime)
  }

  /** Whether a trailer triggers a position read. */
  predicate ReadsPosition(s: State) {
    s.asset.isVod && !(s.pausing.isPaused && !s.keepPipeline) && s.speed == 1.0
  }

  function TrailerReaction(s: State, fetched: Option<Trailer>, running: bool, env: Env): Reaction {
    OnTrailer(s.bus, s, fetched, running && MediaTime(s, 0.0, env) == Measured(s, env).seekTime)
  }

  function AfterTrailer(s: State, fetched: Option<Trailer>, running: bool, env: Env): State {
    (if ReadsPosition(s) then Measured(s, env) else s).(bus := TrailerReaction(s, fetched, running, env).bus)
  }

  function Marked(s: State, valid: bool): State {
    s.(bus := s.bus.(validTrailer := valid))
  }

  function ElementReaction(s: State, valid: bool, fetched: Option<Trailer>, running: bool, env: Env): Reaction {
    if valid then TrailerReaction(Marked(s, true), fetched, running, env) else Silent(Marked(s, false).bus)
  }

  function AfterElement(s: State, valid: bool, fetched: Option<Trailer>, running: bool, env: Env): State {
    if valid then AfterTrailer(Marked(s, true), fetched, running, env) else Marked(s, false)
  }

  /** A new PMT: playback restarts from where it stands, once the pad's callback has run. */
  function AfterPmt(s: State, ran: bool, env: Env): State {
    if ran then Measured(s, env).(seekTime := MediaTime(s, 0.0, env)) else s
  }

  function AfterEos(s: State, fetched: Option<Trailer>): State {
    s.(bus := OnEos(s.bus, s.asset, s.pausing.isPaused, fetched).bus,
       seekTime := if s.speed < 0.0 then 0.0 else s.seekTime)
  }

  // ---------------------------------------------------------------------------
  // Live resume against a sliding window
  // ---------------------------------------------------------------------------

  /** A TSB of capacity `cap` at time `now` keeps the last `WindowLength` seconds. */
  function WindowLength(now: real, cap: real): real { Min(now, cap) }

  /** Where `instant` sits in that window, counted from the window's start. */
  function WindowPosition(instant: real, now: real, cap: real): real {
    instant - (now - WindowLength(now, cap))
  }

  function Abs(x: real): real { if x >= 0.0 then x else -x }

  /** A live asset playing live, `elapsed` seconds after its buffer started, with the window length up to date. */
  ghost predicate PlayingLive(s: State, elapsed: real) {
    && s.asset == Asset(false, true) && s.liveFlag && s.pipeline && s.speed == 1.0
    && !s.bus.errorReported && !s.pausing.isPaused && !s.pausing.afterLimit
    && 0.0 <= elapsed && 0.0 <= s.tsbMax
    && s.videoLength == WindowLength(elapsed, s.tsbMax)
  }

  /** A pause parks 3 seconds behind the newest point known, which the buffer's capacity bounds. */
  lemma ParkIsGuarded(s: State, cur: real)
    requires s.asset.isLive && s.videoLength <= s.tsbMax
    ensures ParkAt(s, cur) == Min(Max(cur, s.videoLength), s.tsbMax) - GUARD
  {
  }

  predicate LivePlaying(s: State) {
    s.asset.isLive && s.liveFlag && !s.pausing.isPaused && !s.bus.errorReported
  }

  lemma PauseParks(s: State, env: Env)
    requires LivePlaying(s) && s.videoLength <= s.tsbMax
    ensures var t := Pause(s, env);
            && t.pausing.isPaused && t.pausing.atLive
            && t.seekTime == Min(Max(MediaTime(s, s.seekTime, env), s.videoLength), s.tsbMax) - GUARD
  {
    ParkIsGuarded(s, MediaTime(s, s.seekTime, env));
  }

  /** Calls that do not touch playback: position reads and new window lengths. */
  predicate Idle(calls: seq<Call>) {
    forall c <- calls :: c.CallMediaTime? || c.CallSetVideoLength?
  }

  predicate Polls(calls: seq<Call>) {
    exists c <- calls :: c.CallMediaTime?
  }

  /** Reading the position changes nothing, whatever is answered, exactly if the length is known already. */
  lemma PollsHarmlessIff(s: State)
    ensures (forall env :: Measured(s, env) == s) <==> s.gotLength || !s.pipeline
  {
    if !s.gotLength && s.pipeline {
      assert Measured(s, Env(true, true, 0.0, 0.0, 0.0)) != s;
    }
  }

  /** Otherwise a read can move the parked position anywhere. */
  lemma PollMoves(s: State, x: real)
    requires s.pipeline && !s.gotLength && 0.0 <= x
    ensures var poll := CallMediaTime(Env(true, true, x, 0.0, 0.0));
            Idle([poll]) && Run(s, [poll], true).seekTime == x
  {
    var poll := CallMediaTime(Env(true, true, x, 0.0, 0.0));
    assert Run(s, [poll], true) == Run(Step(s, poll, true), [], true);
  }

  lemma {:induction false} IdleOnlyLength(s: State, calls: seq<Call>)
    requires Idle(calls) && (Polls(calls) ==> s.gotLength)
    ensures Run(s, calls, true) == s.(videoLength := Run(s, calls, true).videoLength)
    decreases |calls|
  {
    if calls != [] {
      assert calls[0] in calls && forall c <- calls[1..] :: c in calls;
      IdleOnlyLength(Step(s, calls[0], true), calls[1..]);
    }
  }

  /** Pause now, let the application read positions and report window lengths, and resume. */
  function PauseAndResume(s: State, time: real, env: Env, idle: seq<Call>, env': Env): State {
    Play(Run(PlayAt(s, 0.0, time, env), idle, true), env')
  }

  /**
    Pause while playing live and resume `d` seconds later: the resumed position is within 6 seconds of
    where the paused instant now sits in the window, plus however far the measured position ran ahead
    of the live edge. It never gets closer than 3 seconds to the new live edge.
   */
  lemma ResumeNearWindow(s: State, elapsed: real, d: real, env: Env, idle: seq<Call>, env': Env, time: real)
    requires PlayingLive(s, elapsed) && 0.0 <= d
    requires env'.now == env.now + d && env'.stateOk
    requires Idle(idle) && (Polls(idle) ==> PlayAt(s, 0.0, time, env).gotLength)
    requires Run(PlayAt(s, 0.0, time, env), idle, true).videoLength == WindowLength(elapsed + d, s.tsbMax)
    ensures var resumed := PauseAndResume(s, time, env, idle, env');
            var ahead := Max(0.0, MediaTime(s, s.seekTime, env) - elapsed);
            && Abs(resumed.seekTime - WindowPosition(elapsed, elapsed + d, s.tsbMax)) <= 2.0 * GUARD + ahead
            && (resumed.videoLength != 0.0 ==> resumed.seekTime <= resumed.videoLength - GUARD)
            && resumed.pausing == RUNNING && resumed.speed == 1.0
  {
    IdleOnlyLength(PlayAt(s, 0.0, time, env), idle);
    ParkIsGuarded(s, MediaTime(s, s.seekTime, env));
  }

  /**
    With the measured position exactly at the live edge, the error exceeds 3 seconds exactly when the
    pause fell into the last 3 seconds before the buffer filled.
   */
  lemma ResumeTracksWindow(s: State, elapsed: real, d: real, env: Env, idle: seq<Call>, env': Env, time: real)
    requires PlayingLive(s, elapsed) && MediaTime(s, s.seekTime, env) == elapsed && 0.0 <= d
    requires env'.now == env.now + d && env'.stateOk
    requires Idle(idle) && (Polls(idle) ==> PlayAt(s, 0.0, time, env).gotLength)
    requires Run(PlayAt(s, 0.0, time, env), idle, true).videoLength == WindowLength(elapsed + d, s.tsbMax)
    ensures var cap := s.tsbMax;
            var resumed := PauseAndResume(s, time, env, idle, env');
            var error := Abs(resumed.seekTime - WindowPosition(elapsed, elapsed + d, cap));
            && error <= 2.0 * GUARD
            && (error <= GUARD <==> !(cap - GUARD <= elapsed < cap && d > 0.0))
  {
    IdleOnlyLength(PlayAt(s, 0.0, time, env), idle);
  }

  /**
    Where exactly a live pause resumes, with exact measurement. While the buffer is far from full: at the paused
    instant after at least 3 seconds, 3 seconds before it otherwise. Once it filled meanwhile: where the instant now
    sits. If it was full or nearly so at the pause: 3 seconds before where a point at the edge then now sits. Never
    closer than 3 seconds to the new edge.
   */
  lemma ResumeIs(s: State, elapsed: real, d: real, env: Env, idle: seq<Call>, env': Env, time: real)
    requires PlayingLive(s, elapsed) && MediaTime(s, s.seekTime, env) == elapsed && 0.0 <= d
    requires env'.now == env.now + d && env'.stateOk
    requires Idle(idle) && (Polls(idle) ==> PlayAt(s, 0.0, time, env).gotLength)
    requires Run(PlayAt(s, 0.0, time, env), idle, true).videoLength == WindowLength(elapsed + d, s.tsbMax)
    ensures var cap, len := s.tsbMax, WindowLength(elapsed + d, s.tsbMax);
            var wanted := if elapsed + 3.0 >= cap then Min(elapsed, cap) - 3.0 - d
                          else if len + 3.0 >= cap then cap - d
                          else if d >= 3.0 then elapsed
                          else elapsed - 3.0;
            PauseAndResume(s, time, env, idle, env').seekTime == if len == 0.0 then wanted else Min(wanted, len - 3.0)
  {
    IdleOnlyLength(PlayAt(s, 0.0, time, env), idle);
  }

  /** A VOD asset resumes exactly where it was paused, at the speed it had, whatever the time and lengths. */
  lemma VodResumes(s: State, env: Env, idle: seq<Call>, env': Env, time: real)
    requires s.asset == Asset(true, false) && s.pipeline && s.speed != 0.0
    requires !s.bus.errorReported && !s.pausing.isPaused && env'.stateOk
    requires Idle(idle) && (Polls(idle) ==> PlayAt(s, 0.0, time, env).gotLength)
    ensures var resumed := PauseAndResume(s, time, env, idle, env');
            && resumed.seekTime == MediaTime(s, s.seekTime, env)
            && resumed.speed == s.speed && resumed.pausing == RUNNING
  {
    IdleOnlyLength(PlayAt(s, 0.0, time, env), idle);
  }

  /** A recording that is paused and resumed stands exactly as before, but for the trailer notice. */
  lemma RecordingResumes(s: State, env: Env, env': Env, time: real)
    requires s.asset == Asset(false, false) && !s.bus.errorReported && !s.pausing.isPaused
    ensures var paused := PlayAt(s, 0.0, time, env);
            && paused.pausing.isPaused && paused.seekTime == s.seekTime
            && Play(paused, env') == s.(bus := s.bus.(validTrailer := false))
  {
  }

  /** Once an error was reported, nothing pauses, resumes, seeks, jumps or changes speed. */
  lemma NothingAfterError(s: State, speed: real, time: real, env: Env)
    requires s.bus.errorReported
    ensures Play(s, env) == s && Pause(s, env) == s && PlayAtLive(s, time, env) == s
    ensures SetSpeed(s, speed, env) == s && SetMediaTime(s, time, env) == s
  {
  }

  /** The position shown: the base plus the played time at the current speed, never negative. */
  lemma PositionShown(s: State, fallback: real, env: Env)
    ensures !s.pipeline ==> MediaTime(s, fallback, env) == 0.0
    ensures s.pipeline && !env.stateOk ==> MediaTime(s, fallback, env) == fallback
    ensures s.pipeline && env.stateOk && !env.prerolled ==> MediaTime(s, fallback, env) == s.seekTime
    ensures s.pipeline && env.stateOk && env.prerolled ==>
              var base := if s.gotLength || env.contentLength < 0.0 then s.seekTime else env.contentLength;
              var played := if env.position < 0.0 then 0.0 else env.position;
              && (base + played * s.speed >= 0.0 ==> MediaTime(s, fallback, env) == base + played * s.speed)
              && (base + played * s.speed < 0.0 ==> MediaTime(s, fallback, env) == 0.0)
              && Measured(s, env) == s.(seekTime := base, gotLength := s.gotLength || env.contentLength >= 0.0)
  {
  }

  /** A jump to live lands at the given position, at normal speed and live; it fails without a readable pipeline. */
  lemma JumpLands(s: State, duration: real, env: Env)
    requires !s.bus.errorReported
    ensures var t := PlayAtLive(s, duration, env);
            if s.pipeline && env.stateOk
            then t.seekTime == duration && t.speed == 1.0 && t.liveFlag && t.pausing == RUNNING
                 && t == s.(seekTime := duration, speed := 1.0, liveFlag := true, pausing := RUNNING)
            else t == s
  {
  }

  /**
    Playing at a speed and time: lands there, 3 seconds behind the live edge at most, except that slow motion and rewind
    out of a live pause give these 3 seconds back. Without a readable pipeline playback stays as it is.
   */
  lemma PlayLands(s: State, speed: real, time: real, env: Env)
    requires speed != 0.0 && !(s.asset.isLive && s.liveFlag && speed > 1.0)
    ensures var t := PlayAt(s, speed, time, env);
            if s.pipeline && env.stateOk
            then
              && t.speed == speed && t.pausing == RUNNING && (t.liveFlag <==> s.asset.isVod) && !t.bus.validTrailer
              && t.seekTime == (if s.asset.isVod || s.videoLength == 0.0 then time else Min(time, s.videoLength - 3.0))
                               + (if GivesBack(s, speed) then 3.0 else 0.0)
            else t == s.(pausing := s.pausing.(afterLimit := false, since := 0.0))
  {
  }

  /** Slow motion and rewind out of a live pause. */
  predicate GivesBack(s: State, speed: real) {
    s.asset.isLive && s.pausing.atLive && (speed == 0.5 || speed == -4.0)
  }

  /** A pause remembers when it was and whether the buffer was nearly full, and leaves the live edge but for VOD. */
  lemma PauseMeans(s: State, env: Env)
    requires !s.bus.errorReported && !s.pausing.isPaused && !s.pausing.afterLimit
    ensures var t, cur := Pause(s, env), MediaTime(s, s.seekTime, env);
            && t.pausing.isPaused && t.speed == s.speed && t.bus == s.bus
            && (s.asset.isVod || (s.asset.isLive && s.liveFlag) ==>
                  && t.pausing.atLive && t.pausing.since == env.now && (t.liveFlag <==> s.asset.isVod)
                  && (t.pausing.afterLimit <==> s.asset.isLive && cur + 3.0 >= s.tsbMax)
                  && (!s.asset.isLive ==> t.seekTime == cur))
            && (!(s.asset.isVod || (s.asset.isLive && s.liveFlag)) ==>
                  t == s.(pausing := s.pausing.(isPaused := true)))
  {
  }

  /** The trailer notice is what the last server message said, until playback starts anew. */
  lemma TrailerNotice(s: State, c: Call)
    ensures var t := Step(s, c, true);
            && (c.BusElement? ==> t.bus.validTrailer == c.valid)
            && (c.BusPlaying? ==> t == s.(bus := s.bus.(validTrailer := false)))
            && (c.BusEos? || c.BusError? || c.BusPmt? || c.CallOpen? || c.CallTerm? ==>
                  t.bus.validTrailer == s.bus.validTrailer)
  {
  }

  /** What messages do to the base position: a rewind that ends starts over, a new PMT takes the position shown. */
  lemma BaseAfterMessage(s: State, c: Call)
    requires c.BusEos? || c.BusPmt? || c.BusError?
    ensures var t := Step(s, c, true);
            && t.speed == s.speed && t.pausing == s.pausing && t.asset == s.asset
            && t.seekTime == match c
                             case BusEos(_) => if s.speed < 0.0 then 0.0 else s.seekTime
                             case BusPmt(ran, env) => if ran then MediaTime(s, 0.0, env) else s.seekTime
                             case _ => if s.speed < 0.0 && Ends(s, c) then 0.0 else s.seekTime
  {
  }

  /**
    A change of speed goes on from the position shown: 3 seconds behind the live edge at most, except that slow motion
    and rewind out of a live pause give these 3 seconds back. Fast forward at the live edge is refused.
   */
  lemma SpeedLands(s: State, speed: real, env: Env)
    requires s.pipeline && env.stateOk && !s.bus.errorReported && speed != s.speed && speed != 0.0
    ensures var t, at := SetSpeed(s, speed, env), MediaTime(s, s.seekTime, env);
            if s.asset.isLive && s.liveFlag && speed > 1.0
            then t.speed == s.speed && t.pausing == s.pausing && t.liveFlag && t.seekTime == Measured(s, env).seekTime
            else
              && t.speed == speed && t.pausing == RUNNING && (t.liveFlag <==> s.asset.isVod)
              && t.seekTime == (if s.asset.isVod || s.videoLength == 0.0 then at else Min(at, s.videoLength - 3.0))
                               + (if GivesBack(s, speed) then 3.0 else 0.0)
  {
  }

  /** What `open` makes of a URL on a new source: live and VOD both start "live"; the buffer size is in minutes. */
  lemma OpenMeans(keep: bool, url: Url)
    ensures var t := Open(Fresh(keep), url);
            if !url.http then t == Fresh(keep)
            else
              && (t.asset.isLive <==> url.ocap) && (t.asset.isVod <==> url.vod && !url.ocap)
              && (t.liveFlag <==> url.ocap || url.vod) && (t.gotLength <==> !url.ocap)
              && t.tsbMax == (if url.ocap && url.tsb.Some? then 60.0 * url.tsb.value else 0.0)
              && t.speed == 1.0 && t.pausing == RUNNING && t.seekTime == 0.0 && t.pipeline && !t.bus.errorReported
  {
  }

  /** The reported length is taken as it is, a negative one as none. */
  lemma LengthMeans(s: State, length: real)
    ensures var t := SetVideoLength(s, length);
            && t == s.(videoLength := t.videoLength)
            && (length >= 0.0 ==> t.videoLength == length) && (length < 0.0 ==> t.videoLength == 0.0)
  {
  }

  /** `term` forgets the asset, its buffer and where it was paused, but neither the paused flag nor the latch. */
  lemma TermMeans(s: State)
    ensures var t := Term(s);
            && !t.pipeline && t.asset == Asset(false, false) && t.speed == 0.0
            && t.videoLength == 0.0 && t.tsbMax == 0.0 && t.bus.trailer == NO_TRAILER
            && !t.pausing.atLive && !t.pausing.afterLimit && t.pausing.since == 0.0
            && t.pausing.isPaused == s.pausing.isPaused && t.bus.errorReported == s.bus.errorReported
            && t.seekTime == s.seekTime && t.gotLength == s.gotLength && t.liveFlag == s.liveFlag
  {
  }

  /** Slow motion or rewind straight from a pause at the live edge gives the 3 seconds back: it starts at the edge. */
  lemma CompensationIsExact(s: State, elapsed: real, env: Env, time: real, speed: real, env': Env)
    requires PlayingLive(s, elapsed) && MediaTime(s, s.seekTime, env) == elapsed
    requires (speed == 0.5 || speed == -4.0) && env'.stateOk
    ensures var paused := PlayAt(s, 0.0, time, env);
            PlayAt(paused, speed, paused.seekTime, env').seekTime == WindowLength(elapsed, s.tsbMax)
  {
    ParkIsGuarded(s, elapsed);
  }

  /** A seek lands where it was asked to, but 3 seconds behind the live edge, which VOD and unknown lengths lack. */
  lemma SeekBehindEdge(s: State, time: real, env: Env)
    requires s.pipeline && !s.bus.errorReported && env.stateOk
    ensures var t := SetMediaTime(s, time, env);
            && t.speed == 1.0 && t.pausing == RUNNING
            && t.seekTime == if s.asset.isVod || s.videoLength == 0.0 then time else Min(time, s.videoLength - GUARD)
  {
  }

  // ---------------------------------------------------------------------------
  // Every run of a source opened once
  // ---------------------------------------------------------------------------

  datatype Call =
    | CallOpen(url: Url)
    | CallPlay(env: Env)
    | CallPlayAt(speed: real, time: real, env: Env)
    | CallPlayAtLive(duration: real, env: Env)
    | CallSetSpeed(speed: real, env: Env)
    | CallSetMediaTime(time: real, env: Env)
    | CallMediaTime(env: Env)
    | CallSetVideoLength(length: real)
    | CallTerm
    | BusError(msg: Message, fetched: Option<Trailer>)
    | BusElement(valid: bool, fetched: Option<Trailer>, running: bool, env: Env)
    | BusEos(fetched: Option<Trailer>)
    | BusPlaying
    | BusPmt(ran: bool, env: Env)

  function Step(s: State, c: Call, gst1: bool): State {
    match c
    case CallOpen(url) => Open(s, url)
    case CallPlay(env) => Play(s, env)
    case CallPlayAt(speed, time, env) => PlayAt(s, speed, time, env)
    case CallPlayAtLive(duration, env) => PlayAtLive(s, duration, env)
    case CallSetSpeed(speed, env) => SetSpeed(s, speed, env)
    case CallSetMediaTime(time, env) => SetMediaTime(s, time, env)
    case CallMediaTime(env) => Measured(s, env)
    case CallSetVideoLength(length) => SetVideoLength(s, length)
    case CallTerm => Term(s)
    case BusError(msg, fetched) => AfterError(s, msg, fetched, gst1)
    case BusElement(valid, fetched, running, env) => AfterElement(s, valid, fetched, running, env)
    case BusEos(fetched) => AfterEos(s, fetched)
    case BusPlaying => Untrailed(s)
    case BusPmt(ran, env) => AfterPmt(s, ran, env)
  }

  /** What a call forwards to the application. */
  function Notes(s: State, c: Call, gst1: bool): seq<Note> {
    match c
    case BusError(msg, fetched) => OnError(s.bus, s.asset, msg, fetched, gst1).notes
    case BusElement(valid, fetched, running, env) => ElementReaction(s, valid, fetched, running, env).notes
    case BusEos(fetched) => OnEos(s.bus, s.asset, s.pausing.isPaused, fetched).notes
    case _ => []
  }

  function Run(s: State, calls: seq<Call>, gst1: bool): State
    decreases |calls|
  {
    if calls == [] then s else Run(Step(s, calls[0], gst1), calls[1..], gst1)
  }

  function Forwarded(s: State, calls: seq<Call>, gst1: bool): seq<Note>
    decreases |calls|
  {
    if calls == [] then [] else Notes(s, calls[0], gst1) + Forwarded(Step(s, calls[0], gst1), calls[1..], gst1)
  }

  /** How the pause latches fit together. */
  predicate Consistent(s: State) {
    && (s.pausing.afterLimit ==> s.pausing.atLive)
    && (s.pausing.atLive ==> s.pausing.isPaused)
    && (s.asset.isLive && !s.asset.isVod && s.liveFlag ==> s.speed == 1.0 && !s.pausing.isPaused)
  }

  /** The inductive form: only live and VOD assets pause at live. */
  predicate Settled(s: State) {
    Consistent(s) && (s.pausing.atLive ==> s.asset.isVod || s.asset.isLive)
  }

  lemma PlayAtSettled(s: State, speed: real, time: real, env: Env)
    requires Settled(s)
    ensures Settled(PlayAt(s, speed, time, env))
  {
  }

  lemma PlaySettled(s: State, env: Env)
    requires Settled(s)
    ensures Settled(Play(s, env))
  {
    var t := s.(pausing := s.pausing.(since := 0.0, afterLimit := false));
    PlayAtSettled(t, t.speed, ResumePosition(s, env.now - s.pausing.since), env);
  }

  lemma StepSettled(s: State, c: Call, gst1: bool)
    requires Settled(s) && !c.CallOpen?
    ensures Settled(Step(s, c, gst1))
  {
    match c
    case CallPlay(env) => PlaySettled(s, env);
    case CallPlayAt(speed, time, env) => PlayAtSettled(s, speed, time, env);
    case CallSetSpeed(speed, env) => PlayAtSettled(Measured(s, env), speed, MediaTime(s, s.seekTime, env), env);
    case CallSetMediaTime(time, env) => PlayAtSettled(s, 1.0, time, env);
    case _ =>
  }

  lemma {:induction false} RunSettled(s: State, calls: seq<Call>, gst1: bool)
    requires Settled(s) && forall c <- calls :: !c.CallOpen?
    ensures Settled(Run(s, calls, gst1))
    decreases |calls|
  {
    if calls != [] {
      assert calls[0] in calls && forall c <- calls[1..] :: c in calls;
      StepSettled(s, calls[0], gst1);
      RunSettled(Step(s, calls[0], gst1), calls[1..], gst1);
    }
  }

  /** The latches stay consistent between calls, whatever is called after one `open`. */
  lemma OpenedOnceStaysConsistent(keep: bool, url: Url, calls: seq<Call>, gst1: bool)
    requires forall c <- calls :: !c.CallOpen?
    ensures Consistent(Run(Open(Fresh(keep), url), calls, gst1))
  {
    RunSettled(Open(Fresh(keep), url), calls, gst1);
  }

  /** Opening a live URL again is safe exactly on a source that plays at normal speed (or also carries VOD). */
  lemma ReopenIff(s: State, url: Url)
    requires Settled(s) && url.http && url.ocap
    ensures Consistent(Open(s, url)) <==> s.asset.isVod || (s.speed == 1.0 && !s.pausing.isPaused)
  {
  }

  /** `term` leaves speed 0 behind, so open, term, open ends "live" at speed 0. */
  lemma ReopenAfterTermBreaks(keep: bool)
    ensures var live := Url(true, true, false, None);
            !Consistent(Open(Run(Open(Fresh(keep), live), [CallTerm], true), live))
  {
    var live := Url(true, true, false, None);
    var s := Open(Fresh(keep), live);
    assert Run(s, [CallTerm], true) == Term(s);
  }

  // ---------------------------------------------------------------------------
  // At most one terminal notification
  // ---------------------------------------------------------------------------

  /** One note exactly if the latch went up, and it never comes down. */
  predicate Guarded(b: Bus, r: Reaction) {
    (b.errorReported ==> r.bus.errorReported) && |r.notes| == if r.bus.errorReported && !b.errorReported then 1 else 0
  }

  /** An error is swallowed only behind the latch, on cancellation, or at the end of a recording. */
  lemma ErrorSilentIff(b: Bus, a: Asset, msg: Message, fetched: Option<Trailer>)
    ensures OnError(b, a, msg, fetched, true).notes == [] <==>
            || b.errorReported
            || (msg.cancelled && !msg.caError && !msg.unknownType)
            || (&& Plain(msg) && b.validTrailer && !a.isLive && !a.isVod && msg.pcpFailure
                && if fetched.Some? then fetched.value.completed else b.trailer.completed)
  {
  }

  /** Which error text on the bus is forwarded as what, the first phrase that matters deciding. */
  lemma ErrorKinds(b: Bus, a: Asset, msg: Message, fetched: Option<Trailer>, kind: ErrorKind)
    requires !b.errorReported && !RecordingEnded(b, a, msg, fetched)
    ensures OnError(b, a, msg, fetched, true).notes == [Error(kind)] <==>
            match kind
            case LegacyCa => msg.caError
            case Format => !msg.caError && msg.unknownType
            case TrailerError => Plain(msg) && b.validTrailer
            case DtcpConnection => Plain(msg) && !b.validTrailer && msg.dtcpServer
            case Network => Plain(msg) && !b.validTrailer && !msg.dtcpServer && msg.noConnection
            case VodTuneTimeout =>
              Plain(msg) && !b.validTrailer && !msg.dtcpServer && !msg.noConnection && a.isVod && msg.serverClosed
            case VodPauseTimeout => false
            case Generic =>
              Plain(msg) && !b.validTrailer && !msg.dtcpServer && !msg.noConnection && !(a.isVod && msg.serverClosed)
  {
  }

  /** None of the three phrases that decide before the trailer is looked at. */
  predicate Plain(msg: Message) {
    !msg.caError && !msg.unknownType && !msg.cancelled
  }

  /** What a bus EOS is forwarded as: an error only with a valid trailer that says so. */
  lemma EosKinds(b: Bus, a: Asset, isPaused: bool, fetched: Option<Trailer>)
    ensures var notes, t := OnEos(b, a, isPaused, fetched).notes, Fetch(b, fetched).trailer;
            var refused := t.authFailure || t.trmCancel;
            var broken := !t.completed && (a.isLive || (a.isVod && !(t.code == 66 && isPaused)));
            var slept := !a.isLive && a.isVod && !t.completed && t.code == 66 && isPaused && !b.errorReported;
            notes == if b.validTrailer && (refused || broken) then [Error(TrailerError)]
                     else if b.validTrailer && slept then [Error(VodPauseTimeout)]
                     else [Eos]
  {
  }

  /** What a valid trailer is forwarded as. */
  lemma ElementKinds(s: State, fetched: Option<Trailer>, running: bool, env: Env)
    requires !s.bus.errorReported
    ensures var notes := ElementReaction(s, true, fetched, running, env).notes;
            var code, asleep := Fetch(s.bus, fetched).trailer.code, s.pausing.isPaused && !s.keepPipeline;
            var still := running && MediaTime(Marked(s, true), 0.0, env) == Measured(Marked(s, true), env).seekTime;
            if s.asset.isVod then
              && (notes == [Eos] <==> !asleep && s.speed == 1.0 && still && code == 3)
              && (notes == [Error(VodPauseTimeout)] <==> asleep && code == 66)
              && (notes == [Error(TrailerError)] <==>
                    !asleep && if s.speed == 1.0 then !still && code == 26 else code == 26 || code == 24)
            else
              notes == if s.asset.isLive && s.bus.trailer.code == 24 then [Error(TrailerError)] else []
  {
  }

  /** An error forwards one note exactly if it raises the latch, but for ended recordings in the 0.10 build. */
  lemma ErrorGuardedIff(b: Bus, a: Asset, msg: Message, fetched: Option<Trailer>, gst1: bool)
    ensures Guarded(b, OnError(b, a, msg, fetched, gst1)) <==> gst1 || !RecordingEnded(b, a, msg, fetched)
  {
  }

  lemma ElementGuarded(s: State, valid: bool, fetched: Option<Trailer>, running: bool, env: Env)
    ensures Guarded(s.bus, ElementReaction(s, valid, fetched, running, env))
  {
  }

  /** The error with which a recording ends arrives. */
  predicate Ends(s: State, c: Call) {
    c.BusError? && RecordingEnded(s.bus, s.asset, c.msg, c.fetched)
  }

  /** How often a run forwards a note without looking at the latch: bus EOS, and in the 0.10 build ended recordings. */
  function Unguarded(s: State, calls: seq<Call>, gst1: bool): nat
    decreases |calls|
  {
    if calls == [] then 0 else
      (if calls[0].BusEos? || (!gst1 && Ends(s, calls[0])) then 1 else 0)
      + Unguarded(Step(s, calls[0], gst1), calls[1..], gst1)
  }

  predicate Raised(s: State, t: State) {
    t.bus.errorReported && !s.bus.errorReported
  }

  lemma PlayAtKeepsLatch(s: State, speed: real, time: real, env: Env)
    ensures PlayAt(s, speed, time, env).bus.errorReported == s.bus.errorReported
  {
  }

  /** Only messages on the bus touch the latch. */
  lemma CallsKeepLatch(s: State, c: Call, gst1: bool)
    requires !c.BusError? && !c.BusElement? && !c.BusEos?
    ensures Step(s, c, gst1).bus.errorReported == s.bus.errorReported
  {
    match c
    case CallPlay(env) =>
      PlayAtKeepsLatch(s.(pausing := s.pausing.(since := 0.0, afterLimit := false)), s.speed,
                       ResumePosition(s, env.now - s.pausing.since), env);
    case CallSetSpeed(speed, env) => PlayAtKeepsLatch(Measured(s, env), speed, MediaTime(s, s.seekTime, env), env);
    case CallPlayAt(speed, time, env) => PlayAtKeepsLatch(s, speed, time, env);
    case CallSetMediaTime(time, env) => PlayAtKeepsLatch(s, 1.0, time, env);
    case _ =>
  }

  lemma StepLatch(s: State, c: Call, gst1: bool)
    ensures var t, notes := Step(s, c, gst1), Notes(s, c, gst1);
            && (s.bus.errorReported ==> t.bus.errorReported)
            && |notes| == if c.BusEos? || (!gst1 && Ends(s, c)) || Raised(s, t) then 1 else 0
  {
    match c
    case BusError(msg, fetched) => ErrorGuardedIff(s.bus, s.asset, msg, fetched, gst1);
    case BusElement(valid, fetched, running, env) => ElementGuarded(s, valid, fetched, running, env);
    case BusEos(_) =>
    case _ => CallsKeepLatch(s, c, gst1);
  }

  /**
    No call clears the latch, and beyond the unguarded notes a whole run forwards at most one terminal
    notification: none if the latch was already set.
   */
  lemma {:induction false} TerminalBounds(s: State, calls: seq<Call>, gst1: bool)
    ensures var t, notes := Run(s, calls, gst1), Forwarded(s, calls, gst1);
            && (s.bus.errorReported ==> t.bus.errorReported)
            && Unguarded(s, calls, gst1) <= |notes| <= Unguarded(s, calls, gst1) + if Raised(s, t) then 1 else 0
    decreases |calls|
  {
    if calls != [] {
      StepLatch(s, calls[0], gst1);
      TerminalBounds(Step(s, calls[0], gst1), calls[1..], gst1);
    }
  }

  /** Without bus EOS the bound is exact: one note for a raised latch, and one for every unguarded ending. */
  lemma {:induction false} TerminalCount(s: State, calls: seq<Call>, gst1: bool)
    requires forall c <- calls :: !c.BusEos?
    ensures var t, notes := Run(s, calls, gst1), Forwarded(s, calls, gst1);
            && |notes| == Unguarded(s, calls, gst1) + (if Raised(s, t) then 1 else 0)
            && (gst1 ==> Unguarded(s, calls, gst1) == 0)
    decreases |calls|
  {
    if calls != [] {
      assert calls[0] in calls && forall c <- calls[1..] :: c in calls;
      StepLatch(s, calls[0], gst1);
      TerminalCount(Step(s, calls[0], gst1), calls[1..], gst1);
      TerminalBounds(Step(s, calls[0], gst1), calls[1..], gst1);
    }
  }

  /** Call `i` of the run is the error with which a recording ends. */
  predicate EndsAt(s: State, calls: seq<Call>, i: int, gst1: bool) {
    0 <= i < |calls| && Ends(Run(s, calls[..i], gst1), calls[i])
  }

  lemma EndsLater(s: State, calls: seq<Call>, i: int, gst1: bool)
    requires calls != [] && 0 <= i
    ensures EndsAt(s, calls, i + 1, gst1) <==> EndsAt(Step(s, calls[0], gst1), calls[1..], i, gst1)
    ensures EndsAt(s, calls, 0, gst1) <==> Ends(s, calls[0])
  {
    if i + 1 < |calls| {
      assert calls[..i + 1][1..] == calls[1..][..i];
    }
  }

  /** What the count of unguarded notes says about the places where recordings end. */
  lemma {:induction false} UnguardedMeans(s: State, calls: seq<Call>)
    requires forall c <- calls :: !c.BusEos?
    ensures Unguarded(s, calls, false) == 0 <==> forall i :: !EndsAt(s, calls, i, false)
    ensures Unguarded(s, calls, false) <= 1 <==>
            forall i, j :: EndsAt(s, calls, i, false) && EndsAt(s, calls, j, false) ==> i == j
    decreases |calls|
  {
    if calls != [] {
      assert calls[0] in calls && forall c <- calls[1..] :: c in calls;
      var t, rest := Step(s, calls[0], false), calls[1..];
      UnguardedMeans(t, rest);
      forall i | 0 <= i ensures EndsAt(s, calls, i + 1, false) <==> EndsAt(t, rest, i, false) {
        EndsLater(s, calls, i, false);
      }
      EndsLater(s, calls, 0, false);
      forall i | EndsAt(s, calls, i, false) && i > 0 ensures EndsAt(t, rest, i - 1, false) {
        assert i == (i - 1) + 1;
      }
      forall i | EndsAt(t, rest, i, false) ensures EndsAt(s, calls, i + 1, false) {
      }
    }
  }

  /**
    At most one terminal notification: always in the GStreamer 1 build; in the 0.10 build exactly if no two errors
    end a recording, and none does in a run that also raises the latch.
   */
  lemma AtMostOneTerminalIff(s: State, calls: seq<Call>, gst1: bool)
    requires forall c <- calls :: !c.BusEos?
    ensures |Forwarded(s, calls, gst1)| <= 1 <==>
            || gst1
            || (&& (forall i, j :: EndsAt(s, calls, i, false) && EndsAt(s, calls, j, false) ==> i == j)
                && (Raised(s, Run(s, calls, false)) ==> forall i :: !EndsAt(s, calls, i, false)))
  {
    TerminalCount(s, calls, gst1);
    if !gst1 {
      UnguardedMeans(s, calls);
    }
  }

  /** In the 0.10 build a recording that ended, its error coming twice, is forwarded as EOS twice. */
  lemma OldBuildRepeatsEos(keep: bool)
    ensures var recording := Url(true, false, false, None);
            var done := Some(NO_TRAILER.(completed := true));
            var trailer := BusElement(true, done, false, Env(true, true, 0.0, 0.0, 0.0));
            var error := BusError(Message(false, false, false, true, false, false, false), done);
            Forwarded(Fresh(keep), [CallOpen(recording), trailer, error, error], false) == [Eos, Eos]
  {
    var recording := Url(true, false, false, None);
    var done := Some(NO_TRAILER.(completed := true));
    var trailer := BusElement(true, done, false, Env(true, true, 0.0, 0.0, 0.0));
    var error := BusError(Message(false, false, false, true, false, false, false), done);
    var s1 := Open(Fresh(keep), recording);
    var s2 := Step(s1, trailer, false);
    var s3 := Step(s2, error, false);
    assert Notes(s1, trailer, false) == [];
    assert Notes(s2, error, false) == [Eos] && Notes(s3, error, false) == [Eos];
    ForwardedFirst(Fresh(keep), CallOpen(recording), [trailer, error, error], false);
    ForwardedFirst(s1, trailer, [error, error], false);
    ForwardedFirst(s2, error, [error], false);
    ForwardedFirst(s3, error, [], false);
  }

  lemma ForwardedFirst(s: State, c: Call, rest: seq<Call>, gst1: bool)
    ensures Forwarded(s, [c] + rest, gst1) == Notes(s, c, gst1) + Forwarded(Step(s, c, gst1), rest, gst1)
  {
    assert ([c] + rest)[1..] == rest;
  }
}
