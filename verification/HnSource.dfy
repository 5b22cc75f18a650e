/**
  The home-network source object: the operations of `TrickPlay`, updating fields in place. Every call keeps the
  pause latches settled and the terminal latch up (`Lawful`).
 */
module HnSource {
  import opened Options
  import opened TrickPlay

  lemma Laws(s: State, c: Call)
    requires !c.CallOpen?
    ensures var t, notes := Step(s, c, true), Notes(s, c, true);
            && (Settled(s) ==> Settled(t)) && (s.bus.errorReported ==> t.bus.errorReported)
            && |notes| == if c.BusEos? || Raised(s, t) then 1 else 0
  {
    StepLatch(s, c, true);
    if Settled(s) {
      StepSettled(s, c, true);
    }
  }

  class HnSourcePrivate {
    var pipeline: bool
    var asset: Asset
    var speed: real
    var seekTime: real
    var pausing: Pausing
    var liveFlag: bool
    var videoLength: real
    var gotLength: bool
    var tsbMax: real
    var bus: Bus
    const keepPipeline: bool

    ghost function View(): State
      reads this
    {
      State(pipeline, asset, speed, seekTime, pausing, liveFlag, videoLength, gotLength, tsbMax, bus, keepPipeline)
    }

    /** Latches that fit together still do, and the terminal latch never comes down. */
    twostate predicate Lawful()
      reads this
    {
      (old(Settled(View())) ==> Settled(View())) && (old(bus.errorReported) ==> bus.errorReported)
    }

    /** The terminal latch went up. */
    twostate predicate Latched()
      reads this
    {
      Raised(old(View()), View())
    }

    constructor (keepPipeline: bool)
      ensures View() == Fresh(keepPipeline) && Settled(View())
    {
      pipeline, asset, speed, seekTime, pausing := true, Asset(false, false), 1.0, 0.0, RUNNING;
      liveFlag, videoLength, gotLength, tsbMax := false, 0.0, false, 0.0;
      bus := Bus(false, false, NO_TRAILER);
      this.keepPipeline := keepPipeline;
    }

    method Open(url: Url)
      modifies this`asset, this`liveFlag, this`tsbMax, this`gotLength
      ensures View() == TrickPlay.Open(old(View()), url)
      ensures old(Settled(View())) && url.http && url.ocap ==>
                (Settled(View()) <==> old(asset.isVod || (speed == 1.0 && !pausing.isPaused)))
    {
      if old(Settled(View())) && url.http && url.ocap {
        ReopenIff(old(View()), url);
      }
      if !url.http {
        return;
      }
      if url.ocap {
        asset, liveFlag := asset.(isLive := true), true;
      } else if url.vod {
        asset, liveFlag := asset.(isVod := true), true;
      } else {
        liveFlag := false;
      }
      if asset.isLive && url.tsb.Some? {
        tsbMax := 60.0 * url.tsb.value;
      }
      if !asset.isLive {
        gotLength := true;
      }
    }

    method Term()
      modifies this
      ensures View() == TrickPlay.Term(old(View()))
      ensures Lawful()
    {
      Laws(View(), CallTerm);
      pipeline, speed, asset, videoLength, tsbMax := false, 0.0, Asset(false, false), 0.0, 0.0;
      bus := bus.(trailer := NO_TRAILER);
      pausing := pausing.(atLive := false, afterLimit := false, since := 0.0);
    }

    method GetMediaTime(t: real, env: Env) returns (time: real)
      modifies this`gotLength, this`seekTime
      ensures View() == Measured(old(View()), env) && time == MediaTime(old(View()), t, env)
      ensures Lawful()
    {
      Laws(View(), CallMediaTime(env));
      if !pipeline {
        return 0.0;
      }
      if !env.stateOk {
        return t;
      }
      if !env.prerolled {
        return seekTime;
      }
      if !gotLength && env.contentLength >= 0.0 {
        gotLength, seekTime := true, env.contentLength;
      }
      time := Max(0.0, env.position);
      time := seekTime + time * speed;
      time := Max(0.0, time);
    }

    method PausePlayback(env: Env)
      modifies this`gotLength, this`seekTime, this`pausing, this`liveFlag
      ensures View() == Pause(old(View()), env)
      // A pause at the live edge parks 3 seconds behind the newest point known, which the buffer's capacity bounds.
      ensures old(LivePlaying(View()) && videoLength <= tsbMax) ==>
                && pausing.isPaused && pausing.atLive
                && seekTime == Min(Max(MediaTime(old(View()), old(seekTime), env), videoLength), tsbMax) - GUARD
    {
      if LivePlaying(View()) && videoLength <= tsbMax {
        PauseParks(View(), env);
      }
      StandStill(env);
    }

    method StandStill(env: Env)
      modifies this`gotLength, this`seekTime, this`pausing, this`liveFlag
      ensures View() == Pause(old(View()), env)
    {
      if bus.errorReported || pausing.isPaused {
        return;
      }
      if asset.isVod || (asset.isLive && liveFlag) {
        var cur := GetMediaTime(seekTime, env);
        pausing := pausing.(atLive := true);
        if asset.isLive && cur + GUARD >= tsbMax {
          pausing := pausing.(afterLimit := true);
        }
        if asset.isLive {
          if cur >= tsbMax {
            cur := tsbMax - GUARD;
          } else if cur <= videoLength {
            cur := videoLength - GUARD;
          } else {
            cur := cur - GUARD;
          }
        }
        seekTime := cur;
        pausing := pausing.(since := env.now);
        liveFlag := asset.isVod;
      }
      pausing := pausing.(isPaused := true);
    }

    method PlayAt(newSpeed: real, position: real, env: Env)
      modifies this`gotLength, this`seekTime, this`pausing, this`liveFlag, this`speed, this`bus
      ensures View() == TrickPlay.PlayAt(old(View()), newSpeed, position, env)
      ensures Lawful()
    {
      Laws(View(), CallPlayAt(newSpeed, position, env));
      Restart(newSpeed, position, env);
    }

    method Restart(newSpeed: real, position: real, env: Env)
      modifies this`gotLength, this`seekTime, this`pausing, this`liveFlag, this`speed, this`bus
      ensures View() == TrickPlay.PlayAt(old(View()), newSpeed, position, env)
    {
      if newSpeed == 0.0 {
        StandStill(env);
        bus := bus.(validTrailer := false);
        return;
      }
      if asset.isLive && liveFlag && newSpeed > 1.0 {
        bus := bus.(validTrailer := false);
        return;
      }
      var time := position;
      if !asset.isVod && videoLength != 0.0 && time >= videoLength - GUARD {
        time := videoLength - GUARD;
      }
      if asset.isLive && pausing.atLive && (newSpeed == 0.5 || newSpeed == -4.0) {
        time := time + GUARD;
      }
      pausing := pausing.(afterLimit := false, since := 0.0);
      if !(pipeline && env.stateOk) {
        return;
      }
      pausing := pausing.(atLive := false);
      seekTime, speed, liveFlag := time, newSpeed, asset.isVod;
      pausing := pausing.(isPaused := false);
      bus := bus.(validTrailer := false);
    }

    /** Where to resume after standing still for `howLong`. */
    method PositionAfter(howLong: real) returns (cur: real)
      ensures cur == ResumePosition(View(), howLong)
    {
      cur := seekTime;
      if asset.isVod {
        cur := seekTime;
      } else if pausing.afterLimit {
        cur := seekTime - howLong;
      } else if videoLength >= tsbMax - GUARD {
        cur := tsbMax - howLong;
      } else if howLong >= GUARD {
        cur := seekTime + GUARD;
      }
    }

    method Resume(env: Env)
      modifies this`gotLength, this`seekTime, this`pausing, this`liveFlag, this`speed, this`bus
      ensures View() == TrickPlay.Resume(old(View()), env)
    {
      var cur := PositionAfter(env.now - pausing.since);
      pausing := pausing.(since := 0.0, afterLimit := false);
      ghost var s := View();
      Restart(speed, cur, env);
      ghost var t := View();
      assert t == TrickPlay.PlayAt(s, s.speed, cur, env);
      pausing := pausing.(atLive := false);
      assert View() == t.(pausing := t.pausing.(atLive := false));
    }

    method Play(env: Env)
      modifies this`gotLength, this`seekTime, this`pausing, this`liveFlag, this`speed, this`bus
      ensures View() == TrickPlay.Play(old(View()), env)
      // A paused VOD asset goes on from where it stands, at the speed it had, however long it stood.
      ensures old(asset == Asset(true, false) && pausing.isPaused && pausing.atLive && pipeline && speed != 0.0
                  && !bus.errorReported) && env.stateOk ==>
                seekTime == old(seekTime) && speed == old(speed) && pausing == RUNNING
      ensures Lawful()
    {
      Laws(View(), CallPlay(env));
      if bus.errorReported {
        return;
      }
      if pausing.isPaused && (asset.isVod || asset.isLive) && pausing.atLive {
        Resume(env);
      } else {
        pausing := pausing.(isPaused := false);
      }
    }

    method PlayAtLivePosition(duration: real, env: Env)
      modifies this`seekTime, this`speed, this`pausing, this`liveFlag
      ensures View() == PlayAtLive(old(View()), duration, env)
      ensures Lawful()
    {
      Laws(View(), CallPlayAtLive(duration, env));
      if !pipeline || bus.errorReported || !env.stateOk {
        return;
      }
      seekTime, speed := duration, 1.0;
      pausing := pausing.(since := 0.0);
      pausing := pausing.(isPaused := false, atLive := false, afterLimit := false);
      liveFlag := true;
    }

    method SetSpeed(newSpeed: real, env: Env)
      modifies this`gotLength, this`seekTime, this`pausing, this`liveFlag, this`speed, this`bus
      ensures View() == TrickPlay.SetSpeed(old(View()), newSpeed, env)
      ensures Lawful()
    {
      Laws(View(), CallSetSpeed(newSpeed, env));
      if !pipeline || speed == newSpeed || bus.errorReported {
        return;
      }
      var cur := GetMediaTime(seekTime, env);
      PlayAt(newSpeed, cur, env);
    }

    method SetMediaTime(time: real, env: Env)
      modifies this`gotLength, this`seekTime, this`pausing, this`liveFlag, this`speed, this`bus
      ensures View() == TrickPlay.SetMediaTime(old(View()), time, env)
      ensures Lawful()
      ensures pipeline && !bus.errorReported && env.stateOk ==>
                && speed == 1.0 && pausing == RUNNING
                && seekTime == if asset.isVod || videoLength == 0.0 then time else Min(time, videoLength - GUARD)
    {
      Laws(View(), CallSetMediaTime(time, env));
      if pipeline && !bus.errorReported && env.stateOk {
        SeekBehindEdge(View(), time, env);
      }
      if pipeline && !bus.errorReported {
        PlayAt(1.0, time, env);
      }
    }

    method SetVideoLength(length: real)
      modifies this`videoLength
      ensures View() == TrickPlay.SetVideoLength(old(View()), length)
      ensures videoLength >= 0.0 && (length >= 0.0 ==> videoLength == length)
      ensures Lawful()
    {
      Laws(View(), CallSetVideoLength(length));
      videoLength := if length >= 0.0 then length else 0.0;
    }

    method RetrieveTrailer(fetched: Option<Trailer>)
      modifies this`bus
      ensures bus == Fetch(old(bus), fetched)
    {
      if fetched.Some? {
        bus := bus.(trailer := fetched.value);
      }
    }

    method Report(kind: ErrorKind) returns (notes: seq<Note>)
      modifies this`bus
      ensures Reaction(bus, notes) == Latch(old(bus), kind)
    {
      bus := bus.(errorReported := true);
      notes := [Error(kind)];
    }

    /** An error on the bus, in the GStreamer 1 build. */
    method OnError(msg: Message, fetched: Option<Trailer>) returns (notes: seq<Note>)
      modifies this`bus, this`seekTime
      ensures View() == Step(old(View()), BusError(msg, fetched), true)
      ensures notes == Notes(old(View()), BusError(msg, fetched), true)
      ensures Lawful() && |notes| == if Latched() then 1 else 0
    {
      Laws(View(), BusError(msg, fetched));
      notes := Classify(msg, fetched);
    }

    method Classify(msg: Message, fetched: Option<Trailer>) returns (notes: seq<Note>)
      modifies this`bus, this`seekTime
      ensures View() == AfterError(old(View()), msg, fetched, true)
      ensures notes == TrickPlay.OnError(old(bus), asset, msg, fetched, true).notes
    {
      notes := [];
      if bus.errorReported {
        return;
      }
      if msg.caError {
        notes := Report(LegacyCa);
      } else if msg.unknownType {
        notes := Report(Format);
      } else if msg.cancelled {
      } else if bus.validTrailer {
        RetrieveTrailer(fetched);
        if !asset.isLive && !asset.isVod && msg.pcpFailure && bus.trailer.completed {
          if speed < 0.0 {
            seekTime := 0.0;
          }
        } else {
          notes := Report(TrailerError);
        }
      } else if msg.dtcpServer {
        notes := Report(DtcpConnection);
      } else if msg.noConnection {
        notes := Report(Network);
      } else if asset.isVod && msg.serverClosed {
        notes := Report(VodTuneTimeout);
      } else {
        notes := Report(Generic);
      }
    }

    method OnEos(fetched: Option<Trailer>) returns (notes: seq<Note>)
      modifies this`bus, this`seekTime
      ensures View() == Step(old(View()), BusEos(fetched), true)
      ensures notes == Notes(old(View()), BusEos(fetched), true)
      ensures Lawful() && |notes| == 1
    {
      Laws(View(), BusEos(fetched));
      notes := EndOfStream(fetched);
    }

    method EndOfStream(fetched: Option<Trailer>) returns (notes: seq<Note>)
      modifies this`bus, this`seekTime
      ensures View() == AfterEos(old(View()), fetched)
      ensures notes == TrickPlay.OnEos(old(bus), asset, pausing.isPaused, fetched).notes
    {
      if speed < 0.0 {
        seekTime := 0.0;
      }
      if bus.validTrailer {
        RetrieveTrailer(fetched);
        if bus.trailer.authFailure || bus.trailer.trmCancel {
          notes := Report(TrailerError);
          return;
        } else if asset.isLive && !bus.trailer.completed {
          notes := Report(TrailerError);
          return;
        } else if asset.isVod && !bus.trailer.completed {
          if bus.trailer.code != COMPLETED_CODE || !pausing.isPaused {
            notes := Report(TrailerError);
            return;
          } else if !bus.errorReported {
            notes := Report(VodPauseTimeout);
            return;
          }
        }
      }
      notes := [Eos];
    }

    /** The pipeline reports that it plays. */
    method OnPlaying()
      modifies this`bus
      ensures View() == Step(old(View()), BusPlaying, true)
      ensures Lawful()
    {
      Laws(View(), BusPlaying);
      bus := bus.(validTrailer := false);
    }

    /** A PMT update, once the blocked pad's callback runs. */
    method OnPadBlocked(env: Env)
      modifies this`seekTime, this`gotLength
      ensures View() == Step(old(View()), BusPmt(true, env), true)
      ensures Lawful()
    {
      Laws(View(), BusPmt(true, env));
      var cur := GetMediaTime(0.0, env);
      seekTime := cur;
    }

    /** The server's end-of-response message; `running` says the pipeline was PAUSED or PLAYING. */
    method HandleElementMsg(valid: bool, fetched: Option<Trailer>, running: bool, env: Env) returns (notes: seq<Note>)
      modifies this`bus, this`seekTime, this`gotLength
      ensures View() == Step(old(View()), BusElement(valid, fetched, running, env), true)
      ensures notes == Notes(old(View()), BusElement(valid, fetched, running, env), true)
      ensures Lawful() && |notes| == if Latched() then 1 else 0
    {
      Laws(View(), BusElement(valid, fetched, running, env));
      notes := [];
      bus := bus.(validTrailer := valid);
      if !valid {
        return;
      }
      notes := HandleTrailer(fetched, running, env);
    }

    method HandleTrailer(fetched: Option<Trailer>, running: bool, env: Env) returns (notes: seq<Note>)
      modifies this`bus, this`seekTime, this`gotLength
      ensures View() == AfterTrailer(old(View()), fetched, running, env)
      ensures Reaction(bus, notes) == TrailerReaction(old(View()), fetched, running, env)
    {
      notes := [];
      if asset.isVod {
        if pausing.isPaused && !keepPipeline {
          notes := VodTrailerWhilePaused(fetched);
        } else if speed == 1.0 {
          notes := VodTrailerAtNormalSpeed(fetched, running, env);
        } else {
          notes := VodTrailerInTrickMode(fetched);
        }
      } else if asset.isLive && !bus.errorReported && bus.trailer.code == TUNE_TIMEOUT_CODE {
        notes := Report(TrailerError);
      }
    }

    method VodTrailerWhilePaused(fetched: Option<Trailer>) returns (notes: seq<Note>)
      modifies this`bus
      ensures Reaction(bus, notes) == WhilePaused(old(bus), fetched)
    {
      notes := [];
      RetrieveTrailer(fetched);
      if bus.trailer.code == COMPLETED_CODE {
        if !bus.errorReported {
          notes := Report(VodPauseTimeout);
        }
      }
    }

    method VodTrailerInTrickMode(fetched: Option<Trailer>) returns (notes: seq<Note>)
      modifies this`bus
      ensures Reaction(bus, notes) == InTrickMode(old(bus), fetched)
    {
      notes := [];
      if !bus.errorReported {
        RetrieveTrailer(fetched);
        if bus.trailer.code == SRM_26_CODE {
          notes := Report(TrailerError);
        } else if bus.trailer.code == TUNE_TIMEOUT_CODE {
          notes := Report(TrailerError);
        }
      }
    }

    method VodTrailerAtNormalSpeed(fetched: Option<Trailer>, running: bool, env: Env) returns (notes: seq<Note>)
      modifies this`bus, this`seekTime, this`gotLength
      ensures View() == Measured(old(View()), env).(bus := bus)
      ensures Reaction(bus, notes) ==
              AtNormalSpeed(old(bus), fetched, running && MediaTime(old(View()), 0.0, env) == seekTime)
    {
      notes := [];
      var cur := GetMediaTime(0.0, env);
      if !bus.errorReported {
        RetrieveTrailer(fetched);
        if cur == seekTime && running {
          if bus.trailer.code == EOS_CODE {
            bus := bus.(errorReported := true);
            notes := [Eos];
          }
        } else if bus.trailer.code == SRM_26_CODE {
          notes := Report(TrailerError);
        }
      }
    }
  }
}
