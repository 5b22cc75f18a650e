/**
  The source/sink/filter graph.

  A sink remembers its source; a source remembers its sinks twice, by sink (the
  name of the queue feeding it) and by GStreamer element (to route bus messages).
  A filter is a sink and a source at once and is modelled as two linked halves: its
  `Sink` half has a non-null `back`, its `Source` half a non-null `front`.

  GStreamer is an input, a `Gst` with an arbitrary script of answers, so all claims hold whatever it answers.
 */
module MediaGraph {
  import opened Options

  /** `Aborted`: the process ends, in a failed assertion or on a null pointer. */
  datatype Result = Success | InternalError | NotInitialized | InvalidArgument | NoSink | Aborted

  /** GStreamer: the answer to every call whose result the framework looks at, in the order of the calls. */
  class Gst {
    const answer: nat -> bool
    var asked: nat
    ghost var refusals: nat

    constructor (answer: nat -> bool)
      ensures this.answer == answer && asked == 0
    {
      this.answer, asked, refusals := answer, 0, 0;
    }

    /** A GStreamer that never refuses. */
    ghost predicate Obliging() {
      forall i :: answer(i)
    }

    /** Every call since then was answered with yes. */
    twostate predicate Granted()
      reads this
    {
      refusals == old(refusals)
    }

    /** No refusal is forgotten, and none made up. */
    twostate predicate Later()
      reads this
    {
      old(refusals) <= refusals && (Obliging() ==> refusals == old(refusals))
    }

    method Ask() returns (yes: bool)
      modifies this
      ensures asked == old(asked) + 1 && yes == answer(old(asked))
      ensures Later() && (yes <==> Granted())
    {
      yes := answer(asked);
      asked := asked + 1;
      refusals := if yes then refusals else refusals + 1;
    }

    /** Up to `n` calls in a row, given up at the first refusal. */
    method AskUpTo(n: nat) returns (yes: bool)
      modifies this
      ensures Later() && (yes <==> Granted())
    {
      yes := true;
      for i := 0 to n
        invariant Later() && (yes <==> Granted())
      {
        if yes {
          yes := Ask();
        }
      }
    }
  }

  /** A GStreamer element: its identity, and the sink that created it and takes ownership of it. */
  class Element {
    const owner: Sink

    constructor (owner: Sink)
      ensures this.owner == owner
    {
      this.owner := owner;
    }
  }

  /** A GStreamer pipeline: its identity, which is what decides where an element can be found again. */
  class Pipeline {
    constructor () {
    }
  }

  /** What a source remembers of a sink's queue, its name, and where GStreamer keeps that queue. */
  datatype Feed = Feed(name: string, bin: Pipeline)

  class Sink {
    var element: Element?  // null until the sink is initialized
    var source: Source?
    var back: Source?      // the source half when this sink is a filter

    constructor ()
      ensures element == null && source == null && back == null
    {
      element, source, back := null, null, null;
    }

    /** Creates the sink's element; a second call changes nothing. */
    method Init(ghost g: Graph, gst: Gst) returns (r: Result)
      requires g.Valid() && this in g.sinks
      modifies this`element, gst
      ensures g.Valid() && gst.Later()
      ensures r != Aborted && (r == Success <==> gst.Granted())
      ensures r == Success <==> element != null
      ensures old(element) != null ==> element == old(element)
    {
      if element == null {
        var created := gst.Ask();
        if !created {
          return InternalError;
        }
        element := new Element(this);
        g.NewElement(this);
      }
      r := Success;
    }

    /** Removes the sink from its current source and forgets that source, whatever the removal answers. */
    method Detach(ghost g: Graph, gst: Gst) returns (r: Result)
      requires g.Valid() && this in g.sinks && element != null && source != null
      modifies this`source, source`queues, source`sinks, source`teeBin, source`teeLinked, gst
      ensures gst.Later() && (r == Aborted <==> old(source.Traps(this)))
      ensures r == Success <==> old(source.Live() && !source.Traps(this)) && gst.Granted()
      ensures r != Aborted ==>
                && source == null
                && (g.Valid() <==> old(source.Live()))
                && (old(source.Live()) ==> old(source).Lost(this))
                && (old(source.Live()) ==> old(source).sinks == old(source.sinks) - {element})
                && (!old(source.Live()) ==>
                      && old(source).queues == old(source.queues) && old(source).sinks == old(source.sinks)
                      && old(source).SameTee())
      ensures old(source.TeeSound()) ==> old(source).TeeSound()
      ensures old(source).front == null ==> old(source).SameTee()
      ensures !old(source).teeLinked || old(source.teeLinked)
      ensures r != Aborted && gst.Granted() && old(source.TeeExact()) ==> old(source).TeeExact()
      ensures r != Aborted && gst.Granted() && old(source.TeeHeld()) ==> old(source).TeeHeld()
    {
      ghost var s := source;
      assert g.Placed(this) && g.Listed(s);
      r := source.RemoveSink(this, gst);
      if r != Aborted {
        source := null;
        if old(source.Live()) {
          g.Parted(this);
          g.NoneLeft(s);
        } else {
          assert !g.Listed(s);
        }
      }
    }

    /** Adds the sink to `target`; the sink remembers `target` only if that succeeded. */
    method Attach(target: Source, ghost g: Graph, gst: Gst) returns (r: Result)
      requires g.Valid() && this in g.sinks && element != null && source == null
      requires target in g.sources
      modifies this`source, target`queues, target`sinks, target`tee, target`teeBin, target`teeLinked, gst
      ensures g.Valid() && gst.Later()
      ensures (r == Aborted <==> old(target.Bars())) && (r == Aborted ==> gst.Granted())
      ensures r == Success <==> old(target.Accepts()) && gst.Granted()
      ensures r == Success ==> source == target && target.Got(this, old(target.Bin()))
      ensures r != Success ==> source == null && target.Kept()
      ensures old(target.TeeSound()) ==> target.TeeSound()
      ensures gst.Granted() && old(target.TeeExact()) ==> target.TeeExact()
      ensures target.front == null ==> target.SameTee()
    {
      assert this !in target.queues by {
        assert g.Listed(target);
      }
      assert target.queues == map[] <==> target.sinks == map[] by {
        g.NoneLeft(target);
      }
      r := target.AddSink(this, gst);
      if r == Success {
        source := target;
        g.Joined(this);
      } else {
        g.SameLinks();
      }
    }

    /** The sources an attach to `target` may change. */
    ghost function Touched(target: Source?): set<Source>
      reads this
    {
      (if source == null then {} else {source}) + (if target == null then {} else {target})
    }

    /** Leaving the current source would find a pipeline. */
    predicate Free()
      reads this, source
      reads if source == null then {} else {source.front}
      reads if source == null || source.front == null then {} else {source.front.source}
    {
      element == null || source == null || source.Live()
    }

    /** Leaving the current source ends the process. */
    predicate Trapped()
      reads this, source
      reads if source == null then {} else {source.front}
      reads if source == null || source.front == null then {} else {source.front.source}
    {
      element != null && source != null && source.Traps(this)
    }

    /** The first half of `SetSource`. */
    method Leave(ghost g: Graph, gst: Gst) returns (r: Result)
      requires g.Valid() && this in g.sinks && element != null
      modifies this`source, Touched(null)`queues, Touched(null)`sinks
      modifies Touched(null)`teeBin, Touched(null)`teeLinked, gst
      ensures gst.Later() && (r == Aborted <==> old(Trapped()))
      ensures r == Success <==> old(Free() && !Trapped()) && gst.Granted()
      ensures r != Aborted ==> source == null && (g.Valid() <==> old(Free()))
      ensures r != Aborted && old(source) != null ==>
                if g.Valid() then
                  && old(source).Lost(this)
                  && old(source).sinks == old(source.sinks) - {element}
                  && (!old(source).teeLinked || old(source.teeLinked))
                  && (gst.Granted() && old(source.TeeHeld()) ==> old(source).TeeHeld())
                else
                  old(source).queues == old(source.queues) && old(source).sinks == old(source.sinks)
      ensures forall s <- g.sources | old(s.TeeSound()) :: s.TeeSound()
      ensures r != Aborted && gst.Granted() ==> forall s <- g.sources | old(s.TeeExact()) :: s.TeeExact()
    {
      r := Success;
      if source != null {
        assert g.Placed(this);
        r := Detach(g, gst);
      }
    }

    /** Detaches the sink from its current source, then attaches it to `target` if given. */
    method SetSource(target: Source?, ghost g: Graph, gst: Gst) returns (r: Result)
      requires g.Valid() && this in g.sinks
      requires target != null ==> target in g.sources
      modifies this`source, Touched(target)`queues, Touched(target)`sinks
      modifies Touched(target)`tee, Touched(target)`teeBin, Touched(target)`teeLinked, gst
      ensures gst.Later()
      // The process ends exactly if the way out or, once out, the way in hits a null pointer or a missing queue.
      ensures r == Aborted <==>
                || old(Trapped())
                || (element != null && old(Free()) && gst.Granted()
                    && target != null && (old(target.Bars()) || (target.front == this && target.ready)))
      // The graph stays consistent exactly when the detach could find a pipeline.
      ensures r != Aborted ==> (g.Valid() <==> old(Free()))
      ensures r != Aborted && !old(Free()) ==>
                old(source).queues == old(source.queues) && old(source).sinks == old(source.sinks)
      // It succeeds exactly if there is an element, a way out, a way in, and GStreamer refuses nothing.
      ensures r == Success <==>
                && element != null && old(Free() && !Trapped())
                && (target != null ==> old(target.Accepts()) && target.front != this) && gst.Granted()
      ensures element == null ==> r == NotInitialized && source == old(source)
      ensures r == Success ==> source == target
      ensures r != Success && r != Aborted && element != null ==> source == null
      ensures r != Aborted && target == null && old(source) != null && element != null && g.Valid() ==>
                && old(source).Lost(this)
                && old(source).sinks == old(source.sinks) - {element}
                && (!old(source).teeLinked || old(source.teeLinked))
                && (gst.Granted() && old(source.TeeHeld()) ==> old(source).TeeHeld())
      ensures forall s <- g.sources | old(s.TeeSound()) :: s.TeeSound()
      ensures r != Aborted && gst.Granted() ==> forall s <- g.sources | old(s.TeeExact()) :: s.TeeExact()
      ensures r == Success && target != null ==> target.Got(this, old(target.Bin()))
      ensures r != Aborted && element != null && old(Free()) && old(source) != null ==>
                (r == Success && old(source) == target) || old(source).Lost(this)
      ensures r != Aborted && r != Success && target != null && old(source) != target ==> target.Kept()
    {
      if element == null {
        return NotInitialized;
      }
      r := Leave(g, gst);
      if r != Success {
        return if r == Aborted then Aborted else InternalError;
      }
      if target != null {
        if target.front == this {
          assert !target.Accepts() && target.Bars() == target.ready;
        } else {
          target.SameWays();
        }
        assert target.queues - {this} == old(target.queues) - {this};
        r := Attach(target, g, gst);
      }
    }

    /** `SetSource(null)` for a sink that can leave. */
    method Unset(ghost g: Graph, gst: Gst) returns (r: Result)
      requires g.Valid() && this in g.sinks && Free() && !Trapped()
      modifies this`source, Touched(null)`queues, Touched(null)`sinks
      modifies Touched(null)`tee, Touched(null)`teeBin, Touched(null)`teeLinked, gst
      ensures g.Valid() && gst.Later() && r != Aborted
      ensures r == Success <==> element != null && gst.Granted()
      ensures source == if element == null then old(source) else null
      ensures old(source) != null && element != null ==>
                && old(source).Lost(this)
                && old(source).sinks == old(source.sinks) - {element}
                && (!old(source).teeLinked || old(source.teeLinked))
                && (gst.Granted() && old(source.TeeHeld()) ==> old(source).TeeHeld())
      ensures forall s <- g.sources | old(s.TeeSound()) :: s.TeeSound()
      ensures gst.Granted() ==> forall s <- g.sources | old(s.TeeExact()) :: s.TeeExact()
    {
      r := SetSource(null, g, gst);
    }

    /** Shuts the sink down: it leaves its source. A state change that has to be awaited decides the result alone. */
    method Term(async: bool, ghost g: Graph, gst: Gst) returns (r: Result)
      requires g.Valid() && this in g.sinks && back == null
      modifies this`source, Touched(null)`queues, Touched(null)`sinks
      modifies Touched(null)`tee, Touched(null)`teeBin, Touched(null)`teeLinked, gst
      ensures gst.Later() && (r == Aborted <==> old(Trapped()))
      ensures r != Aborted ==> (g.Valid() <==> old(Free()))
      ensures r != Aborted && element != null ==> source == null
      ensures element == null ==> source == old(source)
      ensures !async ==> (r == Success <==> element != null && old(Free() && !Trapped()) && gst.Granted())
      ensures async && !old(Trapped()) && gst.Granted() ==> r == Success
      ensures r != Aborted && old(source) != null && old(Free()) && element != null ==> old(source).Lost(this)
      ensures forall s <- g.sources | old(s.TeeSound()) :: s.TeeSound()
      ensures r != Aborted && gst.Granted() ==> forall s <- g.sources | old(s.TeeExact()) :: s.TeeExact()
    {
      r := SetSource(null, g, gst);
      if async && r != Aborted {
        var stopped := gst.Ask();
        r := if stopped then Success else InternalError;
      }
    }
  }

  class Source {
    var pipeline: Pipeline?
    var queues: map<Sink, Feed>    // attached sink -> its queue
    var sinks: map<Element, Sink>  // element of an attached sink -> that sink
    const front: Sink?             // the sink half when this source is a filter
    var ready: bool                // filter only: the filter element exists
    var tee: bool                  // filter only: the tee element exists
    var teeBin: Pipeline?          // filter only: the pipeline the tee is in, if any
    var teeLinked: bool            // filter only: the tee is linked to the filter element

    constructor (front: Sink?)
      ensures pipeline == null && queues == map[] && sinks == map[] && this.front == front
      ensures !ready && !tee && teeBin == null && !teeLinked
    {
      pipeline, queues, sinks, this.front := null, map[], map[], front;
      ready, tee, teeBin, teeLinked := false, false, null, false;
    }

    /** Adding or removing a sink on a filter dereferences the filter's own source. */
    predicate Touchable()
      reads this, front
    {
      front != null ==> front.source != null
    }

    /** The pipeline that adding and removing consult: a filter's is that of its own source. */
    function Bin(): Pipeline?
      reads this, front, if front == null then {} else {front.source}
    {
      if front == null then pipeline else if front.source == null then null else front.source.pipeline
    }

    /** That pipeline exists. */
    predicate Live()
      reads this, front, if front == null then {} else {front.source}
    {
      if front == null then pipeline != null else front.source != null && front.source.pipeline != null
    }

    /** Removing `k` hits a null pointer, or fails to find the queue of `k` where it looks for it. */
    predicate Traps(k: Sink)
      reads this, front, if front == null then {} else {front.source}
    {
      || (front != null && front.source == null)
      || (Bin() != null && k in queues && queues[k].bin != Bin())
    }

    /** Adding a sink hits a null pointer. */
    predicate Bars()
      reads this, front
    {
      front != null && ready && front.source == null
    }

    /** A new sink would be taken in, GStreamer permitting. */
    predicate Accepts()
      reads this, front, if front == null then {} else {front.source}
    {
      if front == null then pipeline != null
      else ready && front.source != null && front.source.pipeline != null
    }

    /** `k` went, if it was there; while sinks remain the tee stayed where it was. */
    twostate predicate Lost(k: Sink)
      reads this
    {
      queues == old(queues) - {k} && (front != null && queues != map[] ==> teeBin == old(teeBin))
    }

    /** Nothing came or went, and while there are sinks the tee stayed where it was. */
    twostate predicate Kept()
      reads this
    {
      unchanged(this`queues) && (front != null && queues != map[] ==> unchanged(this`teeBin))
    }

    /** `k` was put into `bin`, together with the tee if there were no others. */
    twostate predicate Got(k: Sink, bin: Pipeline?)
      reads this
    {
      && k in queues && queues[k].bin == bin && queues == (old(queues) - {k})[k := queues[k]]
      && (front != null ==> teeBin == if old(queues) - {k} == map[] then bin else old(teeBin))
    }

    /** Nothing changed that decides whether sinks can be added and where they go. */
    twostate lemma SameWays()
      requires unchanged(this`pipeline, this`ready)
      requires front != null ==> unchanged(front`source)
      requires front != null && front.source != null ==> unchanged(front.source`pipeline)
      ensures Accepts() == old(Accepts()) && Bars() == old(Bars()) && Bin() == old(Bin())
    {
    }

    /** An attached sink always has the tee in place, even after failed calls. */
    ghost predicate TeeSound()
      reads this
    {
      front != null ==>
        && (sinks != map[] ==> tee && teeBin != null && teeLinked)
        && (teeLinked ==> tee && ready)
    }

    /** The tee is in the pipeline and linked exactly while a sink is attached. */
    ghost predicate TeeExact()
      reads this
    {
      front != null ==> if sinks == map[] then teeBin == null && !teeLinked else tee && teeBin != null && teeLinked
    }

    /** The tee is in the pipeline exactly while a sink is attached, linked or not. */
    ghost predicate TeeHeld()
      reads this
    {
      front != null ==> (teeBin != null <==> sinks != map[])
    }

    twostate predicate SameTee()
      reads this
    {
      tee == old(tee) && teeBin == old(teeBin) && teeLinked == old(teeLinked)
    }

    /** Creates the pipeline, which stays even when the elements in it cannot be created or linked. */
    method Init(ghost g: Graph, gst: Gst) returns (r: Result)
      requires g.Valid() && this in g.sources
      modifies this`pipeline, gst
      ensures g.Valid() && pipeline != null && gst.Later()
      ensures if old(pipeline) != null then pipeline == old(pipeline) else fresh(pipeline)
      ensures r != Aborted && (r == Success <==> gst.Granted())
    {
      if pipeline != null {
        return Success;
      }
      assert front == null ==> queues == map[] by {
        assert g.Listed(this);
      }
      pipeline := new Pipeline();
      g.SameLinks();
      var done := gst.AskUpTo(3);  // source and tee made, linked
      r := if done then Success else InternalError;
    }

    /** Makes a filter ready once its element exists; `enableSource` gives it a pipeline of its own. */
    method InitFilter(enableSource: bool, ghost g: Graph, gst: Gst) returns (r: Result)
      requires g.Valid() && this in g.sources && front != null
      modifies this`pipeline, this`ready, front`element, gst
      ensures g.Valid() && gst.Later()
      ensures r != Aborted && (r == Success <==> gst.Granted())
      ensures ready <==> old(ready) || r == Success
      ensures r == Success ==> front.element != null
      ensures old(front.element) != null ==> front.element == old(front.element)
      ensures pipeline != null <==> old(pipeline) != null || enableSource
      ensures old(pipeline) != null ==> pipeline == old(pipeline)
      ensures old(pipeline) == null && pipeline != null ==> fresh(pipeline)
    {
      assert g.Listed(this);
      if enableSource {
        r := Init(g, gst);
        if r != Success {
          return;
        }
      }
      r := front.Init(g, gst);
      if r == Success {
        SetReady(g);
      }
    }

    method SetReady(ghost g: Graph)
      requires g.Valid()
      modifies this`ready
      ensures g.Valid() && ready
    {
      ready := true;
      g.SameLinks();
    }

    method AddSink(k: Sink, gst: Gst) returns (r: Result)
      requires k.element != null && k !in queues && (queues == map[] <==> sinks == map[])
      modifies this`queues, this`sinks, this`tee, this`teeBin, this`teeLinked, gst
      ensures gst.Later()
      ensures r == Success <==> old(Accepts()) && gst.Granted()
      ensures (r == Aborted <==> old(Bars())) && (r == Aborted ==> gst.Granted())
      ensures r == Success ==> Got(k, old(Bin())) && sinks == old(sinks)[k.element := k]
      ensures r != Success ==> Kept() && sinks == old(sinks)
      ensures front == null ==> SameTee()
      ensures old(TeeSound()) ==> TeeSound()
      ensures gst.Granted() && old(TeeExact()) ==> TeeExact()
    {
      if front == null {
        r := AddSinkPlain(k, gst);
      } else {
        r := AddSinkFilter(k, gst);
      }
    }

    method AddSinkPlain(k: Sink, gst: Gst) returns (r: Result)
      requires k.element != null && front == null
      modifies this`queues, this`sinks, gst
      ensures gst.Later()
      ensures r == Success <==> pipeline != null && k !in old(queues) && gst.Granted()
      ensures r == Success ==> Got(k, pipeline) && sinks == old(sinks)[k.element := k]
      ensures r != Success ==> queues == old(queues) && sinks == old(sinks)
      ensures r != Aborted && (pipeline == null ==> r == NotInitialized)
      ensures pipeline != null && k in old(queues) ==> r == InvalidArgument
    {
      if pipeline == null {
        return NotInitialized;
      }
      if k in queues {
        return InvalidArgument;
      }
      var linked := gst.AskUpTo(5);  // queue made and synchronized, sink linked and synchronized, tee linked
      if !linked {
        return InternalError;
      }
      var name: string := *;
      assert queues - {k} == queues;
      queues := queues[k := Feed(name, pipeline)];
      sinks := sinks[k.element := k];
      r := Success;
    }

    method AddSinkFilter(k: Sink, gst: Gst) returns (r: Result)
      requires k.element != null && k !in queues && front != null && (queues == map[] <==> sinks == map[])
      modifies this`queues, this`sinks, this`tee, this`teeBin, this`teeLinked, gst
      ensures gst.Later()
      ensures r == Success <==> ready && Live() && gst.Granted()
      ensures (r == Aborted <==> ready && front.source == null) && (r == Aborted ==> gst.Granted())
      ensures r == Success ==> Got(k, old(Bin())) && sinks == old(sinks)[k.element := k]
      ensures r != Success ==> Kept() && sinks == old(sinks)
      ensures !ready ==> r == NotInitialized
      ensures ready && front.source != null && r != Success ==> r == InternalError
      ensures old(TeeSound()) ==> TeeSound()
      ensures gst.Granted() && old(TeeExact()) ==> TeeExact()
    {
      if !ready {
        return NotInitialized;
      }
      if front.source == null {
        return Aborted;
      }
      var bin := front.source.pipeline;
      if bin == null {
        return InternalError;
      }
      if !tee {
        var made := gst.Ask();
        if !made {
          return InternalError;
        }
        tee := true;
      }
      var placed := gst.AskUpTo(6);  // queue made, added, synchronized; sink added, linked, synchronized
      if !placed {
        return InternalError;
      }
      if sinks == map[] {
        var inserted := InsertTee(bin, gst);
        if !inserted {
          return InternalError;
        }
      }
      var linked := gst.Ask();       // tee to queue
      if !linked {
        return InternalError;
      }
      var name: string := *;
      assert queues - {k} == queues;
      queues := queues[k := Feed(name, bin)];
      sinks := sinks[k.element := k];
      assert k.element in sinks;
      r := Success;
    }

    /** Puts the tee into the pipeline and links the filter element to it. */
    method InsertTee(bin: Pipeline, gst: Gst) returns (done: bool)
      modifies this`teeBin, this`teeLinked, gst
      ensures gst.Later() && (done <==> gst.Granted())
      ensures done ==> teeBin == bin && teeLinked
      ensures teeLinked ==> old(teeLinked) || done
    {
      done := gst.Ask();
      if done {
        teeBin := bin;
        done := gst.AskUpTo(2);      // tee synchronized, filter linked to it
        teeLinked := teeLinked || done;
      }
    }

    /**
      Erases the sink from both maps before touching GStreamer, whose failures come too late to matter. The queue
      is then looked up by its name in the pipeline consulted, and has to be there.
     */
    method RemoveSink(k: Sink, gst: Gst) returns (r: Result)
      requires k.element != null
      requires k in queues ==> k.element in sinks
      modifies this`queues, this`sinks, this`teeBin, this`teeLinked, gst
      ensures gst.Later() && (r == Aborted <==> old(Traps(k)))
      ensures r == Success <==> Live() && k in old(queues) && !old(Traps(k)) && gst.Granted()
      ensures Touchable() && !Live() ==> r == NotInitialized
      ensures Live() && k !in old(queues) ==> r == NoSink
      ensures Live() && k in old(queues) ==> queues == old(queues) - {k} && sinks == old(sinks) - {k.element}
      ensures !(Live() && k in old(queues)) ==> queues == old(queues) && sinks == old(sinks) && SameTee()
      ensures front == null ==> SameTee()
      ensures sinks != map[] ==> teeBin == old(teeBin)
      ensures old(TeeSound()) ==> TeeSound()
      ensures r != Aborted && gst.Granted() && old(TeeExact()) ==> TeeExact()
      ensures r != Aborted && gst.Granted() && old(TeeHeld()) ==> TeeHeld()
      ensures !teeLinked || old(teeLinked)
    {
      if front != null && front.source == null {
        return Aborted;
      }
      var bin := if front == null then pipeline else front.source.pipeline;
      if bin == null {
        return NotInitialized;
      }
      if k !in queues {
        return NoSink;
      }
      var feed := queues[k];
      sinks := sinks - {k.element};
      queues := queues - {k};
      if feed.bin != bin {
        return Aborted;
      }
      var removed := gst.AskUpTo(2);   // queue and sink out of the pipeline
      if !removed {
        return InternalError;
      }
      if front != null && sinks == map[] {
        teeLinked := false;
        var teeRemoved := gst.Ask();
        if !teeRemoved {
          return InternalError;
        }
        teeBin := null;
      }
      r := Success;
    }

    /** Every sink can leave: its queue is where it will be looked for. */
    predicate AllFree()
      reads this, front, if front == null then {} else {front.source}
    {
      forall k <- queues :: queues[k].bin == Bin()
    }

    /**
      The loop both shutdowns share. It walks the queue map while every `SetSource(null)` erases the
      entry just left, so the entries still ahead of the iterator must all survive.
     */
    method DetachAll(ghost g: Graph, gst: Gst) returns (r: Result, ghost visited: seq<Sink>)
      requires g.Valid() && this in g.sources && AllFree()
      modifies queues.Keys`source, this`queues, this`sinks, this`tee, this`teeBin, this`teeLinked, gst
      ensures g.Valid() && queues == map[] && sinks == map[] && gst.Later()
      ensures front != null ==> front.source == old(front.source)
      ensures forall k <- old(queues) :: k.source == null
      ensures multiset(visited) == multiset(old(queues.Keys))
      ensures r != Aborted && (gst.Granted() ==> r == Success)
      ensures old(teeLinked) || !teeLinked
      ensures gst.Granted() && old(TeeHeld()) ==> TeeHeld()
    {
      r, visited := Success, [];
      assert g.Listed(this);
      g.NoneLeft(this);
      ghost var all := queues.Keys;
      var ahead := queues.Keys;  // the entries at or after the iterator
      while ahead != {}
        invariant g.Valid() && ahead == queues.Keys && (ahead == {} ==> sinks == map[]) && gst.Later()
        invariant AllFree()
        invariant front != null ==> front.source == old(front.source)
        invariant Walk(all, ahead, visited)
        invariant forall k <- visited :: k.source == null
        invariant r != Aborted && (gst.Granted() ==> r == Success)
        invariant old(teeLinked) || !teeLinked
        invariant gst.Granted() && old(TeeHeld()) ==> TeeHeld()
      {
        var cur :| cur in ahead;
        WalkOn(all, ahead, visited, cur);
        ahead := ahead - {cur};
        r, visited := DetachNext(cur, visited, g, gst);
      }
      WalkReachesAll(all, visited);
    }

    /** One turn of the loop. */
    method DetachNext(cur: Sink, ghost before: seq<Sink>, ghost g: Graph, gst: Gst)
      returns (r: Result, ghost visited: seq<Sink>)
      requires g.Valid() && this in g.sources && cur in queues && AllFree()
      requires forall k <- before :: k.source == null
      modifies cur`source, this`queues, this`sinks, this`tee, this`teeBin, this`teeLinked, gst
      ensures g.Valid() && cur in g.sinks && cur.source == null && gst.Later()
      ensures queues.Keys == old(queues.Keys) - {cur}
      ensures AllFree() && (front != null ==> cur != front && front.source == old(front.source))
      ensures queues.Keys == {} ==> sinks == map[]
      ensures visited == before + [cur] && forall k <- visited :: k.source == null
      ensures r != Aborted && (r == Success <==> gst.Granted())
      ensures old(teeLinked) || !teeLinked
      ensures gst.Granted() && old(TeeHeld()) ==> TeeHeld()
    {
      assert g.Listed(this) && g.Placed(cur) && queues[cur].bin == Bin();
      r := cur.Unset(g, gst);
      SameWays();
      visited := before + [cur];
      g.NoneLeft(this);
    }

    /** Shuts a source down: every attached sink forgets it and the pipeline goes. */
    method Term(ghost g: Graph, gst: Gst) returns (r: Result, ghost visited: seq<Sink>)
      requires g.Valid() && this in g.sources && front == null
      modifies this`pipeline, queues.Keys`source, this`queues, this`sinks, this`tee, this`teeBin, this`teeLinked, gst
      ensures g.Valid() && pipeline == null && queues == map[] && sinks == map[] && gst.Later()
      ensures r != Aborted && (old(pipeline) == null ==> r == NotInitialized)
      ensures old(pipeline) != null && gst.Granted() ==> r == Success
      ensures forall k <- g.sinks :: k.source == if old(k.source) == this then null else old(k.source)
      ensures multiset(visited) == multiset(old(queues.Keys))
    {
      visited := [];
      assert g.Listed(this) && forall k <- g.sinks :: g.Placed(k);
      if pipeline == null {
        g.NoneLeft(this);
        assert queues.Keys == {};
        return NotInitialized, visited;
      }
      r, visited := DetachAll(g, gst);
      DropPipeline(g);
    }

    method DropPipeline(ghost g: Graph)
      requires g.Valid() && queues == map[]
      modifies this`pipeline
      ensures g.Valid() && pipeline == null
    {
      pipeline := null;
      g.SameLinks();
    }

    /** A filter can shut down: its sinks and itself can leave, the latter also after the former have. */
    predicate Stoppable()
      reads this, front
      reads if front == null then {} else {front.source}
      reads if front == null || front.source == null then {} else {front.source.front}
      reads if front == null || front.source == null || front.source.front == null then {}
            else {front.source.front.source}
    {
      && AllFree()
      && (front != null && front.source != null ==>
            && front.source.Live() && !front.source.Traps(front)
            && (front.source.front != null ==> front.source.front.source != this))
    }

    /** Shuts a filter down: its sinks leave it, it leaves its own source, and its tee is dropped. */
    method TermFilter(async: bool, ghost g: Graph, gst: Gst) returns (r: Result, ghost visited: seq<Sink>)
      requires g.Valid() && this in g.sources && front != null && Stoppable()
      modifies this`ready, this`queues, this`sinks, this`tee, this`teeBin, this`teeLinked
      modifies queues.Keys`source, front`source, gst
      modifies front.Touched(null)`queues, front.Touched(null)`sinks
      modifies front.Touched(null)`tee, front.Touched(null)`teeBin, front.Touched(null)`teeLinked
      ensures g.Valid() && queues == map[] && sinks == map[] && !tee && !ready && gst.Later()
      ensures r != Aborted && front.source == null
      ensures gst.Granted() ==> (r == Success <==> async || front.element != null)
      ensures old(front.source) != null ==> old(front.source).Lost(front)
      ensures forall k <- old(queues) :: k.source == null
      ensures multiset(visited) == multiset(old(queues.Keys))
      ensures old(TeeSound()) ==> !teeLinked
      ensures gst.Granted() && old(TeeSound() && TeeExact()) ==> teeBin == null && !teeLinked
      ensures forall s <- g.sources | s != this && old(s.TeeSound()) :: s.TeeSound()
      ensures gst.Granted() ==> forall s <- g.sources | s != this && old(s.TeeExact()) :: s.TeeExact()
    {
      assert g.Listed(this) && g.Placed(front);
      r, visited := TermSinks(g, gst);
      assert forall s <- g.sources | s != this ::
          s.TeeSound() == old(s.TeeSound()) && s.TeeExact() == old(s.TeeExact());
      r := LeaveUpstream(async, g, gst);
    }

    /** The first half of a filter's shutdown: unlink the tee, then send every sink away. */
    method TermSinks(ghost g: Graph, gst: Gst) returns (r: Result, ghost visited: seq<Sink>)
      requires g.Valid() && this in g.sources && front != null && AllFree()
      modifies queues.Keys`source, this`queues, this`sinks, this`tee, this`teeBin, this`teeLinked, gst
      ensures g.Valid() && queues == map[] && sinks == map[] && gst.Later()
      ensures front.source == old(front.source)
      ensures forall k <- old(queues) :: k.source == null
      ensures multiset(visited) == multiset(old(queues.Keys))
      ensures old(TeeSound()) ==> !teeLinked
      ensures gst.Granted() && old(TeeExact()) ==> teeBin == null
    {
      UnlinkTee(g);
      r, visited := DetachAll(g, gst);
    }

    method UnlinkTee(ghost g: Graph)
      requires g.Valid()
      modifies this`teeLinked
      ensures g.Valid()
      ensures teeLinked <==> old(teeLinked) && !(tee && ready)
    {
      if tee && ready {
        teeLinked := false;
      }
      g.SameLinks();
    }

    /** The end of a filter's shutdown: its sink half leaves its source and the tee is released. */
    method LeaveUpstream(async: bool, ghost g: Graph, gst: Gst) returns (r: Result)
      requires g.Valid() && this in g.sources && front != null && queues == map[] && sinks == map[]
      requires front.source != null ==> front.source.Live() && !front.source.Traps(front)
      modifies front`source, this`ready, this`tee, gst
      modifies front.Touched(null)`queues, front.Touched(null)`sinks
      modifies front.Touched(null)`tee, front.Touched(null)`teeBin, front.Touched(null)`teeLinked
      ensures g.Valid() && r != Aborted && front.source == null && !tee && !ready && gst.Later()
      ensures queues == map[] && sinks == map[] && teeBin == old(teeBin) && teeLinked == old(teeLinked)
      ensures old(front.source) != null ==> old(front.source).Lost(front)
      ensures !async ==> (r == Success <==> front.element != null && gst.Granted())
      ensures async && gst.Granted() ==> r == Success
      ensures forall s <- g.sources | s != this && old(s.TeeSound()) :: s.TeeSound()
      ensures gst.Granted() ==> forall s <- g.sources | s != this && old(s.TeeExact()) :: s.TeeExact()
    {
      assert g.Listed(this) && g.Placed(front);
      if front.source != null {
        assert g.Listed(front.source) && front in front.source.queues;
      }
      r := front.Unset(g, gst);
      if async {
        var stopped := gst.Ask();
        r := if stopped then Success else InternalError;
      }
      ReleaseTee(g);
    }

    method ReleaseTee(ghost g: Graph)
      requires g.Valid()
      modifies this`tee, this`ready
      ensures g.Valid() && !tee && !ready
    {
      tee, ready := false, false;
      g.SameLinks();
    }
  }

  /** Starting at `all`, taking `visited` out one by one leaves `ahead`. */
  ghost predicate Walk(all: set<Sink>, ahead: set<Sink>, visited: seq<Sink>)
    decreases |visited|
  {
    if visited == [] then
      ahead == all
    else
      var last := visited[|visited| - 1];
      last !in ahead && Walk(all, ahead + {last}, visited[..|visited| - 1])
  }

  lemma WalkOn(all: set<Sink>, ahead: set<Sink>, visited: seq<Sink>, cur: Sink)
    requires Walk(all, ahead, visited) && cur in ahead
    ensures Walk(all, ahead - {cur}, visited + [cur])
  {
    assert (visited + [cur])[..|visited|] == visited;
    assert ahead - {cur} + {cur} == ahead;
  }

  /** A finished walk went past everything exactly once. */
  lemma {:induction false} WalkIsOnce(all: set<Sink>, ahead: set<Sink>, visited: seq<Sink>)
    requires Walk(all, ahead, visited)
    ensures multiset(visited) + multiset(ahead) == multiset(all)
    decreases |visited|
  {
    if visited != [] {
      var before, last := visited[..|visited| - 1], visited[|visited| - 1];
      WalkIsOnce(all, ahead + {last}, before);
      assert visited == before + [last];
    }
  }

  lemma WalkReachesAll(all: set<Sink>, visited: seq<Sink>)
    requires Walk(all, {}, visited)
    ensures multiset(visited) == multiset(all) && forall k <- all :: k in visited
  {
    WalkIsOnce(all, {}, visited);
    forall k <- all ensures k in visited {
      assert multiset(all)[k] == 1;
    }
  }

  class Graph {
    var sources: seq<Source>
    var sinks: seq<Sink>

    /** Both maps of `s` list exactly the sinks that point back at `s`; a plain source has their queues in it. */
    ghost predicate Listed(s: Source)
      reads this, s, sinks
    {
      && (forall k <- s.queues ::
            k in sinks && k.source == s && k.element != null && k.element in s.sinks && s.sinks[k.element] == k)
      && (forall e <- s.sinks :: s.sinks[e] in s.queues && s.sinks[e].element == e)
      && (s.front == null ==> forall k <- s.queues :: s.queues[k].bin == s.pipeline)
      && (s.front != null ==> s.front in sinks && s.front.back == s)
    }

    /** The source `k` points at knows `k` and is not its own filter; the element of `k` is its own. */
    ghost predicate Placed(k: Sink)
      reads this, k, sources
    {
      && (k.source != null ==> k.source in sources && k in k.source.queues && k.source.front != k)
      && (k.element != null ==> k.element.owner == k)
      && (k.back != null ==> k.back in sources && k.back.front == k)
    }

    ghost predicate Valid()
      reads this, sources, sinks
    {
      && (forall s {:trigger Listed(s)} | s in sources :: Listed(s))
      && (forall k {:trigger Placed(k)} | k in sinks :: Placed(k))
    }

    /** Every filter with a sink has its tee in place. */
    ghost predicate Sound()
      reads this, sources
    {
      forall s {:trigger s.TeeSound()} | s in sources :: s.TeeSound()
    }

    /** Every filter has its tee in place exactly while it has a sink. */
    ghost predicate Exact()
      reads this, sources
    {
      forall s {:trigger s.TeeExact()} | s in sources :: s.TeeExact()
    }

    /** The sinks of a filter and its tee are in one pipeline, that of the source the filter is attached to, if any. */
    ghost predicate RootedAt(s: Source)
      reads this, s, sources, sinks
    {
      s.front != null && s.queues != map[] ==>
        && (forall k <- s.queues :: s.queues[k].bin == s.teeBin)
        && (s.front in sinks && s.front.source in sources ==> s.teeBin == s.front.source.pipeline)
    }

    /** Every filter is rooted. */
    ghost predicate Rooted()
      reads this, sources, sinks
    {
      forall s {:trigger RootedAt(s)} | s in sources :: RootedAt(s)
    }

    constructor ()
      ensures Valid() && Sound() && Exact() && Rooted() && sources == [] && sinks == []
    {
      sources, sinks := [], [];
    }

    /** Only pipelines came, or went from sources without sinks. */
    twostate lemma SameLinks()
      requires old(Valid()) && sources == old(sources) && sinks == old(sinks)
      requires forall s <- sources :: s.queues == old(s.queues) && s.sinks == old(s.sinks)
      requires forall s <- sources :: s.front != null || s.queues == map[] || s.pipeline == old(s.pipeline)
      requires forall k <- sinks :: k.source == old(k.source) && k.element == old(k.element) && k.back == old(k.back)
      ensures Valid()
    {
      forall s | s in sources ensures Listed(s) {
        assert old(Listed(s));
      }
      forall k | k in sinks ensures Placed(k) {
        assert old(Placed(k));
      }
    }

    /** Only new objects came. */
    twostate lemma Grown()
      requires old(Valid()) && old(sources) <= sources && old(sinks) <= sinks
      requires forall s <- old(sources) :: unchanged(s)
      requires forall k <- old(sinks) :: unchanged(k)
      requires forall i | |old(sources)| <= i < |sources| :: Listed(sources[i])
      requires forall i | |old(sinks)| <= i < |sinks| :: Placed(sinks[i])
      ensures Valid()
    {
      forall s | s in sources ensures Listed(s) {
        if s in old(sources) {
          assert old(Listed(s));
        }
      }
      forall k | k in sinks ensures Placed(k) {
        if k in old(sinks) {
          assert old(Placed(k));
        }
      }
    }

    /** Only `j` got its element. */
    twostate lemma NewElement(j: Sink)
      requires old(Valid()) && sources == old(sources) && sinks == old(sinks) && j in sinks
      requires forall s <- sources :: s.queues == old(s.queues) && s.sinks == old(s.sinks)
      requires forall s <- sources :: s.pipeline == old(s.pipeline)
      requires forall k <- sinks :: k.source == old(k.source) && k.back == old(k.back)
      requires forall k <- sinks | k != j :: k.element == old(k.element)
      requires old(j.element) == null && j.element != null && j.element.owner == j
      ensures Valid()
    {
      forall s | s in sources ensures Listed(s) {
        assert old(Listed(s));
      }
      forall k | k in sinks ensures Placed(k) {
        assert old(Placed(k));
      }
    }

    /** The source that `k` was or is linked to. */
    twostate function Partner(k: Sink): Source?
      reads k
    {
      if old(k.source) != null then old(k.source) else k.source
    }

    /** Only the link between `j` and its source came or went. */
    twostate lemma OneLink(j: Sink)
      requires old(Valid()) && sources == old(sources) && sinks == old(sinks) && j in sinks
      requires forall s <- sources | s != Partner(j) :: s.queues == old(s.queues) && s.sinks == old(s.sinks)
      requires forall s <- sources :: s.pipeline == old(s.pipeline)
      requires forall k <- sinks | k != j :: k.source == old(k.source)
      requires forall k <- sinks :: k.element == old(k.element) && k.back == old(k.back)
      requires var t := Partner(j);
               t != null && t in old(sources) && forall k <- old(t.queues) | k != j :: k in t.queues
      ensures Listed(Partner(j)) && Placed(j) ==> Valid()
    {
      forall s | s in sources && s != Partner(j) ensures Listed(s) {
        assert old(Listed(s)) && old(Placed(j));
      }
      forall k | k in sinks && k != j ensures Placed(k) {
        assert old(Placed(k));
      }
    }

    /** Only the link from `j` to its source went. */
    twostate lemma Parted(j: Sink)
      requires old(Valid()) && sources == old(sources) && sinks == old(sinks) && j in sinks
      requires old(j.source) != null && j.source == null && j.element != null
      requires var t := old(j.source);
               t in old(sources) && t.queues == old(t.queues) - {j} && t.sinks == old(t.sinks) - {j.element}
      requires forall s <- sources | s != old(j.source) :: s.queues == old(s.queues) && s.sinks == old(s.sinks)
      requires forall s <- sources :: s.pipeline == old(s.pipeline)
      requires forall k <- sinks | k != j :: k.source == old(k.source)
      requires forall k <- sinks :: k.element == old(k.element) && k.back == old(k.back)
      ensures Valid()
    {
      var t := old(j.source);
      assert old(Listed(t)) && old(Placed(j));
      assert Listed(t);
      OneLink(j);
    }

    /** Only the link from `j` to its source came. */
    twostate lemma Joined(j: Sink)
      requires old(Valid()) && sources == old(sources) && sinks == old(sinks) && j in sinks
      requires old(j.source) == null && j.element != null
      requires var t := j.source;
               && t != null && t in old(sources) && t.front != j
               && j in t.queues && t.queues == (old(t.queues) - {j})[j := t.queues[j]]
               && t.sinks == old(t.sinks)[j.element := j]
               && (t.front == null ==> t.queues[j].bin == t.pipeline)
      requires forall s <- sources | s != j.source :: s.queues == old(s.queues) && s.sinks == old(s.sinks)
      requires forall s <- sources :: s.pipeline == old(s.pipeline)
      requires forall k <- sinks | k != j :: k.source == old(k.source)
      requires forall k <- sinks :: k.element == old(k.element) && k.back == old(k.back)
      ensures Valid()
    {
      var t := j.source;
      assert old(Listed(t)) && old(Placed(j));
      assert forall k <- old(t.queues) :: old(Placed(k));
      assert Listed(t);
      OneLink(j);
    }

    /** No link changed and no tee of a filter with sinks; objects and pipelines may have come. */
    twostate lemma RootsUnmoved()
      requires old(Valid() && Rooted()) && old(sources) <= sources && old(sinks) <= sinks
      requires forall s <- old(sources) :: s.Kept() && (old(s.pipeline) != null ==> s.pipeline == old(s.pipeline))
      requires forall s <- sources :: s in old(sources) || s.queues == map[]
      requires forall k <- old(sinks) :: k.source == old(k.source)
      ensures Rooted()
    {
      forall s | s in sources && s.front != null && s.queues != map[] ensures RootedAt(s) {
        assert s.Kept() && old(Listed(s)) && old(RootedAt(s)) && old(Placed(s.front));
      }
    }

    /** Sinks left, `j` the last of them perhaps, and pipelines went that no sink is attached to any more. */
    twostate lemma RootsFreed(j: Sink?)
      requires old(Valid() && Rooted()) && sources == old(sources) && sinks == old(sinks)
      requires forall s <- sources :: s.queues == map[] || s.Kept() || (j != null && s.Lost(j))
      requires forall k <- sinks :: k.source == null || k.source == old(k.source)
      requires forall s <- sources :: s.pipeline == old(s.pipeline) || forall k <- sinks :: k.source != s
      ensures Rooted()
    {
      forall s | s in sources && s.front != null && s.queues != map[] ensures RootedAt(s) {
        assert s.Kept() || (j != null && s.Lost(j));
        assert old(Listed(s)) && old(RootedAt(s)) && old(Placed(s.front));
      }
    }

    /** `j` was moved: every filter is still rooted but perhaps its own, which is if it stands where its sinks are. */
    twostate lemma RootsAfterMove(j: Sink)
      requires old(Valid() && Rooted()) && sources == old(sources) && sinks == old(sinks) && j in sinks
      requires forall s <- sources :: s.pipeline == old(s.pipeline)
      requires forall s <- sources :: s.Kept() || s.Lost(j) || (s == j.source && s.front != j && s.Got(j, BinOf(s)))
      requires forall k <- sinks | k != j :: k.source == old(k.source)
      requires j.back == old(j.back) && (j.source != null ==> j.source in sources)
      requires j.back != null ==> j.back in old(sources) && j.back.Kept()
      ensures Rooted() <==>
              j.back == null || j.back.queues == map[] || j.source == null || j.source.pipeline == j.back.teeBin
    {
      forall s | s in sources && s != j.back && s.front != null && s.queues != map[] ensures RootedAt(s) {
        assert old(Listed(s)) && old(RootedAt(s)) && old(Placed(s.front));
      }
      if j.back != null {
        assert old(Listed(j.back)) && old(RootedAt(j.back)) && old(Placed(j));
        assert RootedAt(j.back) <==>
               j.back.queues == map[] || j.source == null || j.source.pipeline == j.back.teeBin;
      }
    }

    /** Pointer, queue entry and element entry say the same thing of every sink and source. */
    lemma AttachedIff(k: Sink, s: Source)
      requires Valid() && k in sinks && s in sources
      ensures k.source == s <==> k in s.queues
      ensures k.source == s <==> k.element != null && k.element in s.sinks && s.sinks[k.element] == k
    {
      assert Placed(k) && Listed(s);
    }

    /** No element entry of a source belongs to a sink that is not attached to it. */
    lemma NothingElse(s: Source, e: Element)
      requires Valid() && s in sources && e in s.sinks
      ensures s.sinks[e] in sinks && s.sinks[e].source == s && s.sinks[e].element == e
      ensures e.owner == s.sinks[e]
    {
      assert Listed(s) && Placed(s.sinks[e]);
    }

    lemma NoneLeft(s: Source)
      requires Valid() && s in sources
      ensures s.queues == map[] <==> s.sinks == map[]
    {
      assert Listed(s);
      if k :| k in s.queues {
        assert k.element in s.sinks;
      }
      if s.sinks != map[] {
        var e :| e in s.sinks;
        assert s.sinks[e] in s.queues;
      }
    }

    /** A sink behind a plain source, or behind an attached filter that is rooted, can always be detached. */
    lemma RootedCanLeave(k: Sink)
      requires Valid() && k in sinks && k.source != null && k.source.Touchable() && RootedAt(k.source)
      ensures k.source.Live() && !k.source.Traps(k) && CanLeave(k)
    {
      assert Placed(k) && Listed(k.source);
      if k.source.front != null {
        assert Placed(k.source.front);
      }
    }

    // -------------------------------------------------------------------------
    // New objects
    // -------------------------------------------------------------------------

    method NewSink() returns (k: Sink)
      requires Valid()
      modifies this`sinks
      ensures Valid() && fresh(k) && sinks == old(sinks) + [k] && TeesKept(true)
      ensures old(Rooted()) ==> Rooted()
      ensures k.element == null && k.source == null && k.back == null
    {
      k := new Sink();
      sinks := sinks + [k];
      Grown();
      if old(Rooted()) {
        RootsUnmoved();
      }
    }

    method NewSource() returns (s: Source)
      requires Valid()
      modifies this`sources
      ensures Valid() && fresh(s) && sources == old(sources) + [s] && TeesKept(true)
      ensures old(Rooted()) ==> Rooted()
      ensures s.front == null && s.pipeline == null && s.queues == map[] && s.sinks == map[]
    {
      s := new Source(null);
      sources := sources + [s];
      Grown();
      if old(Rooted()) {
        RootsUnmoved();
      }
      assert forall t <- old(sources) :: old(t.TeeSound()) <==> t.TeeSound();
    }

    /** A filter: a sink half and a source half that know each other. */
    method NewFilter() returns (s: Source)
      requires Valid()
      modifies this`sources, this`sinks
      ensures Valid() && fresh(s) && sources == old(sources) + [s] && TeesKept(true)
      ensures old(Rooted()) ==> Rooted()
      ensures s.front != null && fresh(s.front) && sinks == old(sinks) + [s.front] && s.front.back == s
      ensures s.pipeline == null && s.queues == map[] && s.sinks == map[]
      ensures !s.ready && !s.tee && s.teeBin == null && !s.teeLinked
      ensures s.front.element == null && s.front.source == null
    {
      var k := new Sink();
      s := new Source(k);
      k.back := s;
      sources, sinks := sources + [s], sinks + [k];
      Grown();
      if old(Rooted()) {
        RootsUnmoved();
      }
      assert forall t <- old(sources) :: old(t.TeeSound()) <==> t.TeeSound();
    }

    // -------------------------------------------------------------------------
    // Every run
    // -------------------------------------------------------------------------

    /** The pipeline that `s` consults, as far as it belongs to the graph. */
    function BinOf(s: Source): Pipeline?
      reads this, s, sources, sinks
    {
      if s.front == null then s.pipeline
      else if s.front in sinks && s.front.source in sources then s.front.source.pipeline
      else null
    }

    lemma BinOfIs(s: Source)
      requires Valid() && s in sources
      ensures BinOf(s) == s.Bin()
    {
      assert Listed(s);
      if s.front != null {
        assert Placed(s.front);
      }
    }

    /** The way out of `k` is open: its queue is in the pipeline in which it will be looked for. */
    predicate CanLeave(k: Sink)
      requires k in sinks
      reads this, sources, sinks
    {
      k.source != null ==>
        k.source in sources && k in k.source.queues && k.source.queues[k].bin == BinOf(k.source)
    }

    /** What the code demands of a caller, who would otherwise end the process or leave a stale entry behind. */
    predicate Allowed(op: Op)
      reads this, sources, sinks
    {
      match op
      case InitSink(k) => k < |sinks|
      case InitSource(s) => s < |sources| && sources[s].front == null
      case InitFilter(s, _) => s < |sources| && sources[s].front != null
      case Attach(k, target) =>
        && k < |sinks| && CanLeave(sinks[k])
        && (target.Some? ==> target.value < |sources| && CanHold(sources[target.value], sinks[k]))
      case StopSink(k, _) => k < |sinks| && sinks[k].back == null && CanLeave(sinks[k])
      case StopSource(s) => s < |sources| && sources[s].front == null
      case StopFilter(s, _) => s < |sources| && sources[s].front != null && CanStop(sources[s])
      case _ => true
    }

    /** A ready filter can be added to only while it is attached, which it is not to itself. */
    predicate CanHold(s: Source, k: Sink)
      requires s in sources
      reads this, sources, sinks
    {
      s.front != null && s.ready ==> s.front != k && s.front in sinks && s.front.source != null
    }

    /** Every sink of a filter can leave, and after them the filter itself. */
    predicate CanStop(s: Source)
      requires s in sources && s.front != null
      reads this, sources, sinks
    {
      && s.front in sinks && CanLeave(s.front)
      && (s.front.source != null && s.front.source.front != null ==> s.front.source.front.source != s)
      && (forall k <- s.queues :: s.queues[k].bin == BinOf(s))
    }

    /** The sink has its element, and the target, if any, is one that takes sinks in. */
    predicate Takes(k: Sink, target: Option<nat>)
      requires k in sinks
      reads this, sources, sinks
    {
      && k.element != null
      && (target.Some? && target.value < |sources| ==>
            var s := sources[target.value];
            BinOf(s) != null && (s.front != null ==> s.ready && s.front != k))
    }

    /** Attaching `k` to `target` moves a filter that holds sinks away from where they are. */
    predicate Uproots(k: Sink, target: Option<nat>)
      reads this, k, sources
    {
      && k.back != null && k.back in sources && k.back.queues != map[]
      && target.Some? && target.value < |sources| && sources[target.value].pipeline != k.back.teeBin
    }

    predicate Moves(op: Op)
      reads this, sources, sinks
    {
      op.Attach? && op.k < |sinks| && Uproots(sinks[op.k], op.target)
    }

    /**
      Any run of allowed operations, in any order on any objects, keeps the graph consistent and every
      attached sink behind its tee. Each tee is in place only while needed if GStreamer refuses nothing,
      and also if every operation reports success and none of them is one that hides a refusal. In a `steady`
      run, one that moves no filter away from the sinks it holds, every filter stays rooted.
     */
    method Run(ops: seq<Op>, steady: bool, gst: Gst) returns (results: seq<Option<Result>>)
      requires Valid()
      modifies this, sinks, sources, gst
      ensures Valid() && gst.Later() && |results| == |ops|
      ensures TeesKept(gst.Granted())
      ensures TeesKept((forall op <- ops :: Honest(op)) && AllSucceed(results))
      ensures steady && old(Rooted()) ==> Rooted()
      // Whatever the run creates is there.
      ensures |sinks| == |old(sinks)| + NewSinks(ops, |ops|) && |sources| == |old(sources)| + NewSources(ops, |ops|)
    {
      results := [];
      for i := 0 to |ops|
        invariant Valid() && gst.Later() && |results| == i
        invariant forall i | 0 <= i < |sources| :: sources[i] in old(sources) || fresh(sources[i])
        invariant forall i | 0 <= i < |sinks| :: sinks[i] in old(sinks) || fresh(sinks[i])
        invariant TeesKept(gst.Granted())
        invariant TeesKept((forall j | 0 <= j < i :: Honest(ops[j])) && AllSucceed(results))
        invariant steady && old(Rooted()) ==> Rooted()
        invariant |sinks| == |old(sinks)| + NewSinks(ops, i) && |sources| == |old(sources)| + NewSources(ops, i)
      {
        var r := Turn(ops[i], steady, gst);
        assert AllSucceed(results + [r]) ==> AllSucceed(results) && r in {None, Some(Success)} by {
          assert (results + [r])[|results|] == r && (results + [r])[..|results|] == results;
        }
        results := results + [r];
      }
    }

    /** One operation of a run, which is performed exactly if it is allowed (and, in a steady run, moves no filter). */
    method Turn(op: Op, steady: bool, gst: Gst) returns (r: Option<Result>)
      requires Valid()
      modifies this, sinks, sources, gst
      ensures Valid() && gst.Later()
      ensures r.Some? <==> old(Allowed(op) && !(steady && Moves(op)))
      ensures r.Some? ==> Done(op, r.value)
      ensures r.None? ==> sinks == old(sinks) && sources == old(sources)
      ensures forall i | 0 <= i < |sources| :: sources[i] in old(sources) || fresh(sources[i])
      ensures forall i | 0 <= i < |sinks| :: sinks[i] in old(sinks) || fresh(sinks[i])
      ensures TeesKept(gst.Granted() || (r in {None, Some(Success)} && Honest(op)))
      ensures steady && old(Rooted()) ==> Rooted()
      ensures |sinks| == |old(sinks)| + (if op.NewSink? || op.NewFilter? then 1 else 0)
      ensures |sources| == |old(sources)| + (if op.NewSource? || op.NewFilter? then 1 else 0)
    {
      r := None;
      if Allowed(op) && !(steady && Moves(op)) {
        var result := Perform(op, gst);
        r := Some(result);
      }
    }

    /** An attached filter has its tee in the pipeline of its source, linked, exactly while it has sinks. */
    ghost predicate InPlace(s: Source)
      reads this, s, sources, sinks
    {
      s.front != null && s.front in sinks && s.front.source in sources ==>
        && (s.sinks != map[] <==> s.teeLinked && s.teeBin != null && s.teeBin == s.front.source.pipeline)
        && (s.sinks == map[] ==> !s.teeLinked && s.teeBin == null)
    }

    lemma ExactInPlace(s: Source)
      requires Valid() && s in sources && s.TeeExact() && RootedAt(s)
      ensures InPlace(s)
    {
      NoneLeft(s);
    }

    /** The same from the very start: whatever is built, linked and shut down. */
    static method RunFromStart(ops: seq<Op>, steady: bool, gst: Gst) returns (g: Graph, results: seq<Option<Result>>)
      modifies gst
      ensures fresh(g) && g.Valid() && g.Sound()
      ensures gst.Granted() ==> g.Exact()
      ensures gst.Obliging() ==> gst.Granted()
      ensures steady ==> g.Rooted()
      ensures steady && gst.Granted() ==> forall s <- g.sources :: g.InPlace(s)
    {
      g := new Graph();
      results := g.Run(ops, steady, gst);
      if steady && gst.refusals == old(gst.refusals) {
        forall s <- g.sources ensures g.InPlace(s) {
          g.ExactInPlace(s);
        }
      }
    }

    /**
      The way to an inconsistent graph, with GStreamer granting everything: a filter takes a sink in behind a plain
      source, moves behind a filter without a pipeline of its own, and the sink is then detached.
     */
    static method OrphanedEntry(gst: Gst) returns (g: Graph, f: Source, k: Sink)
      requires gst.Obliging()
      modifies gst
      ensures k in f.queues && k.source == null && f in g.sources && k in g.sinks && !g.Valid()
    {
      g, f, k := StrandedFilter(gst);
      assert g.Placed(k) && g.Listed(f);
      var _ := k.SetSource(null, g, gst);
    }

    static method StrandedFilter(gst: Gst) returns (g: Graph, f: Source, k: Sink)
      requires gst.Obliging()
      modifies gst
      ensures fresh(g) && g.Valid() && k in g.sinks && k.source == f && f in g.sources && fresh(k) && fresh(f)
      ensures f.Touchable() && !f.Live() && k in f.queues
    {
      g := new Graph();
      var s, u;
      s, f, u, k := g.Assemble(false);
      g.InitAll(s, f, u, k, gst);
      g.Wire(s, f, u, k, gst);
      g.MoveBehind(s, f, u, k, gst);
      assert g.Placed(k);
    }

    /**
      A filter takes a sink in behind one plain source and moves behind another, with GStreamer granting everything.
      The pipeline it now consults exists but holds neither its tee nor the queue of the sink.
     */
    static method MovedFilter(gst: Gst) returns (g: Graph, f: Source, k: Sink)
      requires gst.Obliging()
      modifies gst
      ensures fresh(g) && g.Valid() && k in g.sinks && k.source == f && f in g.sources && fresh(k) && fresh(f)
      ensures f.Live() && f.teeBin != f.Bin() && k in f.queues && f.queues[k].bin != f.Bin()
    {
      g := new Graph();
      var s, u;
      s, f, u, k := g.Assemble(true);
      g.InitAll(s, f, u, k, gst);
      g.Wire(s, f, u, k, gst);
      g.MoveBehind(s, f, u, k, gst);
    }

    /** Detaching the sink then ends the process. */
    static method StrayQueue(gst: Gst) returns (g: Graph, k: Sink, r: Result)
      requires gst.Obliging()
      modifies gst
      ensures r == Aborted
    {
      var f;
      g, f, k := MovedFilter(gst);
      assert g.Placed(k) && g.Listed(f);
      r := k.SetSource(null, g, gst);
    }

    /** A plain source, a filter, a sink, and a second source or filter. */
    ghost predicate Bench(s: Source, f: Source, u: Source, k: Sink)
      reads this, sources, sinks
    {
      && Valid() && s in sources && f in sources && u in sources && k in sinks && s != u && f != u
      && s.front == null && f.front != null && f.front in sinks && k != f.front
      && (u.front != null ==> u.front in sinks && f.front != u.front && k != u.front)
    }

    method Assemble(plain: bool) returns (s: Source, f: Source, u: Source, k: Sink)
      requires Valid() && sources == [] && sinks == []
      modifies this
      ensures Bench(s, f, u, k) && fresh(sources) && fresh(sinks) && (u.front == null <==> plain)
      ensures f.front.source == null && k.source == null && (u.front != null ==> u.front.source == null)
      ensures s.pipeline == null && u.pipeline == null && f.queues == map[] && f.sinks == map[]
    {
      s := NewSource();
      f := NewFilter();
      if plain {
        u := NewSource();
      } else {
        u := NewFilter();
        assert u.front == sinks[1];
      }
      k := NewSink();
      assert u == sources[2] && f == sources[1] && f.front == sinks[0];
    }

    method InitAll(s: Source, f: Source, u: Source, k: Sink, gst: Gst)
      requires gst.Obliging() && Bench(s, f, u, k) && s.pipeline == null && u.pipeline == null
      modifies s`pipeline, f`pipeline, u`pipeline, f`ready, u`ready, f.front`element, k`element, gst
      modifies (if u.front == null then {} else {u.front})`element
      ensures Bench(s, f, u, k) && s.pipeline != null && f.ready && f.front.element != null && k.element != null
      ensures u.pipeline != s.pipeline && (u.pipeline != null <==> u.front == null)
      ensures u.front != null ==> u.ready && u.front.element != null
    {
      var _ := s.Init(this, gst);
      var _ := f.InitFilter(false, this, gst);
      if u.front == null {
        var _ := u.Init(this, gst);
      } else {
        var _ := u.InitFilter(false, this, gst);
      }
      var _ := k.Init(this, gst);
    }

    /** Hangs the filters on the source and the sink on `f`. */
    method Wire(s: Source, f: Source, u: Source, k: Sink, gst: Gst)
      requires gst.Obliging() && Bench(s, f, u, k) && s.pipeline != null && f.ready
      requires f.front.element != null && k.element != null && (u.front != null ==> u.front.element != null)
      requires f.front.source == null && k.source == null && (u.front != null ==> u.front.source == null)
      requires f.queues == map[] && f.sinks == map[]
      modifies s`queues, s`sinks, s`tee, s`teeBin, s`teeLinked, f`queues, f`sinks, f`tee, f`teeBin, f`teeLinked
      modifies k`source, f.front`source, (if u.front == null then {} else {u.front})`source, gst
      ensures Bench(s, f, u, k) && f.front.source == s && k.source == f
      ensures u.front != null ==> u.front.source == s
      ensures k in f.queues && f.queues[k].bin == s.pipeline && f.teeBin == s.pipeline
    {
      Hang(f.front, s, gst);
      if u.front != null {
        Hang(u.front, s, gst);
      }
      Hang(k, f, gst);
    }

    /** Moves `f` behind `u`. */
    method MoveBehind(s: Source, f: Source, u: Source, k: Sink, gst: Gst)
      requires gst.Obliging() && Bench(s, f, u, k) && s.pipeline != null && f.front.element != null
      requires f.front.source == s && k.source == f
      requires if u.front == null then u.pipeline != null else u.ready && u.front.source == s
      modifies s`queues, s`sinks, s`tee, s`teeBin, s`teeLinked, u`queues, u`sinks, u`tee, u`teeBin, u`teeLinked
      modifies f.front`source, gst
      ensures Bench(s, f, u, k) && f.front.source == u && k.source == f
    {
      assert Listed(s) && Placed(f.front);
      Hang(f.front, u, gst);
    }

    method Hang(k: Sink, target: Source, gst: Gst)
      requires gst.Obliging() && Valid() && k in sinks && k.element != null
      requires k.source != null ==> k.source.Live() && !k.source.Traps(k)
      requires target in sources && target.Accepts() && target.front != k
      modifies k`source, k.Touched(target)`queues, k.Touched(target)`sinks
      modifies k.Touched(target)`tee, k.Touched(target)`teeBin, k.Touched(target)`teeLinked, gst
      ensures Valid() && k.source == target && target.Got(k, old(target.Bin()))
    {
      var _ := k.SetSource(target, this, gst);
    }

    /** Tees in place stay in place, and none stays without need if nothing was refused. */
    twostate predicate TeesKept(granted: bool)
      reads this, sources
    {
      && (old(Sound()) ==> Sound())
      && (old(Sound() && Exact()) && granted ==> Exact())
    }

    /** The operation was performed: what the objects it names look like afterwards. */
    twostate predicate Done(op: Op, r: Result)
      reads this, sinks, sources
    {
      && (op.NewSink? || op.NewFilter? || sinks == old(sinks))
      && (op.NewSource? || op.NewFilter? || sources == old(sources))
      && match op
         case NewSink => |sinks| == |old(sinks)| + 1 && sinks[|sinks| - 1].back == null
         case NewSource => |sources| == |old(sources)| + 1 && sources[|sources| - 1].front == null
         case NewFilter =>
           && |sinks| == |old(sinks)| + 1 && |sources| == |old(sources)| + 1
           && sources[|sources| - 1].front == sinks[|sinks| - 1] && sinks[|sinks| - 1].back == sources[|sources| - 1]
         case InitSink(k) => k < |sinks| && (sinks[k].element != null <==> r == Success)
         case InitSource(s) => s < |sources| && sources[s].pipeline != null
         case InitFilter(s, own) =>
           s < |sources| && (r == Success ==> sources[s].ready && (own ==> sources[s].pipeline != null))
         case Attach(k, target) =>
           && k < |sinks|
           && (r == Success && target.Some? ==> target.value < |sources| && sinks[k].source == sources[target.value])
           && (r != Success || target.None? ==> sinks[k].source == null)
         case StopSink(k, _) => k < |sinks| && sinks[k].source == null
         case StopSource(s) => s < |sources| && sources[s].pipeline == null && sources[s].queues == map[]
         case StopFilter(s, _) =>
           && s < |sources| && sources[s].queues == map[] && !sources[s].ready && !sources[s].tee
           && (sources[s].front != null && sources[s].front in sinks ==> sources[s].front.source == null)
    }

    /** One allowed operation. */
    method Perform(op: Op, gst: Gst) returns (r: Result)
      requires Valid() && Allowed(op)
      modifies this, sinks, sources, gst
      ensures Valid() && gst.Later()
      ensures forall i | 0 <= i < |sources| :: sources[i] in old(sources) || fresh(sources[i])
      ensures forall i | 0 <= i < |sinks| :: sinks[i] in old(sinks) || fresh(sinks[i])
      ensures op.Attach? ==> (r == Success <==> old(Takes(sinks[op.k], op.target)) && gst.Granted())
      ensures TeesKept(gst.Granted() || (r == Success && Honest(op)))
      ensures Done(op, r)
      // Filters stay rooted exactly if none that holds sinks was moved away from them.
      ensures r != Aborted && (old(Rooted()) ==> (Rooted() <==> !(r == Success && old(Moves(op)))))
    {
      r := Success;
      match op
      case NewSink =>
        var _ := NewSink();
      case NewSource =>
        var _ := NewSource();
      case NewFilter =>
        var _ := NewFilter();
      case InitSink(k) =>
        r := sinks[k].Init(this, gst);
        assert forall s <- sources :: s.TeeSound() == old(s.TeeSound()) && s.TeeExact() == old(s.TeeExact());
        if old(Rooted()) {
          RootsUnmoved();
        }
      case InitSource(s) =>
        r := sources[s].Init(this, gst);
        assert forall s <- sources :: s.TeeSound() == old(s.TeeSound()) && s.TeeExact() == old(s.TeeExact());
        if old(Rooted()) {
          RootsUnmoved();
        }
      case InitFilter(s, enableSource) =>
        r := InitFilter(sources[s], enableSource, gst);
      case Attach(k, target) =>
        r := Move(sinks[k], target, gst);
      case StopSink(k, async) =>
        r := StopSink(sinks[k], async, gst);
      case StopSource(s) =>
        r := StopSource(sources[s], gst);
      case StopFilter(s, async) =>
        r := StopFilter(sources[s], async, gst);
    }

    method InitFilter(s: Source, enableSource: bool, gst: Gst) returns (r: Result)
      requires Valid() && s in sources && s.front != null
      modifies sinks, sources, gst
      ensures Valid() && gst.Later() && r != Aborted
      ensures TeesKept(true) && (old(Rooted()) ==> Rooted())
      ensures r == Success ==> s.ready && (enableSource ==> s.pipeline != null)
    {
      assert Listed(s);
      r := s.InitFilter(enableSource, this, gst);
      assert forall t <- sources :: (old(t.TeeSound()) ==> t.TeeSound()) && t.TeeExact() == old(t.TeeExact());
      if old(Rooted()) {
        RootsUnmoved();
      }
    }

    method Move(k: Sink, target: Option<nat>, gst: Gst) returns (r: Result)
      requires Valid() && k in sinks && CanLeave(k)
      requires target.Some? ==> target.value < |sources| && CanHold(sources[target.value], k)
      modifies sinks, sources, gst
      ensures Valid() && gst.Later()
      ensures r == Success <==> old(Takes(k, target)) && gst.Granted()
      ensures TeesKept(gst.Granted())
      ensures r != Aborted && (old(Rooted()) ==> (Rooted() <==> !(r == Success && old(Uproots(k, target)))))
      ensures k.source == if r == Success && target.Some? then sources[target.value] else null
    {
      LeaveIsFree(k);
      if target.Some? {
        BinOfIs(sources[target.value]);
      }
      assert Placed(k);
      ghost var uproots := Uproots(k, target);
      r := MoveTo(k, if target.None? then null else sources[target.value], gst);
      if old(Rooted()) {
        RootsAfterMove(k);
      }
      assert r == Success ==>
          (uproots <==> k.back != null && k.back.queues != map[] && k.source != null
                        && k.source.pipeline != k.back.teeBin);
    }

    method MoveTo(k: Sink, to: Source?, gst: Gst) returns (r: Result)
      requires Valid() && k in sinks && k.Free() && !k.Trapped() && (k.source != null ==> k.source in sources)
      requires to != null ==> to in sources && !to.Bars() && !(to.front == k && to.ready)
      modifies k`source, k.Touched(to)`queues, k.Touched(to)`sinks
      modifies k.Touched(to)`tee, k.Touched(to)`teeBin, k.Touched(to)`teeLinked, gst
      ensures Valid() && gst.Later() && r != Aborted
      ensures r == Success <==>
                k.element != null && (to != null ==> old(to.Accepts()) && to.front != k) && gst.Granted()
      ensures k.source == if r == Success then to else null
      ensures k.back != null ==> k.back.front == k && k.back.Kept()
      ensures TeesKept(gst.Granted())
      ensures forall s <- sources :: s.Kept() || s.Lost(k) || (s == k.source && s.front != k && s.Got(k, BinOf(s)))
    {
      ghost var from := k.source;
      assert k.back != null ==> k.back.front == k && k.back != from by {
        assert Placed(k);
      }
      assert from != null ==> k.element != null by {
        assert Placed(k) && (from != null ==> Listed(from));
      }
      r := k.SetSource(to, this, gst);
      assert forall s <- sources | s != from && s != to :: s.Kept();
      if to != null {
        if to.front != k {
          to.SameWays();
        }
        BinOfIs(to);
      }
    }

    method StopSink(k: Sink, async: bool, gst: Gst) returns (r: Result)
      requires Valid() && k in sinks && k.back == null && CanLeave(k)
      modifies sinks, sources, gst
      ensures Valid() && gst.Later()
      ensures TeesKept(gst.Granted())
      ensures r == Success && !async ==> gst.Granted()
      ensures r != Aborted && (old(Rooted()) ==> Rooted())
      ensures k.source == null
    {
      LeaveIsFree(k);
      ghost var from := k.source;
      assert Placed(k) && (from != null ==> Listed(from) && k.element != null);
      r := k.Term(async, this, gst);
      if old(Rooted()) {
        assert forall s <- sources | s != from :: s.Kept();
        RootsFreed(k);
      }
    }

    method StopSource(s: Source, gst: Gst) returns (r: Result)
      requires Valid() && s in sources && s.front == null
      modifies sinks, sources, gst
      ensures Valid() && gst.Later()
      ensures TeesKept(true)
      ensures r != Aborted && (old(Rooted()) ==> Rooted())
      ensures s.pipeline == null && s.queues == map[]
    {
      assert Listed(s) && forall k <- sinks :: Placed(k);
      ghost var visited;
      r, visited := s.Term(this, gst);
      if old(Rooted()) {
        assert forall t <- sources | t != s :: t.Kept();
        RootsFreed(null);
      }
    }

    method StopFilter(s: Source, async: bool, gst: Gst) returns (r: Result)
      requires Valid() && s in sources && s.front != null && CanStop(s)
      modifies sinks, sources, gst
      ensures Valid() && gst.Later()
      ensures TeesKept(gst.Granted())
      ensures r != Aborted && (old(Rooted()) ==> Rooted())
      ensures s.queues == map[] && !s.ready && !s.tee && s.front.source == null
    {
      assert Listed(s);
      LeaveIsFree(s.front);
      BinOfIs(s);
      ghost var visited;
      ghost var from := s.front.source;
      r, visited := s.TermFilter(async, this, gst);
      if old(Rooted()) {
        assert forall t <- sources | t != s && t != from :: t.Kept();
        RootsFreed(s.front);
      }
    }

    lemma LeaveIsFree(k: Sink)
      requires Valid() && k in sinks && CanLeave(k)
      ensures k.Free() && !k.Trapped()
      ensures k.source != null ==> k.source in sources && k.source.Live() && !k.source.Traps(k)
    {
      assert Placed(k);
      if k.source != null {
        BinOfIs(k.source);
      }
    }
  }

  /** Objects are named by the order of their creation; `async` says that a state change has to be awaited. */
  datatype Op =
    | NewSink
    | NewSource
    | NewFilter
    | InitSink(k: nat)
    | InitSource(s: nat)
    | InitFilter(s: nat, enableSource: bool)
    | Attach(k: nat, target: Option<nat>)
    | StopSink(k: nat, async: bool)
    | StopSource(s: nat)
    | StopFilter(s: nat, async: bool)

  /** The sinks, filters included, that the first `i` operations create. */
  function NewSinks(ops: seq<Op>, i: nat): nat
    requires i <= |ops|
  {
    if i == 0 then 0 else NewSinks(ops, i - 1) + if ops[i - 1].NewSink? || ops[i - 1].NewFilter? then 1 else 0
  }

  function NewSources(ops: seq<Op>, i: nat): nat
    requires i <= |ops|
  {
    if i == 0 then 0 else NewSources(ops, i - 1) + if ops[i - 1].NewSource? || ops[i - 1].NewFilter? then 1 else 0
  }

  /** Everything that was performed succeeded. */
  predicate AllSucceed(results: seq<Option<Result>>) {
    forall i | 0 <= i < |results| :: results[i] in {None, Some(Success)}
  }

  /** Success of the operation means that nothing was refused, at least nothing that concerns a tee. */
  predicate Honest(op: Op) {
    !op.StopFilter? && !(op.StopSink? && op.async)
  }
}
