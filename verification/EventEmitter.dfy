/**
  The event queue of the remote player: `send` queues an event and arms a zero-delay timer if none is
  armed; each firing delivers one event and the timer removes itself once the queue is empty.
  A listener may send further events while it is being called.
 */
module EventEmitter {

  /** `timers` counts the live main-loop timers; `sent` and `delivered` record the whole run. */
  datatype State<E> = State(queue: seq<E>, armed: bool, timers: nat, sent: seq<E>, delivered: seq<E>)

  function Init<E>(): State<E> { State([], false, 0, [], []) }

  function Send<E>(s: State<E>, e: E): State<E> {
    s.(queue := s.queue + [e], sent := s.sent + [e],
       armed := true, timers := if s.armed then s.timers else s.timers + 1)
  }

  function SendAll<E>(s: State<E>, es: seq<E>): State<E>
    decreases |es|
  {
    if es == [] then s else SendAll(Send(s, es[0]), es[1..])
  }

  /** A live timer fires; `reentrant` is what the listener sends meanwhile. */
  function Fire<E>(s: State<E>, reentrant: seq<E>): State<E>
    requires s.timers > 0
  {
    if s.queue == [] then Disarm(s)
    else
      var t := SendAll(s.(queue := s.queue[1..], delivered := s.delivered + [s.queue[0]]), reentrant);
      if t.queue != [] then t else Disarm(t)
  }

  function Disarm<E>(s: State<E>): State<E> {
    s.(armed := false, timers := if s.timers > 0 then s.timers - 1 else 0)
  }

  datatype Step<E> = DoSend(e: E) | DoFire(reentrant: seq<E>)

  /** Any run of sends and firings; without a live timer nothing fires. */
  function Run<E>(s: State<E>, steps: seq<Step<E>>): State<E>
    decreases |steps|
  {
    if steps == [] then s else
      var t := match steps[0]
               case DoSend(e) => Send(s, e)
               case DoFire(reentrant) => if s.timers > 0 then Fire(s, reentrant) else s;
      Run(t, steps[1..])
  }

  /** Nothing lost, duplicated or reordered; one timer, armed exactly while events wait. */
  ghost predicate Inv<E>(s: State<E>) {
    && s.delivered + s.queue == s.sent
    && (s.armed <==> s.queue != [])
    && s.timers == if s.armed then 1 else 0
  }

  lemma {:induction false} SendAllIs<E>(s: State<E>, es: seq<E>)
    requires s.armed
    ensures SendAll(s, es) == s.(queue := s.queue + es, sent := s.sent + es)
    decreases |es|
  {
    if es == [] {
      assert s.queue + es == s.queue && s.sent + es == s.sent;
    } else {
      SendAllIs(Send(s, es[0]), es[1..]);
      assert s.queue + [es[0]] + es[1..] == s.queue + es;
      assert s.sent + [es[0]] + es[1..] == s.sent + es;
    }
  }

  lemma SendInv<E>(s: State<E>, e: E)
    requires Inv(s)
    ensures Inv(Send(s, e))
    ensures Send(s, e).sent == s.sent + [e] && Send(s, e).queue == s.queue + [e] && Send(s, e).delivered == s.delivered
  {
    assert s.delivered + (s.queue + [e]) == s.delivered + s.queue + [e];
  }

  lemma FireInv<E>(s: State<E>, reentrant: seq<E>)
    requires Inv(s) && s.timers > 0
    ensures Inv(Fire(s, reentrant))
    ensures Fire(s, reentrant).delivered == s.delivered + [s.queue[0]]
    ensures Fire(s, reentrant).queue == s.queue[1..] + reentrant
    ensures Fire(s, reentrant).sent == s.sent + reentrant
  {
    var t := s.(queue := s.queue[1..], delivered := s.delivered + [s.queue[0]]);
    SendAllIs(t, reentrant);
    assert s.queue == [s.queue[0]] + s.queue[1..];
    assert t.delivered + (t.queue + reentrant) == (s.delivered + s.queue) + reentrant;
  }

  /** What a run sends, read off its steps alone: a firing happens, and its listener sends, if an event waits. */
  function SentBy<E>(steps: seq<Step<E>>, waiting: nat): seq<E>
    decreases |steps|
  {
    if steps == [] then []
    else
      match steps[0]
      case DoSend(e) => [e] + SentBy(steps[1..], waiting + 1)
      case DoFire(reentrant) =>
        if waiting == 0 then SentBy(steps[1..], 0)
        else reentrant + SentBy(steps[1..], waiting - 1 + |reentrant|)
  }

  /** How many firings happen. */
  function Firings<E>(steps: seq<Step<E>>, waiting: nat): nat
    decreases |steps|
  {
    if steps == [] then 0
    else
      match steps[0]
      case DoSend(_) => Firings(steps[1..], waiting + 1)
      case DoFire(reentrant) =>
        if waiting == 0 then Firings(steps[1..], 0) else 1 + Firings(steps[1..], waiting - 1 + |reentrant|)
  }

  lemma Joined<E>(a: seq<E>, b: seq<E>, c: seq<E>)
    ensures (a + b) + c == a + (b + c)
  {
  }

  lemma {:induction false} RunInv<E>(s: State<E>, steps: seq<Step<E>>)
    requires Inv(s)
    ensures Inv(Run(s, steps))
    ensures Run(s, steps).sent == s.sent + SentBy(steps, |s.queue|)
    ensures |Run(s, steps).delivered| == |s.delivered| + Firings(steps, |s.queue|)
    decreases |steps|
  {
    if steps != [] {
      match steps[0]
      case DoSend(e) =>
        SendInv(s, e);
        RunInv(Send(s, e), steps[1..]);
        Joined(s.sent, [e], SentBy(steps[1..], |s.queue| + 1));
      case DoFire(reentrant) =>
        if s.timers > 0 {
          FireInv(s, reentrant);
          RunInv(Fire(s, reentrant), steps[1..]);
          Joined(s.sent, reentrant, SentBy(steps[1..], |s.queue| - 1 + |reentrant|));
        } else {
          RunInv(s, steps[1..]);
        }
    }
  }

  /**
    The guarantee, for every run from the start: what was sent is what the steps sent, each event once and in order;
    what was delivered is its beginning, one event for every firing that happened; one timer is armed exactly while
    events wait.
   */
  lemma EveryRun<E>(steps: seq<Step<E>>)
    ensures var s := Run(Init<E>(), steps);
            && Inv(s) && s.sent == SentBy(steps, 0)
            && Firings(steps, 0) <= |s.sent| && s.delivered == s.sent[..Firings(steps, 0)]
  {
    RunInv(Init<E>(), steps);
    var s := Run(Init<E>(), steps);
    assert s.delivered == s.sent[..|s.delivered|];
  }

  /** Once nobody sends any more, as many firings as events wait deliver everything that was ever sent. */
  lemma {:induction false} Drains<E>(s: State<E>, quiet: seq<Step<E>>)
    requires Inv(s) && |quiet| == |s.queue| && forall q <- quiet :: q == DoFire([])
    ensures Run(s, quiet) == s.(queue := [], armed := false, timers := 0, delivered := s.sent)
    decreases |quiet|
  {
    if quiet == [] {
      assert s.delivered + s.queue == s.delivered;
    } else {
      assert quiet[0] in quiet;
      FireInv(s, []);
      assert s.queue[1..] + [] == s.queue[1..];
      var t := Fire(s, []);
      assert t.sent == s.sent by {
        SendAllIs(s.(queue := s.queue[1..], delivered := s.delivered + [s.queue[0]]), []);
      }
      assert forall q <- quiet[1..] :: q in quiet;
      Drains(t, quiet[1..]);
    }
  }

  class Emitter<E> {
    var queue: seq<E>
    var timeoutId: nat         // 0: no timer
    var nextId: nat            // the main loop's next source id
    ghost var timers: nat
    ghost var sent: seq<E>
    ghost var delivered: seq<E>

    ghost function View(): State<E>
      reads this
    {
      State(queue, timeoutId != 0, timers, sent, delivered)
    }

    constructor ()
      ensures View() == Init<E>() && Inv(View())
    {
      queue, timeoutId, nextId, timers, sent, delivered := [], 0, 0, 0, [], [];
    }

    method SendEvent(e: E)
      modifies this
      ensures View() == Send(old(View()), e)
      ensures queue == old(queue) + [e] && sent == old(sent) + [e] && delivered == old(delivered)
      ensures old(Inv(View())) ==> Inv(View()) && timeoutId != 0
    {
      if Inv(View()) {
        SendInv(View(), e);
      }
      queue := queue + [e];
      sent := sent + [e];
      if timeoutId == 0 {
        nextId := nextId + 1;
        timeoutId := nextId;
        timers := timers + 1;
      }
    }

    /** What a listener does while it is called: sends of its own. */
    method Listener(es: seq<E>)
      modifies this
      ensures View() == SendAll(old(View()), es)
    {
      for i := 0 to |es|
        invariant SendAll(View(), es[i..]) == SendAll(old(View()), es)
      {
        SendEvent(es[i]);
        assert es[i..][1..] == es[i + 1..];
      }
    }

    /** The timer callback; `again` keeps the timer alive. Exactly the oldest event goes out. */
    method HandleEvent(reentrant: seq<E>) returns (again: bool)
      requires timers > 0
      modifies this
      ensures View() == Fire(old(View()), reentrant)
      ensures again <==> old(queue) != [] && queue != []
      ensures old(Inv(View())) ==>
                && Inv(View()) && old(queue) != []
                && delivered == old(delivered) + [old(queue)[0]] && queue == old(queue)[1..] + reentrant
                && (again <==> timeoutId != 0)
    {
      if Inv(View()) {
        FireInv(View(), reentrant);
      }
      if queue != [] {
        delivered := delivered + [queue[0]];
        queue := queue[1..];
        Listener(reentrant);
        if queue != [] {
          return true;
        }
      }
      timeoutId := 0;
      timers := if timers > 0 then timers - 1 else 0;
      again := false;
    }
  }
}
