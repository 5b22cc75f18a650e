/**
  The JSON-RPC client of the DTV source.

  Three threads share one list of requests: callers append to it and take answered requests out, the
  websocket thread writes pending requests and files the answers. Every access happens under one mutex,
  so a run is any sequence of the atomic steps below. `log` records what happened in which order.
 */
module RpcClient {
  import opened Options

  const ID_LIMIT: nat := 0x1_0000_0000  // ids are unsigned 32-bit

  datatype Request = Request(id: nat, sent: bool, response: Option<string>)

  datatype Event =
    | Queued(id: nat)
    | Wrote(id: nat)
    | Got(id: nat, text: string)

  datatype State = State(list: seq<Request>, lastId: nat, connected: bool, log: seq<Event>)

  datatype Step =
    | Send
    | Writable(writes: seq<int>)                     // what the websocket write answers, by position
    | Receive(id: nat, result: Option<string>)       // a message naming `id`, with or without a result
    | Remove(id: nat)
    | Clear
    | Disconnect

  const INIT := State([], 0, true, [])

  function NextId(id: nat): nat {
    (id + 1) % ID_LIMIT
  }

  function DoSend(s: State): State {
    if !s.connected then s else
      var id := NextId(s.lastId);
      s.(lastId := id, list := s.list + [Request(id, false, None)], log := s.log + [Queued(id)])
  }

  /** One request of the writable callback; any non-zero answer counts as written. */
  function WriteOne(s: State, i: nat, answer: int): State
    requires i < |s.list|
  {
    if s.list[i].sent || answer == 0 then s else
      s.(list := s.list[i := s.list[i].(sent := true)], log := s.log + [Wrote(s.list[i].id)])
  }

  function Answer(writes: seq<int>, i: nat): int {
    if i < |writes| then writes[i] else 0
  }

  function WriteFrom(s: State, writes: seq<int>, i: nat): State
    requires i <= |s.list|
    decreases |s.list| - i
  {
    if i == |s.list| then s else WriteFrom(WriteOne(s, i, Answer(writes, i)), writes, i + 1)
  }

  /** Files an answer with a request it belongs to; a first answer is never overwritten. */
  function Filed(r: Request, id: nat, text: string): Request {
    if r.sent && r.id == id && r.response.None? then r.(response := Some(text)) else r
  }

  function FileAll(list: seq<Request>, id: nat, text: string): seq<Request> {
    seq(|list|, i requires 0 <= i < |list| => Filed(list[i], id, text))
  }

  function DoReceive(s: State, id: nat, result: Option<string>): State {
    match result
    case None => s
    case Some(text) => s.(list := FileAll(s.list, id, text), log := s.log + [Got(id, text)])
  }

  function Without(list: seq<Request>, id: nat): seq<Request> {
    if list == [] then [] else
      (if list[0].id == id then [] else [list[0]]) + Without(list[1..], id)
  }

  function Next(s: State, step: Step): State {
    match step
    case Send => DoSend(s)
    case Writable(writes) => WriteFrom(s, writes, 0)
    case Receive(id, result) => DoReceive(s, id, result)
    case Remove(id) => s.(list := Without(s.list, id))
    case Clear => s.(list := [])
    case Disconnect => s.(connected := false)
  }

  function Run(s: State, steps: seq<Step>): State
    decreases |steps|
  {
    if steps == [] then s else Run(Next(s, steps[0]), steps[1..])
  }

  function Sends(steps: seq<Step>): nat {
    if steps == [] then 0 else (if steps[0].Send? then 1 else 0) + Sends(steps[1..])
  }

  // ---------------------------------------------------------------------------
  // What a response is, read off the log alone
  // ---------------------------------------------------------------------------

  /** `log[j]` is the first result for `id` after the event `opener`. */
  ghost predicate IsFirstAfter(log: seq<Event>, opener: Event, id: nat, j: nat) {
    && IsResultAfter(log, opener, id, j)
    && forall i :: 0 <= i < j ==> !IsResultAfter(log, opener, id, i)
  }

  predicate IsResultAfter(log: seq<Event>, opener: Event, id: nat, j: int) {
    0 <= j < |log| && log[j].Got? && log[j].id == id && opener in log[..j]
  }

  function FirstAfter(log: seq<Event>, opener: Event, id: nat): Option<nat>
  {
    if log == [] then None else
      var before := FirstAfter(log[..|log| - 1], opener, id);
      if before.Some? then before
      else if IsResultAfter(log, opener, id, |log| - 1) then Some(|log| - 1)
      else None
  }

  lemma {:induction false} FirstAfterMeans(log: seq<Event>, opener: Event, id: nat)
    ensures FirstAfter(log, opener, id).None? <==> forall i :: !IsResultAfter(log, opener, id, i)
    ensures FirstAfter(log, opener, id).Some? ==> IsFirstAfter(log, opener, id, FirstAfter(log, opener, id).value)
  {
    if log != [] {
      var init := log[..|log| - 1];
      FirstAfterMeans(init, opener, id);
      forall i | i < |init| ensures IsResultAfter(init, opener, id, i) <==> IsResultAfter(log, opener, id, i) {
        if 0 <= i < |init| {
          assert init[..i] == log[..i];
        }
      }
    }
  }

  /** The response a request should carry: the first result for its id after it was written. */
  function Reply(log: seq<Event>, id: nat): Option<string>
  {
    if log == [] then None else
      var before, e := log[..|log| - 1], log[|log| - 1];
      if Reply(before, id).Some? then Reply(before, id)
      else if e.Got? && e.id == id && Wrote(id) in before then Some(e.text)
      else None
  }

  lemma {:induction false} ReplyMeans(log: seq<Event>, id: nat)
    ensures var first := FirstAfter(log, Wrote(id), id);
            if first.None? then Reply(log, id) == None
            else first.value < |log| && log[first.value].Got? && Reply(log, id) == Some(log[first.value].text)
  {
    if log != [] {
      ReplyMeans(log[..|log| - 1], id);
    }
  }

  lemma ReplyAfter(log: seq<Event>, e: Event, id: nat)
    ensures Reply(log + [e], id) ==
            if Reply(log, id).Some? then Reply(log, id)
            else if e.Got? && e.id == id && Wrote(id) in log then Some(e.text)
            else None
  {
    assert (log + [e])[..|log|] == log;
  }

  /** No request is written twice. */
  ghost predicate WrittenOnce(log: seq<Event>) {
    forall i, j | 0 <= i < j < |log| && log[i].Wrote? :: log[i] != log[j]
  }

  // ---------------------------------------------------------------------------
  // The invariant of every interleaving
  // ---------------------------------------------------------------------------

  ghost predicate Increasing(list: seq<Request>) {
    forall i, j | 0 <= i < j < |list| :: list[i].id < list[j].id
  }

  /** A listed request knows exactly what the log says about it. */
  ghost predicate Faithful(r: Request, log: seq<Event>) {
    && (r.sent <==> Wrote(r.id) in log)
    && Queued(r.id) in log
    && r.response == Reply(log, r.id)
  }

  /** The log only names ids handed out so far, writes only what was queued, and writes it once. */
  ghost predicate LogOk(log: seq<Event>, lastId: nat) {
    log == [] ||
    var before, e := log[..|log| - 1], log[|log| - 1];
    && LogOk(before, lastId)
    && (e.Queued? ==> e.id <= lastId)
    && (e.Wrote? ==> e.id <= lastId && Queued(e.id) in before && e !in before)
  }

  ghost predicate Inv(s: State) {
    && s.lastId < ID_LIMIT
    && Increasing(s.list)
    && (forall r {:trigger Faithful(r, s.log)} | r in s.list :: r.id <= s.lastId && Faithful(r, s.log))
    && LogOk(s.log, s.lastId)
  }

  lemma LogSnoc(log: seq<Event>, lastId: nat, e: Event)
    requires LogOk(log, lastId)
    requires e.Queued? ==> e.id <= lastId
    requires e.Wrote? ==> e.id <= lastId && Queued(e.id) in log && e !in log
    ensures LogOk(log + [e], lastId)
  {
    assert (log + [e])[..|log|] == log;
  }

  lemma {:induction false} LogGrows(log: seq<Event>, lastId: nat, later: nat)
    requires LogOk(log, lastId) && lastId <= later
    ensures LogOk(log, later)
    ensures forall e <- log :: e.Got? || e.id <= lastId
  {
    if log != [] {
      LogGrows(log[..|log| - 1], lastId, later);
    }
  }

  /** Nothing is written before it was queued. */
  ghost predicate Ordered(log: seq<Event>) {
    forall j | 0 <= j < |log| && log[j].Wrote? :: Queued(log[j].id) in log[..j]
  }

  lemma {:induction false} LogOkMeans(log: seq<Event>, lastId: nat)
    requires LogOk(log, lastId)
    ensures Ordered(log) && WrittenOnce(log)
  {
    if log != [] {
      var before := log[..|log| - 1];
      LogOkMeans(before, lastId);
      forall j | 0 <= j < |before| ensures log[j] == before[j] && log[..j] == before[..j] {
      }
    }
  }

  lemma NoWriteNoReply(log: seq<Event>, id: nat)
    requires Wrote(id) !in log
    ensures Reply(log, id) == None
  {
    FirstAfterMeans(log, Wrote(id), id);
    ReplyMeans(log, id);
  }

  /** One more event leaves a request faithful if it changed the way the event says. */
  lemma FaithfulAfter(r: Request, r': Request, log: seq<Event>, e: Event)
    requires Faithful(r, log) && r'.id == r.id
    requires r'.sent == (r.sent || e == Wrote(r.id))
    requires r'.response == if e.Got? then Filed(r, e.id, e.text).response else r.response
    ensures Faithful(r', log + [e])
  {
    ReplyAfter(log, e, r.id);
  }

  lemma SendInv(s: State)
    requires Inv(s) && s.lastId + 1 < ID_LIMIT
    ensures Inv(DoSend(s)) && DoSend(s).lastId <= s.lastId + 1
  {
    var t := DoSend(s);
    if s.connected {
      var e := Queued(t.lastId);
      LogGrows(s.log, s.lastId, t.lastId);
      LogSnoc(s.log, t.lastId, e);
      forall r | r in t.list ensures r.id <= t.lastId && Faithful(r, t.log) {
        if r in s.list {
          assert Faithful(r, s.log);
          FaithfulAfter(r, r, s.log, e);
        } else {
          NoWriteNoReply(s.log, r.id);
          ReplyAfter(s.log, e, r.id);
        }
      }
      SendKeepsOrderIff(s);
    }
  }

  lemma WriteOneInv(s: State, i: nat, answer: int)
    requires Inv(s) && i < |s.list|
    ensures Inv(WriteOne(s, i, answer))
    ensures |WriteOne(s, i, answer).list| == |s.list| && WriteOne(s, i, answer).lastId == s.lastId
  {
    var t := WriteOne(s, i, answer);
    var r := s.list[i];
    assert r in s.list && Faithful(r, s.log);
    if !(r.sent || answer == 0) {
      var e := Wrote(r.id);
      LogSnoc(s.log, s.lastId, e);
      forall q | q in t.list ensures q.id <= t.lastId && Faithful(q, t.log) {
        var j :| 0 <= j < |t.list| && t.list[j] == q;
        assert s.list[j] in s.list && Faithful(s.list[j], s.log);
        assert j != i ==> s.list[j].id != r.id;
        FaithfulAfter(s.list[j], q, s.log, e);
      }
    }
  }

  // What the writable callback writes, said without its loop.

  /** Request `j` is written now: it was not before, and the socket took it. */
  predicate GoesOut(list: seq<Request>, writes: seq<int>, j: int) {
    0 <= j < |list| && !list[j].sent && j < |writes| && writes[j] != 0
  }

  /** The write events of the requests from position `i` on that go out, in list order. */
  function Writes(list: seq<Request>, writes: seq<int>, i: nat): seq<Event>
    decreases |list| - i
  {
    if i >= |list| then []
    else (if GoesOut(list, writes, i) then [Wrote(list[i].id)] else []) + Writes(list, writes, i + 1)
  }

  /** `list` after a writable callback from position `i` on: exactly the requests that go out are marked. */
  ghost predicate Marked(before: seq<Request>, list: seq<Request>, writes: seq<int>, i: nat) {
    |list| == |before| && forall j | 0 <= j < |before| ::
      && list[j].id == before[j].id && list[j].response == before[j].response
      && (list[j].sent <==> before[j].sent || (j >= i && GoesOut(before, writes, j)))
  }

  lemma {:induction false} SameWrites(list: seq<Request>, other: seq<Request>, writes: seq<int>, i: nat)
    requires |list| == |other| && forall j | i <= j < |list| :: list[j] == other[j]
    ensures Writes(list, writes, i) == Writes(other, writes, i)
    decreases |list| - i
  {
    if i < |list| {
      SameWrites(list, other, writes, i + 1);
    }
  }

  /** The callback tries every request that is not written yet, and logs exactly the writes that went out, in order. */
  lemma {:induction false} WriteFromMeans(s: State, writes: seq<int>, i: nat)
    requires i <= |s.list|
    ensures var t := WriteFrom(s, writes, i);
            && Marked(s.list, t.list, writes, i) && t.log == s.log + Writes(s.list, writes, i)
            && t.lastId == s.lastId && t.connected == s.connected
    decreases |s.list| - i
  {
    if i < |s.list| {
      var s' := WriteOne(s, i, Answer(writes, i));
      WriteFromMeans(s', writes, i + 1);
      SameWrites(s'.list, s.list, writes, i + 1);
    }
  }

  lemma {:induction false} WriteFromInv(s: State, writes: seq<int>, i: nat)
    requires Inv(s) && i <= |s.list|
    ensures Inv(WriteFrom(s, writes, i)) && WriteFrom(s, writes, i).lastId == s.lastId
    decreases |s.list| - i
  {
    if i < |s.list| {
      WriteOneInv(s, i, Answer(writes, i));
      WriteFromInv(WriteOne(s, i, Answer(writes, i)), writes, i + 1);
    }
  }

  lemma ReceiveInv(s: State, id: nat, result: Option<string>)
    requires Inv(s)
    ensures Inv(DoReceive(s, id, result))
  {
    var t := DoReceive(s, id, result);
    if result.Some? {
      var e := Got(id, result.value);
      LogSnoc(s.log, s.lastId, e);
      forall q | q in t.list ensures q.id <= t.lastId && Faithful(q, t.log) {
        var j :| 0 <= j < |t.list| && t.list[j] == q;
        assert s.list[j] in s.list && Faithful(s.list[j], s.log);
        FaithfulAfter(s.list[j], q, s.log, e);
      }
    }
  }

  lemma {:induction false} WithoutIs(list: seq<Request>, id: nat)
    requires Increasing(list)
    ensures forall r :: r in Without(list, id) <==> r in list && r.id != id
    ensures Increasing(Without(list, id))
  {
    if list != [] {
      WithoutIs(list[1..], id);
      assert list == [list[0]] + list[1..];
      var rest := Without(list[1..], id);
      forall j | 0 <= j < |rest| ensures list[0].id < rest[j].id {
        assert rest[j] in list[1..];
      }
    }
  }

  /** Requests may leave the list at any time. */
  lemma FewerInv(s: State, t: State)
    requires Inv(s) && t.log == s.log && t.lastId == s.lastId
    requires Increasing(t.list) && forall r <- t.list :: r in s.list
    ensures Inv(t)
  {
    forall r | r in t.list ensures r.id <= t.lastId && Faithful(r, t.log) {
      assert Faithful(r, s.log);
    }
  }

  lemma NextInv(s: State, step: Step)
    requires Inv(s) && (step.Send? ==> s.lastId + 1 < ID_LIMIT)
    ensures Inv(Next(s, step)) && Next(s, step).lastId <= s.lastId + if step.Send? then 1 else 0
  {
    match step
    case Send => SendInv(s);
    case Writable(writes) => WriteFromInv(s, writes, 0);
    case Receive(id, result) => ReceiveInv(s, id, result);
    case Remove(id) =>
      WithoutIs(s.list, id);
      FewerInv(s, Next(s, step));
    case Clear => FewerInv(s, Next(s, step));
    case Disconnect => FewerInv(s, Next(s, step));
  }

  lemma {:induction false} RunInv(s: State, steps: seq<Step>)
    requires Inv(s) && s.lastId + Sends(steps) < ID_LIMIT
    ensures Inv(Run(s, steps))
    decreases |steps|
  {
    if steps != [] {
      NextInv(s, steps[0]);
      RunInv(Next(s, steps[0]), steps[1..]);
    }
  }

  ghost predicate Listed(s: State, id: nat) {
    exists r <- s.list :: r.id == id
  }

  lemma {:induction false} WriteFromKeepsIds(s: State, writes: seq<int>, i: nat)
    requires i <= |s.list|
    ensures var t := WriteFrom(s, writes, i);
            |t.list| == |s.list| && forall j | 0 <= j < |s.list| :: t.list[j].id == s.list[j].id
    decreases |s.list| - i
  {
    if i < |s.list| {
      WriteFromKeepsIds(WriteOne(s, i, Answer(writes, i)), writes, i + 1);
    }
  }

  /** Steps of other threads that leave request `id` alone. */
  predicate Spares(steps: seq<Step>, id: nat) {
    forall step <- steps :: !step.Clear? && step != Remove(id)
  }

  /** No step takes request `id` away once it is answered: a caller who waits for it still looks at its list node. */
  ghost predicate SparesAnswered(s: State, steps: seq<Step>, id: nat) {
    forall i | 0 <= i < |steps| && (steps[i].Clear? || steps[i] == Remove(id)) ::
      var t := Run(s, steps[..i]);
      !Listed(t, id) || Reply(t.log, id).None?
  }

  lemma NextKeepsListed(s: State, step: Step, id: nat)
    requires Increasing(s.list) && Listed(s, id) && !step.Clear? && step != Remove(id)
    ensures Listed(Next(s, step), id)
  {
    var t := Next(s, step);
    var r :| r in s.list && r.id == id;
    var j :| 0 <= j < |s.list| && s.list[j] == r;
    match step
    case Writable(writes) =>
      WriteFromKeepsIds(s, writes, 0);
      assert t.list[j] in t.list;
    case Remove(other) => WithoutIs(s.list, other);
    case Send => assert t.list[j] in t.list;
    case Receive(_, _) => assert t.list[j] in t.list;
    case Clear =>
    case Disconnect =>
  }

  lemma {:induction false} RunKeepsListed(s: State, steps: seq<Step>, id: nat)
    requires Inv(s) && s.lastId + Sends(steps) < ID_LIMIT && Listed(s, id) && Spares(steps, id)
    ensures Listed(Run(s, steps), id)
    decreases |steps|
  {
    if steps != [] {
      assert steps[0] in steps && forall step <- steps[1..] :: step in steps;
      NextInv(s, steps[0]);
      NextKeepsListed(s, steps[0], id);
      RunKeepsListed(Next(s, steps[0]), steps[1..], id);
    }
  }

  /** The protocol guarantee, for every interleaving until the id counter wraps. */
  lemma EveryRun(steps: seq<Step>)
    requires Sends(steps) < ID_LIMIT
    ensures var s := Run(INIT, steps);
            && Increasing(s.list)
            && (forall r <- s.list :: r.id <= s.lastId)
            && WrittenOnce(s.log)
            && (forall r <- s.list :: r.response.Some? ==> r.sent && Wrote(r.id) in s.log)
            && (forall r <- s.list :: r.response == Reply(s.log, r.id))
  {
    RunInv(INIT, steps);
    var s := Run(INIT, steps);
    LogOkMeans(s.log, s.lastId);
    forall r <- s.list
      ensures r.id <= s.lastId && r.response == Reply(s.log, r.id)
      ensures r.response.Some? ==> r.sent && Wrote(r.id) in s.log
    {
      assert Faithful(r, s.log);
      if !r.sent {
        NoWriteNoReply(s.log, r.id);
      }
    }
  }

  // ---------------------------------------------------------------------------
  // Where the guarantee ends
  // ---------------------------------------------------------------------------

  /** A result for `id` arrived after the request was listed but before it was written. */
  ghost predicate Premature(log: seq<Event>, id: nat, j: int) {
    IsResultAfter(log, Queued(id), id, j) && Wrote(id) !in log[..j]
  }

  /**
    "The first result received while listed" is the response exactly when no result came
    before the request was written; such a result is ignored, not kept.
   */
  lemma FirstWhileListedIff(log: seq<Event>, id: nat)
    requires Ordered(log)
    ensures FirstAfter(log, Queued(id), id) == FirstAfter(log, Wrote(id), id) <==> forall j :: !Premature(log, id, j)
  {
    FirstAfterMeans(log, Queued(id), id);
    FirstAfterMeans(log, Wrote(id), id);
    forall j | IsResultAfter(log, Wrote(id), id, j) ensures IsResultAfter(log, Queued(id), id, j) {
      var w :| 0 <= w < j && log[..j][w] == Wrote(id);
      assert log[w] == Wrote(id);
      assert Queued(id) in log[..w];
      assert log[..w] <= log[..j];
    }
    var q, w := FirstAfter(log, Queued(id), id), FirstAfter(log, Wrote(id), id);
    if j :| Premature(log, id, j) {
      assert q.Some? && q.value <= j;
      assert log[..q.value] <= log[..j];
      assert !IsResultAfter(log, Wrote(id), id, q.value);
    } else {
      forall j | IsResultAfter(log, Queued(id), id, j) ensures IsResultAfter(log, Wrote(id), id, j) {
        assert !Premature(log, id, j);
      }
    }
  }

  /** A concrete run with a premature result: the early text is lost and the later one is kept. */
  lemma PrematureResultIsLost()
    ensures var s := Run(INIT, [Send, Receive(1, Some("early")), Writable([1]), Receive(1, Some("late"))]);
            s.list == [Request(1, true, Some("late"))] && Premature(s.log, 1, 1)
  {
    var s1 := Next(INIT, Send);
    var s2 := Next(s1, Receive(1, Some("early")));
    var s3 := Next(s2, Writable([1]));
    var s4 := Next(s3, Receive(1, Some("late")));
    assert s1.list == [Request(1, false, None)];
    assert s2.list == [Request(1, false, None)] && s2.log == [Queued(1), Got(1, "early")];
    assert WriteFrom(s2, [1], 0) == WriteFrom(WriteOne(s2, 0, 1), [1], 1);
    assert s3.list == [Request(1, true, None)];
    assert s4.list == [Request(1, true, Some("late"))];
    assert s4.log == [Queued(1), Got(1, "early"), Wrote(1), Got(1, "late")];
    assert s4.log[..1] == [Queued(1)];
    var steps := [Send, Receive(1, Some("early")), Writable([1]), Receive(1, Some("late"))];
    assert steps[1..] == [Receive(1, Some("early")), Writable([1]), Receive(1, Some("late"))];
    assert steps[1..][1..] == [Writable([1]), Receive(1, Some("late"))];
    assert steps[1..][1..][1..] == [Receive(1, Some("late"))];
    assert steps[1..][1..][1..][1..] == [];
    assert Run(INIT, steps) == s4;
  }

  /** Sending keeps ids increasing exactly until the counter wraps under a listed request. */
  lemma SendKeepsOrderIff(s: State)
    requires Inv(s)
    ensures Increasing(DoSend(s).list) <==> !s.connected || s.list == [] || s.lastId + 1 < ID_LIMIT
  {
    var t := DoSend(s);
    if s.connected && s.list != [] && s.lastId + 1 == ID_LIMIT {
      assert t.list[0] == s.list[0] && t.list[|s.list|].id == 0;
    } else if s.connected {
      forall i | 0 <= i < |s.list| ensures s.list[i].id <= s.lastId {
        assert s.list[i] in s.list && Faithful(s.list[i], s.log);
      }
    }
  }

  // ---------------------------------------------------------------------------
  // The client object
  // ---------------------------------------------------------------------------

  class Client {
    var list: seq<Request>
    var lastId: nat
    var connected: bool
    ghost var log: seq<Event>

    ghost function View(): State
      reads this
    {
      State(list, lastId, connected, log)
    }

    constructor ()
      ensures View() == INIT && Inv(View())
    {
      list, lastId, connected, log := [], 0, true, [];
    }

    /** Queues a request and hands its id out; refused once the socket is gone. */
    method SendRequest() returns (ok: bool, id: nat)
      modifies this
      ensures View() == Next(old(View()), Send)
      ensures old(Inv(View()) && lastId + 1 < ID_LIMIT) ==> Inv(View())
      ensures ok <==> connected
      ensures ok ==> id == lastId == (old(lastId) + 1) % 0x1_0000_0000
                     && list == old(list) + [Request(id, false, None)] && log == old(log) + [Queued(id)]
      ensures !ok ==> list == old(list) && lastId == old(lastId) && log == old(log)
    {
      ok, id := false, 0;
      if Inv(View()) && lastId + 1 < ID_LIMIT {
        NextInv(View(), Send);
      }
      if connected {
        lastId := (lastId + 1) % ID_LIMIT;
        id := lastId;
        list := list + [Request(id, false, None)];
        log := log + [Queued(id)];
        ok := true;
      }
    }

    /** The socket can take data: try every request not yet written, oldest first. */
    method OnWritable(writes: seq<int>)
      modifies this
      ensures View() == Next(old(View()), Writable(writes))
      ensures |list| == |old(list)| && forall j | 0 <= j < |list| ::
                && list[j].id == old(list)[j].id && list[j].response == old(list)[j].response
                && (list[j].sent <==> old(list)[j].sent || (j < |writes| && writes[j] != 0))
      ensures log == old(log) + Writes(old(list), writes, 0)
      ensures old(Inv(View())) ==> Inv(View())
    {
      WriteFromMeans(View(), writes, 0);
      if Inv(View()) {
        NextInv(View(), Writable(writes));
      }
      for i := 0 to |list|
        invariant |list| == |old(list)|
        invariant WriteFrom(View(), writes, i) == WriteFrom(old(View()), writes, 0)
      {
        if !list[i].sent {
          var answer := if i < |writes| then writes[i] else 0;
          if answer != 0 {
            log := log + [Wrote(list[i].id)];
            list := list[i := list[i].(sent := true)];
          }
        }
      }
    }

    /** A message arrived: file its result with every written request of that id that has none yet. */
    method OnReceive(id: nat, result: Option<string>)
      modifies this
      ensures View() == Next(old(View()), Receive(id, result))
      ensures |list| == |old(list)| && forall j | 0 <= j < |list| ::
                var was := old(list)[j];
                list[j] == if was.id == id && was.sent && was.response.None? then was.(response := result) else was
      ensures old(Inv(View())) ==> Inv(View())
    {
      if Inv(View()) {
        NextInv(View(), Receive(id, result));
      }
      if result.Some? {
        log := log + [Got(id, result.value)];
        for i := 0 to |list|
          invariant |list| == |old(list)| && lastId == old(lastId) && connected == old(connected)
          invariant log == old(log) + [Got(id, result.value)]
          invariant forall j | 0 <= j < |list| ::
                      list[j] == if j < i then Filed(old(list)[j], id, result.value) else old(list)[j]
        {
          if list[i].sent && list[i].id == id {
            if list[i].response.None? {
              list := list[i := list[i].(response := Some(result.value))];
            }
          }
        }
        assert list == FileAll(old(list), id, result.value);
      }
    }

    /** The position of a request in the list. */
    method Find(id: nat) returns (at: Option<nat>)
      ensures at.None? ==> !Listed(View(), id)
      ensures at.Some? ==> at.value < |list| && list[at.value].id == id
    {
      for i := 0 to |list|
        invariant forall j | 0 <= j < i :: list[j].id != id
      {
        if list[i].id == id {
          return Some(i);
        }
      }
      at := None;
    }

    /** Playback stops: every request is forgotten, answered or not. */
    method Stop()
      modifies this`list
      ensures list == [] && View() == Next(old(View()), Clear)
      ensures old(Inv(View())) ==> Inv(View())
    {
      if Inv(View()) {
        NextInv(View(), Clear);
      }
      list := [];
    }

    /** The socket is gone: requests stay listed, and none can be added. */
    method Drop()
      modifies this`connected
      ensures !connected && View() == Next(old(View()), Disconnect)
    {
      connected := false;
    }

    /** What other threads do while the mutex is free. */
    method Others(steps: seq<Step>)
      modifies this
      ensures View() == Run(old(View()), steps)
    {
      for i := 0 to |steps|
        invariant Run(View(), steps[i..]) == Run(old(View()), steps)
      {
        assert steps[i..][1..] == steps[i + 1..];
        match steps[i]
        case Send =>
          var _, _ := SendRequest();
        case Writable(writes) => OnWritable(writes);
        case Receive(id, result) => OnReceive(id, result);
        case Remove(id) => list := Without(list, id);
        case Clear => Stop();
        case Disconnect => Drop();
      }
    }

    /**
      A caller finds its request and waits for the response with the mutex released, while the other threads take any
      `steps`, then takes the request out of the list on demand. It gets the first result that came after its request
      was written, and nothing exactly if there was none or the request was taken away unanswered.
     */
    method WaitForResponse(id: nat, takeOut: bool, steps: seq<Step>) returns (r: Option<Request>)
      requires Inv(View()) && lastId + Sends(steps) < ID_LIMIT && SparesAnswered(View(), steps, id)
      modifies this
      ensures Inv(View())
      ensures !old(Listed(View(), id)) ==> r == None && View() == old(View())
      ensures old(Listed(View(), id)) ==>
                var s := Run(old(View()), steps);
                && (r.Some? <==> Listed(s, id) && Reply(s.log, id).Some?)
                && (r.Some? ==> r.value in s.list && r.value.id == id && r.value.response == Reply(s.log, id))
                && View() == if r.Some? && takeOut then Next(s, Remove(id)) else s
      ensures old(Listed(View(), id)) && Spares(steps, id) ==> Listed(Run(old(View()), steps), id)
    {
      var found := Find(id);
      if found.None? {
        return None;
      }
      assert list[found.value] in list;
      RunInv(View(), steps);
      if Spares(steps, id) {
        RunKeepsListed(View(), steps, id);
      }
      Others(steps);
      found := Find(id);
      if found.None? {
        return None;
      }
      var q := list[found.value];
      assert q in list && Faithful(q, log);
      if q.response.None? {
        return None;
      }
      r := Some(q);
      if takeOut {
        NextInv(View(), Remove(id));
        list := Without(list, id);
      }
    }
  }
}
