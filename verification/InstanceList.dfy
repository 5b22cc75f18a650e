/**
  The list of shared DTV sources: a hand-linked list of (URI, source) nodes. A lookup matches a URI
  exactly, except that "dtv://" matches any node; a source leaves the list when it is freed unused.
 */
module InstanceList {
  import opened Options
  import SharedSource

  type DtvSource = SharedSource.DtvSource

  const ANY := "dtv://"

  datatype Entry<S> = Entry(uri: string, src: S)

  predicate Matches<S>(uri: string, e: Entry<S>) { uri == ANY || uri == e.uri }

  /** The first source whose node matches. */
  function Lookup<S>(list: seq<Entry<S>>, uri: string): Option<S> {
    if list == [] then None
    else if Matches(uri, list[0]) then Some(list[0].src)
    else Lookup(list[1..], uri)
  }

  /** The list without the first node of `src`. */
  function Unlinked<S(==)>(list: seq<Entry<S>>, src: S): seq<Entry<S>> {
    if list == [] then []
    else if list[0].src == src then list[1..]
    else [list[0]] + Unlinked(list[1..], src)
  }

  ghost predicate Distinct<S>(list: seq<Entry<S>>) {
    forall i, j | 0 <= i < j < |list| :: list[i].uri != list[j].uri && list[i].src != list[j].src
  }

  // ---------------------------------------------------------------------------
  // Runs of non-overlapping calls
  // ---------------------------------------------------------------------------

  /** `Get` may have to create a source, and may fail to; `Free` finds the source used or unused. */
  datatype Op<S> = Get(uri: string, created: Option<S>) | Free(src: S, unused: bool)

  function Step<S(==)>(list: seq<Entry<S>>, op: Op<S>): seq<Entry<S>> {
    match op
    case Get(uri, created) =>
      if Lookup(list, uri).Some? || created.None? then list else [Entry(uri, created.value)] + list
    case Free(src, unused) => if unused then Unlinked(list, src) else list
  }

  /** What `Get` hands out. */
  function Result<S(==)>(list: seq<Entry<S>>, uri: string, created: Option<S>): Option<S> {
    if Lookup(list, uri).Some? then Lookup(list, uri) else created
  }

  function Run<S(==)>(list: seq<Entry<S>>, ops: seq<Op<S>>): seq<Entry<S>>
    decreases |ops|
  {
    if ops == [] then list else Run(Step(list, ops[0]), ops[1..])
  }

  /** Every source a `Get` creates is a new object. */
  ghost predicate Fresh<S>(list: seq<Entry<S>>, ops: seq<Op<S>>)
    decreases |ops|
  {
    ops != [] ==>
      && (ops[0].Get? && ops[0].created.Some? ==> forall e <- list :: e.src != ops[0].created.value)
      && Fresh(Step(list, ops[0]), ops[1..])
  }

  /** A run and its freshness, one operation further. */
  lemma {:induction false} RunOn<S>(list: seq<Entry<S>>, ops: seq<Op<S>>, op: Op<S>)
    ensures Run(list, ops + [op]) == Step(Run(list, ops), op)
    ensures Fresh(list, ops + [op]) <==> Fresh(list, ops) && Fresh(Run(list, ops), [op])
    decreases |ops|
  {
    if ops == [] {
      assert ops + [op] == [op];
    } else {
      assert (ops + [op])[1..] == ops[1..] + [op];
      RunOn(Step(list, ops[0]), ops[1..], op);
    }
  }

  /** The same for at most one operation, from `before` to `after`. */
  lemma RunOnBy<S>(list: seq<Entry<S>>, ops: seq<Op<S>>, before: seq<Entry<S>>, more: seq<Op<S>>, after: seq<Entry<S>>)
    requires Fresh(list, ops) && before == Run(list, ops) && |more| <= 1
    requires if more == [] then after == before else after == Step(before, more[0]) && Fresh(before, more)
    ensures Fresh(list, ops + more) && after == Run(list, ops + more)
  {
    if more == [] {
      assert ops + more == ops;
    } else {
      assert more == [more[0]];
      RunOn(list, ops, more[0]);
    }
  }

  lemma {:induction false} LookupMeans<S>(list: seq<Entry<S>>, uri: string)
    ensures Lookup(list, uri).None? <==> forall e <- list :: !Matches(uri, e)
    ensures Lookup(list, uri).Some? ==> exists e <- list :: Matches(uri, e) && e.src == Lookup(list, uri).value
  {
    if list != [] {
      assert list[0] in list;
      LookupMeans(list[1..], uri);
      assert list == [list[0]] + list[1..];
    }
  }

  /** In a list of distinct nodes a specific URI finds exactly its own node. */
  lemma {:induction false} LookupIff<S>(list: seq<Entry<S>>, uri: string, src: S)
    requires Distinct(list) && uri != ANY
    ensures Lookup(list, uri) == Some(src) <==> Entry(uri, src) in list
  {
    if list != [] {
      assert list == [list[0]] + list[1..];
      LookupIff(list[1..], uri, src);
      if Entry(uri, src) in list[1..] {
        var j :| 0 <= j < |list[1..]| && list[1..][j] == Entry(uri, src);
        assert list[j + 1].uri != list[0].uri;
      }
    }
  }

  lemma {:induction false} UnlinkedAt<S>(list: seq<Entry<S>>, src: S, i: nat)
    requires i < |list| && list[i].src == src && forall k | 0 <= k < i :: list[k].src != src
    ensures Unlinked(list, src) == Dropped(list, i)
    decreases i
  {
    if i > 0 {
      var tail := list[1..];
      UnlinkedAt(tail, src, i - 1);
      assert [list[0]] + (tail[..i - 1] + tail[i..]) == list[..i] + list[i + 1..];
    }
  }

  lemma {:induction false} UnlinkedAbsent<S>(list: seq<Entry<S>>, src: S)
    requires forall e <- list :: e.src != src
    ensures Unlinked(list, src) == list
  {
    if list != [] {
      assert list[0] in list;
      UnlinkedAbsent(list[1..], src);
    }
  }

  /** Dropping one position keeps the other nodes distinct, and they are all the others. */
  lemma RemovedAt<S>(list: seq<Entry<S>>, i: nat)
    requires Distinct(list) && i < |list|
    ensures var rest := Dropped(list, i);
            && Distinct(rest)
            && (forall e <- rest :: e in list && e.src != list[i].src)
            && (forall e <- list | e.src != list[i].src :: e in rest)
  {
    var rest := Dropped(list, i);
    forall e <- list | e.src != list[i].src ensures e in rest {
      var j :| 0 <= j < |list| && list[j] == e;
      assert rest[if j < i then j else j - 1] == e;
    }
  }

  /** Unlinking removes exactly the node of `src`. */
  lemma UnlinkedIs<S>(list: seq<Entry<S>>, src: S)
    requires Distinct(list)
    ensures Distinct(Unlinked(list, src))
    ensures forall e :: e in Unlinked(list, src) <==> e in list && e.src != src
  {
    if i :| 0 <= i < |list| && list[i].src == src {
      forall k | 0 <= k < i ensures list[k].src != src {
        assert list[k].src != list[i].src;
      }
      UnlinkedAt(list, src, i);
      RemovedAt(list, i);
    } else {
      UnlinkedAbsent(list, src);
    }
  }

  lemma StepDistinct<S>(list: seq<Entry<S>>, op: Op<S>)
    requires Distinct(list) && Fresh(list, [op])
    ensures Distinct(Step(list, op))
  {
    match op
    case Get(uri, created) =>
      LookupMeans(list, uri);
      var next := Step(list, op);
      if next != list {
        forall j | 0 <= j < |list| ensures list[j].uri != uri && list[j].src != created.value {
          assert list[j] in list && !Matches(uri, list[j]);
        }
      }
    case Free(src, unused) => UnlinkedIs(list, src);
  }

  ghost predicate Frees<S>(ops: seq<Op<S>>, src: S) {
    exists i :: 0 <= i < |ops| && ops[i] == Free(src, true)
  }

  /** Over any run, nodes stay distinct and a specific URI keeps finding the same source until that source is freed. */
  lemma {:induction false} SameUntilFreed<S>(list: seq<Entry<S>>, ops: seq<Op<S>>, uri: string, src: S)
    requires Distinct(list) && Fresh(list, ops)
    ensures Distinct(Run(list, ops))
    ensures uri != ANY && Lookup(list, uri) == Some(src) && !Frees(ops, src) ==>
              Lookup(Run(list, ops), uri) == Some(src)
    decreases |ops|
  {
    if ops != [] {
      var next := Step(list, ops[0]);
      assert Fresh(list, [ops[0]]);
      StepDistinct(list, ops[0]);
      SameUntilFreed(next, ops[1..], uri, src);
      if uri != ANY && Lookup(list, uri) == Some(src) && !Frees(ops, src) {
        LookupIff(list, uri, src);
        assert ops[0] != Free(src, true);
        UnlinkedIs(list, if ops[0].Free? then ops[0].src else src);
        assert Entry(uri, src) in next;
        LookupIff(next, uri, src);
        assert forall i | 0 <= i < |ops[1..]| :: ops[1..][i] == ops[i + 1];
      }
    }
  }

  lemma AllSameUntilFreed<S>(list: seq<Entry<S>>, ops: seq<Op<S>>)
    requires Distinct(list) && Fresh(list, ops)
    ensures forall uri, src | uri != ANY && Lookup(list, uri) == Some(src) && !Frees(ops, src) ::
              Lookup(Run(list, ops), uri) == Some(src)
  {
    forall uri, src | uri != ANY && Lookup(list, uri) == Some(src) && !Frees(ops, src)
      ensures Lookup(Run(list, ops), uri) == Some(src)
    {
      SameUntilFreed(list, ops, uri, src);
    }
  }

  /** A source that is not listed and not created again is found by no lookup, whatever happens. */
  lemma {:induction false} StaysGone<S>(list: seq<Entry<S>>, ops: seq<Op<S>>, src: S)
    requires Distinct(list) && Fresh(list, ops) && (forall e <- list :: e.src != src)
    requires forall op <- ops :: op.Get? ==> op.created != Some(src)
    ensures forall e <- Run(list, ops) :: e.src != src
    decreases |ops|
  {
    if ops != [] {
      assert ops[0] in ops && Fresh(list, [ops[0]]) && forall op <- ops[1..] :: op in ops;
      StepDistinct(list, ops[0]);
      if ops[0].Free? {
        UnlinkedIs(list, ops[0].src);
      }
      StaysGone(Step(list, ops[0]), ops[1..], src);
    }
  }

  /** A freed source is gone for good: after any run that does not create it again, no lookup finds it. */
  lemma GoneAfterFree<S>(list: seq<Entry<S>>, src: S, ops: seq<Op<S>>, uri: string)
    requires Distinct(list) && Fresh(Unlinked(list, src), ops)
    requires forall op <- ops :: op.Get? ==> op.created != Some(src)
    ensures Lookup(Run(Step(list, Free(src, true)), ops), uri) != Some(src)
  {
    UnlinkedIs(list, src);
    StaysGone(Unlinked(list, src), ops, src);
    LookupMeans(Run(Unlinked(list, src), ops), uri);
  }

  /** What "dtv://" finds stays the same exactly if nothing is added and the front node is not freed. */
  lemma AnyKeepsIff<S>(list: seq<Entry<S>>, op: Op<S>)
    requires Distinct(list) && Fresh(list, [op]) && list != []
    ensures Lookup(Step(list, op), "dtv://") == Lookup(list, "dtv://") <==>
            if op.Get? then Lookup(list, op.uri).Some? || op.created.None? else op != Free(list[0].src, true)
  {
    assert list[0] in list;
    if op.Free? && op.unused && op.src == list[0].src {
      GoneAfterFree(list, op.src, [], ANY);
    }
  }

  /** "dtv://" is not sticky: it always finds the node added last, even if a node of that very name exists. */
  lemma AnyFindsNewest<S>(list: seq<Entry<S>>, uri: string, a: S)
    requires Lookup(list, uri).None?
    ensures Lookup(Step(list, Get(uri, Some(a))), "dtv://") == Some(a)
  {
    assert Step(list, Get(uri, Some(a)))[0] == Entry(uri, a);
  }

  // ---------------------------------------------------------------------------
  // Overlapping calls
  // ---------------------------------------------------------------------------

  /** `Get` holds the list's mutex twice: to look the URI up, and to add a new node after a miss. */
  datatype Section<S> = Look(caller: nat, uri: string) | Add(caller: nat, created: S)

  /** The list, and the URIs that callers between their two sections have missed. */
  datatype Shared<S> = Shared(list: seq<Entry<S>>, missed: map<nat, string>)

  function Enter<S>(s: Shared<S>, p: Section<S>): Shared<S> {
    match p
    case Look(caller, uri) =>
      if Lookup(s.list, uri).Some? then s else s.(missed := s.missed[caller := uri])
    case Add(caller, created) =>
      if caller !in s.missed then s
      else Shared([Entry(s.missed[caller], created)] + s.list, s.missed - {caller})
  }

  function EnterAll<S>(s: Shared<S>, ps: seq<Section<S>>): Shared<S>
    decreases |ps|
  {
    if ps == [] then s else EnterAll(Enter(s, ps[0]), ps[1..])
  }

  lemma EnterFirst<S>(s: Shared<S>, p: Section<S>, rest: seq<Section<S>>)
    ensures EnterAll(s, [p] + rest) == EnterAll(Enter(s, p), rest)
  {
    assert ([p] + rest)[1..] == rest;
  }

  /** The two sections of one call, with nobody in between, are a `Get`. */
  lemma UndisturbedGet<S>(s: Shared<S>, caller: nat, uri: string, created: S)
    requires caller !in s.missed
    ensures EnterAll(s, [Look(caller, uri), Add(caller, created)]) ==
            s.(list := Step(s.list, Get(uri, Some(created))))
  {
    var look: Section<S>, add := Look(caller, uri), Add(caller, created);
    EnterFirst(s, look, [add]);
    EnterFirst(Enter(s, look), add, []);
    assert [look] + [add] == [look, add] && [add] + [] == [add];
    assert s.missed[caller := uri] - {caller} == s.missed;
  }

  /** A new node clashes with none that is listed. */
  ghost predicate NoClash<S>(list: seq<Entry<S>>, e: Entry<S>) {
    forall i | 0 <= i < |list| :: list[i].uri != e.uri && list[i].src != e.src
  }

  lemma FrontDistinctIff<S>(list: seq<Entry<S>>, e: Entry<S>, next: seq<Entry<S>>)
    requires Distinct(list) && |next| == |list| + 1 && next[0] == e
    requires forall i | 0 <= i < |list| :: next[i + 1] == list[i]
    ensures Distinct(next) <==> NoClash(list, e)
  {
    if Distinct(next) {
      forall i | 0 <= i < |list| ensures list[i].uri != e.uri && list[i].src != e.src {
        assert next[0].uri != next[i + 1].uri;
      }
    } else {
      var i, j :| 0 <= i < j < |next| && !(next[i].uri != next[j].uri && next[i].src != next[j].src);
      assert next[j] == list[j - 1] && (i > 0 ==> next[i] == list[i - 1]);
    }
  }

  /** An insertion keeps the nodes distinct exactly if, by then, neither its URI nor its source is listed. */
  lemma AddKeepsDistinctIff<S>(s: Shared<S>, caller: nat, created: S)
    requires Distinct(s.list) && caller in s.missed
    ensures Distinct(Enter(s, Add(caller, created)).list) <==> NoClash(s.list, Entry(s.missed[caller], created))
  {
    FrontDistinctIff(s.list, Entry(s.missed[caller], created), Enter(s, Add(caller, created)).list);
  }

  /** Two callers who miss the same URI before either adds it: it is listed twice. */
  lemma OverlappingGetsDuplicate<S>(uri: string, a: S, b: S)
    ensures var run := [Look(1, uri), Look(2, uri), Add(1, a), Add(2, b)];
            var end := EnterAll(Shared([], map[]), run);
            end.list == [Entry(uri, b), Entry(uri, a)] && !Distinct(end.list)
  {
    var run := [Look(1, uri), Look(2, uri), Add(1, a), Add(2, b)];
    var s0: Shared<S> := Shared([], map[]);
    var s2 := Enter(Enter(s0, run[0]), run[1]);
    assert s2.list == [] && s2.missed == map[1 := uri, 2 := uri];
    var s4 := Enter(Enter(s2, run[2]), run[3]);
    assert s4.list == [Entry(uri, b), Entry(uri, a)];
    assert run == [run[0]] + ([run[1]] + ([run[2]] + ([run[3]] + [])));
    EnterFirst(s0, run[0], [run[1]] + ([run[2]] + ([run[3]] + [])));
    EnterFirst(Enter(s0, run[0]), run[1], [run[2]] + ([run[3]] + []));
    EnterFirst(s2, run[2], [run[3]] + []);
    EnterFirst(Enter(s2, run[2]), run[3], []);
    assert s4.list[0].uri == s4.list[1].uri;
  }

  // ---------------------------------------------------------------------------
  // The linked list
  // ---------------------------------------------------------------------------

  class Node {
    const uri: string
    const src: DtvSource
    var next: Node?

    constructor (uri: string, src: DtvSource, next: Node?)
      ensures this.uri == uri && this.src == src && this.next == next
    {
      this.uri, this.src, this.next := uri, src, next;
    }
  }

  /** A client names what it was handed by the order of the hand-outs. */
  datatype ClientCall =
    | GetCall(uri: string)
    | UseCall(h: nat, call: SharedSource.Call)
    | FreeCall(h: nat)

  class Registry {
    var head: Node?
    ghost var spine: seq<Node>

    /** Following `next` from `head` visits `spine` and stops. */
    ghost predicate Linked()
      reads this, spine
    {
      head == NodeAt(spine, 0) && forall i | 0 <= i < |spine| :: spine[i].next == NodeAt(spine, i + 1)
    }

    ghost function Entries(): seq<Entry<DtvSource>>
      reads this
    {
      EntriesOf(spine)
    }

    ghost predicate Valid()
      reads this, spine
    {
      && Linked()
      && NoRepeat(spine)
      && Distinct(Entries())
    }

    constructor ()
      ensures Valid() && Entries() == []
    {
      head, spine := null, [];
    }

    /** The sources of the listed nodes. */
    ghost function Sources(): set<DtvSource>
      reads this
    {
      set n <- spine :: n.src
    }

    /**
      Any run of clients' calls, one at a time: clients ask for sources, use what they were handed in any way, and
      give it back. Nothing listed is ever lost or doubled, and a specific URI keeps its source until that is freed.
     */
    method Serve(calls: seq<ClientCall>) returns (handed: seq<DtvSource>, ghost trace: seq<Op<DtvSource>>)
      requires Valid()
      modifies this, spine, Sources()
      ensures Valid() && Fresh(old(Entries()), trace) && Entries() == Run(old(Entries()), trace)
      ensures forall uri, src | uri != ANY && Lookup(old(Entries()), uri) == Some(src) && !Frees(trace, src) ::
                Lookup(Entries(), uri) == Some(src)
    {
      handed, trace := [], [];
      for i := 0 to |calls|
        invariant Valid()
        invariant Fresh(old(Entries()), trace) && Entries() == Run(old(Entries()), trace)
        invariant forall j | 0 <= j < |spine| :: spine[j] in old(spine) || fresh(spine[j])
        invariant forall d <- Sources() :: d in old(Sources()) || fresh(d)
        invariant forall j | 0 <= j < |handed| :: handed[j] in old(Sources()) || fresh(handed[j])
      {
        ghost var before, ops := Entries(), [];
        handed, ops := ServeOne(calls[i], handed);
        RunOnBy(old(Entries()), trace, before, ops, Entries());
        trace := trace + ops;
      }
      AllSameUntilFreed(old(Entries()), trace);
    }

    /** One call of a client; `ops` is what it does to the list, if anything. */
    method ServeOne(call: ClientCall, handed: seq<DtvSource>)
      returns (handed': seq<DtvSource>, ghost ops: seq<Op<DtvSource>>)
      requires Valid()
      modifies this, spine, handed
      ensures Valid() && |ops| <= 1
      ensures if ops == [] then Entries() == old(Entries())
              else Entries() == Step(old(Entries()), ops[0]) && Fresh(old(Entries()), ops)
      ensures forall j | 0 <= j < |spine| :: spine[j] in old(spine) || fresh(spine[j])
      ensures forall d <- Sources() :: d in old(Sources()) || fresh(d)
      ensures handed <= handed'
      ensures forall j | |handed| <= j < |handed'| :: handed'[j] in old(Sources()) || fresh(handed'[j])
    {
      handed', ops := handed, [];
      match call
      case GetCall(uri) =>
        ghost var op;
        var r;
        r, op := Hand(uri);
        ops := [op];
        if r.Some? {
          handed' := handed + [r.value];
        }
      case UseCall(h, c) =>
        if h < |handed| {
          handed[h].Do(c);
        }
      case FreeCall(h) =>
        if h < |handed| {
          ops := [Free(handed[h], handed[h].refcount == 0)];
          FreeInstance(handed[h]);
        }
    }

    /** `GetInstance` as a step of a run: what it creates is new, what it finds is listed. */
    method Hand(uri: string) returns (r: Option<DtvSource>, ghost op: Op<DtvSource>)
      requires Valid()
      modifies this
      ensures Valid() && Entries() == Step(old(Entries()), op) && Fresh(old(Entries()), [op])
      ensures forall n <- spine :: n in old(spine) || (fresh(n) && fresh(n.src))
      ensures r.Some? ==> r.value in old(Sources()) || fresh(r.value)
      ensures op.Get?
    {
      r := GetInstance(uri);
      LookupMeans(old(Entries()), uri);
      if Lookup(old(Entries()), uri).Some? {
        op := Get(uri, None);
      } else {
        op := Get(uri, r);
        assert r.Some? ==> Entries()[0] == Entry(uri, r.value);
      }
    }

    /** Finds a source for `uri` or adds one at the front; `None` if memory ran out. */
    method GetInstance(uri: string) returns (r: Option<DtvSource>)
      requires Valid()
      modifies this
      ensures Valid() && (spine == old(spine) || (spine != [] && fresh(spine[0]) && spine[1..] == old(spine)))
      ensures Entries() == Step(old(Entries()), Get(uri, r)) && r == Result(old(Entries()), uri, r)
      ensures r.Some? && Lookup(old(Entries()), uri).None? ==> fresh(r.value) && r.value.refcount == 0
    {
      r := None;
      var ptr := head;
      ghost var i := 0;
      while ptr != null && r == None
        invariant i <= |spine| && ptr == NodeAt(spine, i)
        invariant r == None ==> Lookup(EntriesOf(spine[i..]), uri) == Lookup(Entries(), uri)
        invariant r != None ==> Lookup(Entries(), uri) == r
        decreases |spine| - i
      {
        assert EntriesOf(spine[i..])[1..] == EntriesOf(spine[i + 1..]);
        if uri == ANY || uri == ptr.uri {
          r := Some(ptr.src);
        }
        ptr := ptr.next;
        i := i + 1;
      }
      if r == None {
        var memory: bool := *;
        if memory {
          var src := Insert(uri);
          r := Some(src);
        }
      }
    }

    method Insert(uri: string) returns (r: DtvSource)
      requires Valid() && Lookup(Entries(), uri).None?
      modifies this
      ensures Valid() && fresh(r) && r.refcount == 0
      ensures spine != [] && fresh(spine[0]) && spine[1..] == old(spine)
      ensures Entries() == [Entry(uri, r)] + old(Entries())
    {
      ghost var before := Entries();
      LookupMeans(before, uri);
      r := new SharedSource.DtvSource();
      var node := new Node(uri, r, head);
      head := node;
      spine := [node] + spine;
      assert Entries() == [Entry(uri, r)] + before;
      forall j | 0 <= j < |before| ensures before[j].uri != uri && before[j].src != r {
        assert before[j] in before && !Matches(uri, before[j]);
        assert before[j].src == old(spine)[j].src;
      }
    }

    /** Unlinks the node of `src` if the source is unused. */
    method FreeInstance(src: DtvSource)
      requires Valid()
      modifies this, spine
      ensures Valid() && forall n <- spine :: n in old(spine)
      ensures Entries() == if src.refcount == 0 then Unlinked(old(Entries()), src) else old(Entries())
    {
      var prev: Node? := null;
      var ptr := head;
      ghost var i := 0;
      ghost var before := Entries();
      while ptr != null
        invariant i <= |spine| && spine == old(spine) && head == old(head)
        invariant ptr == NodeAt(spine, i) && prev == NodeAt(spine, i - 1)
        invariant Valid()
        invariant forall k | 0 <= k < i :: spine[k].src != src
        decreases |spine| - i
      {
        if ptr.src == src {
          if src.refcount == 0 {
            Unlink(prev, ptr, i);
            assert forall k | 0 <= k <= i :: before[k].src == old(spine)[k].src;
            UnlinkedAt(before, src, i);
          }
          return;
        }
        prev, ptr := ptr, ptr.next;
        i := i + 1;
      }
      forall e <- before ensures e.src != src {
        var k :| 0 <= k < |before| && before[k] == e;
        assert spine[k].src != src;
      }
      UnlinkedAbsent(before, src);
    }

    method Unlink(prev: Node?, ptr: Node, ghost i: nat)
      requires Valid() && i < |spine| && ptr == spine[i] && prev == NodeAt(spine, i - 1)
      modifies this, prev
      ensures Valid() && spine == Dropped(old(spine), i)
      ensures Entries() == Dropped(old(Entries()), i)
    {
      EntriesDropped(spine, i);
      RemovedAt(Entries(), i);
      Relink(prev, ptr, i);
    }

    /** The pointer surgery alone. */
    method Relink(prev: Node?, ptr: Node, ghost i: nat)
      requires Linked() && NoRepeat(spine) && i < |spine| && ptr == spine[i] && prev == NodeAt(spine, i - 1)
      modifies this, prev
      ensures Linked() && NoRepeat(spine) && spine == Dropped(old(spine), i)
    {
      if prev == null {
        head := ptr.next;
      } else {
        prev.next := ptr.next;
      }
      spine := Dropped(spine, i);
    }
  }

  ghost predicate NoRepeat(spine: seq<Node>) {
    forall i, j | 0 <= i < j < |spine| :: spine[i] != spine[j]
  }

  ghost function Dropped<T>(s: seq<T>, i: nat): (r: seq<T>)
    requires i < |s|
    ensures |r| == |s| - 1 && forall j | 0 <= j < |r| :: r[j] == s[if j < i then j else j + 1]
  {
    s[..i] + s[i + 1..]
  }

  lemma EntriesDropped(spine: seq<Node>, i: nat)
    requires i < |spine|
    ensures EntriesOf(Dropped(spine, i)) == Dropped(EntriesOf(spine), i)
  {
  }

  ghost function NodeAt(spine: seq<Node>, i: int): Node? {
    if 0 <= i < |spine| then spine[i] else null
  }

  ghost function EntriesOf(spine: seq<Node>): seq<Entry<DtvSource>> {
    seq(|spine|, i requires 0 <= i < |spine| => Entry(spine[i].uri, spine[i].src))
  }
}
