/**
  A DTV source shared by several clients: only the first client's calls, and the last one's, reach
  the base source.
 */
module SharedSource {

  const COUNT_LIMIT: nat := 0x1_0000_0000  // the reference count is unsigned 32-bit

  /** `faults` counts base calls made in the wrong state, such as opening an open source. */
  datatype State = State(refcount: nat, initialised: bool, isOpen: bool, faults: nat)

  const FRESH := State(0, false, false, 0)

  datatype Call = Init | Open | Close | Term

  function Up(n: nat): nat { if n + 1 == COUNT_LIMIT then 0 else n + 1 }

  function Down(n: nat): nat { if n == 0 then COUNT_LIMIT - 1 else n - 1 }

  function Faulty(wrong: bool): nat { if wrong then 1 else 0 }

  /** One call of any client; base calls succeed. */
  function Step(s: State, c: Call): State {
    match c
    case Init =>
      var t := if s.refcount == 0 then s.(initialised := true, faults := s.faults + Faulty(s.initialised)) else s;
      t.(refcount := Up(s.refcount))
    case Open =>
      if s.refcount == 1 then s.(isOpen := true, faults := s.faults + Faulty(!s.initialised || s.isOpen)) else s
    case Close =>
      if s.refcount == 1 then s.(isOpen := false, faults := s.faults + Faulty(!s.isOpen)) else s
    case Term =>
      var t := s.(refcount := Down(s.refcount));
      if t.refcount == 0
      then t.(initialised := false, faults := s.faults + Faulty(!s.initialised || s.isOpen)) else t
  }

  function Attach(s: State): State { Step(Step(s, Init), Open) }

  function Detach(s: State): State { Step(Step(s, Close), Term) }

  // ---------------------------------------------------------------------------
  // Clients that attach and detach in whole pairs
  // ---------------------------------------------------------------------------

  datatype Act = Join(client: int) | Leave(client: int)

  /** The clients attached after `acts`; joining twice or leaving unattached is no act of a client. */
  function Clients(acts: seq<Act>): set<int> {
    if acts == [] then {} else
      var before, a := Clients(acts[..|acts| - 1]), acts[|acts| - 1];
      match a
      case Join(c) => before + {c}
      case Leave(c) => before - {c}
  }

  predicate Proper(acts: seq<Act>) {
    acts == [] ||
    var before, a := acts[..|acts| - 1], acts[|acts| - 1];
    && Proper(before)
    && (a.Join? ==> a.client !in Clients(before) && |Clients(before)| + 1 < COUNT_LIMIT)
    && (a.Leave? ==> a.client in Clients(before))
  }

  function Run(acts: seq<Act>): State {
    if acts == [] then FRESH else
      var before := Run(acts[..|acts| - 1]);
      if acts[|acts| - 1].Join? then Attach(before) else Detach(before)
  }

  /** A source with `n` clients as it should be: initialised and open exactly if there are any. */
  function Held(n: nat): State { State(n, n > 0, n > 0, 0) }

  lemma AttachHeld(n: nat)
    requires n + 1 < COUNT_LIMIT
    ensures Attach(Held(n)) == Held(n + 1)
  {
  }

  lemma DetachHeld(n: nat)
    requires 0 < n < COUNT_LIMIT
    ensures Detach(Held(n)) == Held(n - 1)
  {
  }

  /**
    Over any run of whole attaches and detaches the base source is initialised and open exactly while
    somebody is attached, the count is the number of clients, and no base call is ever misplaced.
   */
  lemma {:induction false} OpenWhileAttached(acts: seq<Act>)
    requires Proper(acts)
    ensures Run(acts) == Held(|Clients(acts)|) && |Clients(acts)| < COUNT_LIMIT
  {
    if acts != [] {
      var before := acts[..|acts| - 1];
      OpenWhileAttached(before);
      var n := |Clients(before)|;
      match acts[|acts| - 1]
      case Join(c) =>
        AttachHeld(n);
        assert |Clients(before) + {c}| == n + 1;
      case Leave(c) =>
        assert |Clients(before) - {c}| == n - 1;
        DetachHeld(n);
    }
  }

  // ---------------------------------------------------------------------------
  // Pairs that interleave: which calls reach the base source
  // ---------------------------------------------------------------------------

  function Calls(s: State, cs: seq<Call>): State
    decreases |cs|
  {
    if cs == [] then s else Calls(Step(s, cs[0]), cs[1..])
  }

  /** How far the calls move the count. */
  function Net(cs: seq<Call>): int
    decreases |cs|
  {
    if cs == [] then 0 else (if cs[0].Init? then 1 else if cs[0].Term? then -1 else 0) + Net(cs[1..])
  }

  lemma {:induction false} CountIs(s: State, cs: seq<Call>)
    requires s.refcount < COUNT_LIMIT
    ensures Calls(s, cs).refcount == (s.refcount + Net(cs)) % 0x1_0000_0000
    decreases |cs|
  {
    if cs != [] {
      CountIs(Step(s, cs[0]), cs[1..]);
    }
  }

  /** The call is passed on to the base source, changing its state or making a fault. */
  predicate Reaches(s: State, c: Call) {
    Step(s, c).(refcount := s.refcount) != s
  }

  /** Which calls are passed on: the first client's `init`, and `open`, `close` and `term` of a client alone. */
  lemma ReachesIff(s: State, c: Call)
    requires s.refcount < COUNT_LIMIT
    ensures Reaches(s, c) <==> if c.Init? then s.refcount == 0 else s.refcount == 1
  {
  }

  /**
    Whatever other clients call between a client's `init` and its `open`, the `open` reaches the base source exactly
    if by then everybody else's inits and terms balance.
   */
  lemma OpenReachesIff(s: State, between: seq<Call>)
    requires s.refcount < COUNT_LIMIT
    ensures Reaches(Calls(Step(s, Init), between), Open) <==> (s.refcount + Net(between)) % 0x1_0000_0000 == 0
  {
    CountIs(Step(s, Init), between);
    ModOne(s.refcount, Net(between));
  }

  lemma ModOne(count: nat, net: int)
    requires count < COUNT_LIMIT
    ensures (Up(count) + net) % COUNT_LIMIT == 1 <==> (count + net) % COUNT_LIMIT == 0
  {
  }

  // ---------------------------------------------------------------------------
  // Pairs that interleave: which runs are free of faults
  // ---------------------------------------------------------------------------

  datatype Phase = Initialised | Opened | Closed

  /** A call and the client that makes it. */
  datatype Deed = Deed(client: int, call: Call)

  /** A client calls `init`, `open`, `close` and `term` in this order, over and over. */
  predicate InTurn(m: map<int, Phase>, d: Deed) {
    match d.call
    case Init => d.client !in m
    case Open => d.client in m && m[d.client] == Initialised
    case Close => d.client in m && m[d.client] == Opened
    case Term => d.client in m && m[d.client] == Closed
  }

  function After(m: map<int, Phase>, d: Deed): map<int, Phase> {
    match d.call
    case Init => m[d.client := Initialised]
    case Open => m[d.client := Opened]
    case Close => m[d.client := Closed]
    case Term => m - {d.client}
  }

  function Front<T>(s: seq<T>): seq<T>
    requires s != []
  {
    s[..|s| - 1]
  }

  function Last<T>(s: seq<T>): T
    requires s != []
  {
    s[|s| - 1]
  }

  /** Where every attached client stands. */
  function Phases(ds: seq<Deed>): map<int, Phase>
    decreases |ds|
  {
    if ds == [] then map[] else After(Phases(Front(ds)), Last(ds))
  }

  /** Every client keeps its order, and the count does not wrap. */
  predicate Orderly(ds: seq<Deed>)
    decreases |ds|
  {
    ds != [] ==>
      && Orderly(Front(ds)) && InTurn(Phases(Front(ds)), Last(ds))
      && |Phases(Front(ds))| + 1 < COUNT_LIMIT
  }

  /** A client that is alone makes a call of its own. */
  predicate Alone(ds: seq<Deed>)
    requires ds != []
  {
    |Phases(Front(ds))| == 1 && !Last(ds).call.Init?
  }

  /** Since somebody attached to the idle source: was the last `open` or `close` of a client alone an `open`? */
  predicate LeftOpen(ds: seq<Deed>)
    decreases |ds|
  {
    ds != [] && |Phases(Front(ds))| > 0 && if Alone(ds) then Last(ds).call.Open? else LeftOpen(Front(ds))
  }

  /** Whenever a client alone makes a call, it finds what it left or what it would have left itself. */
  predicate Matched(ds: seq<Deed>)
    decreases |ds|
  {
    ds != [] ==>
      && Matched(Front(ds))
      && (Alone(ds) ==> (LeftOpen(Front(ds)) <==> Last(ds).call.Close?))
  }

  function Perform(ds: seq<Deed>): State
    decreases |ds|
  {
    if ds == [] then FRESH else Step(Perform(Front(ds)), Last(ds).call)
  }

  lemma CountsAfter(m: map<int, Phase>, d: Deed)
    requires InTurn(m, d)
    ensures |After(m, d)| == |m| + if d.call.Init? then 1 else if d.call.Term? then -1 else 0
  {
    var n := After(m, d);
    match d.call
    case Init => assert n.Keys == m.Keys + {d.client};
    case Term => assert n.Keys == m.Keys - {d.client};
    case Open => assert n.Keys == m.Keys;
    case Close => assert n.Keys == m.Keys;
  }

  /** What a call does, `n` clients being attached. */
  lemma StepEffect(s: State, c: Call, n: nat)
    requires s.refcount == n && n + 1 < COUNT_LIMIT && (s.initialised <==> n > 0) && (!c.Init? ==> n > 0)
    ensures var t := Step(s, c);
            && t.refcount == n + (if c.Init? then 1 else if c.Term? then -1 else 0)
            && (t.initialised <==> t.refcount > 0)
            && t.faults == s.faults + (if n == 1 && !c.Init? && s.isOpen != c.Close? then 1 else 0)
            && t.isOpen == if n == 1 && (c.Open? || c.Close?) then c.Open? else s.isOpen
  {
  }

  /**
    A run of orderly clients, however their calls interleave, is free of faults exactly if every client that makes
    a call while alone finds the source open just when it is about to close it. The source is then initialised
    exactly while somebody is attached, and open exactly if the last client alone left it so.
   */
  lemma {:induction false} FaultFreeIff(ds: seq<Deed>)
    requires Orderly(ds)
    ensures Perform(ds).refcount == |Phases(ds)| < COUNT_LIMIT
    ensures Perform(ds).initialised <==> |Phases(ds)| > 0
    ensures Perform(ds).faults == 0 <==> Matched(ds)
    ensures Matched(ds) ==> (Perform(ds).isOpen <==> LeftOpen(ds))
    ensures |Phases(ds)| == 0 ==> !LeftOpen(ds)
    decreases |ds|
  {
    if ds != [] {
      var before, d := Front(ds), Last(ds);
      FaultFreeIff(before);
      CountsAfter(Phases(before), d);
      assert !d.call.Init? ==> |Phases(before)| > 0;
      StepEffect(Perform(before), d.call, |Phases(before)|);
    }
  }

  /** The orderly run `ds` leads to these phases and this state. */
  predicate Leads(ds: seq<Deed>, m: map<int, Phase>, s: State) {
    Orderly(ds) && Phases(ds) == m && Perform(ds) == s
  }

  lemma {:induction false} OneMore(ds: seq<Deed>, m: map<int, Phase>, s: State, d: Deed)
    requires Leads(ds, m, s) && InTurn(m, d) && |m| + 1 < COUNT_LIMIT
    ensures Leads(ds + [d], After(m, d), Step(s, d.call))
  {
    PhasesMore(ds, d);
    PerformMore(ds, d);
    OrderlyMore(ds, d);
  }

  lemma {:induction false} PhasesMore(ds: seq<Deed>, d: Deed)
    ensures Phases(ds + [d]) == After(Phases(ds), d)
  {
    assert Front(ds + [d]) == ds && Last(ds + [d]) == d;
  }

  lemma {:induction false} PerformMore(ds: seq<Deed>, d: Deed)
    ensures Perform(ds + [d]) == Step(Perform(ds), d.call)
  {
    assert Front(ds + [d]) == ds && Last(ds + [d]) == d;
  }

  lemma {:induction false} OrderlyMore(ds: seq<Deed>, d: Deed)
    requires Orderly(ds) && InTurn(Phases(ds), d) && |Phases(ds)| + 1 < COUNT_LIMIT
    ensures Orderly(ds + [d])
  {
    assert Front(ds + [d]) == ds && Last(ds + [d]) == d;
  }

  /** `a` attaches to the idle source and `b` announces itself. */
  lemma {:induction false} Joining(a: int, b: int)
    requires a != b
    ensures Leads([Deed(a, Init)] + [Deed(a, Open)] + [Deed(b, Init)],
                  map[a := Opened, b := Initialised], State(2, true, true, 0))
  {
    JoiningAlone(a);
    OneMore([Deed(a, Init)] + [Deed(a, Open)], map[a := Opened], State(1, true, true, 0), Deed(b, Init));
  }

  lemma {:induction false} JoiningAlone(a: int)
    ensures Leads([Deed(a, Init)] + [Deed(a, Open)], map[a := Opened], State(1, true, true, 0))
  {
    Announced(a);
    OneMore([Deed(a, Init)], map[a := Initialised], State(1, true, false, 0), Deed(a, Open));
  }

  lemma {:induction false} Announced(a: int)
    ensures Leads([Deed(a, Init)], map[a := Initialised], State(1, true, false, 0))
  {
    var ds := [Deed(a, Init)];
    assert Front(ds) == [] && Last(ds) == Deed(a, Init);
  }

  /** From there, `a` leaves before `b` opens: `b` opens an open source. */
  lemma {:induction false} JoiningFaults(a: int, b: int, ds: seq<Deed>)
    requires a != b && Leads(ds, map[a := Opened, b := Initialised], State(2, true, true, 0))
    ensures var run := ds + [Deed(a, Close)] + [Deed(a, Term)] + [Deed(b, Open)];
            Leads(run, map[b := Opened], State(1, true, true, 1)) && !Matched(run)
  {
    var d1 := ds + [Deed(a, Close)];
    var d2 := d1 + [Deed(a, Term)];
    OneMore(ds, map[a := Opened, b := Initialised], State(2, true, true, 0), Deed(a, Close));
    OneMore(d1, map[a := Closed, b := Initialised], State(2, true, true, 0), Deed(a, Term));
    assert map[a := Closed, b := Initialised] - {a} == map[b := Initialised];
    OneMore(d2, map[b := Initialised], State(1, true, true, 0), Deed(b, Open));
    FaultFreeIff(d2 + [Deed(b, Open)]);
  }

  /** From there, `b` opens, and both close before either terminates: the source is terminated while open. */
  lemma {:induction false} LeavingFaults(a: int, b: int, ds: seq<Deed>)
    requires a != b && Leads(ds, map[a := Opened, b := Initialised], State(2, true, true, 0))
    ensures var run := ds + [Deed(b, Open)] + [Deed(b, Close)] + [Deed(a, Close)] + [Deed(b, Term)] + [Deed(a, Term)];
            Leads(run, map[], State(0, false, true, 1)) && !Matched(run)
  {
    var s := State(2, true, true, 0);
    var d1 := ds + [Deed(b, Open)];
    var d2 := d1 + [Deed(b, Close)];
    var d3 := d2 + [Deed(a, Close)];
    var d4 := d3 + [Deed(b, Term)];
    OneMore(ds, map[a := Opened, b := Initialised], s, Deed(b, Open));
    OneMore(d1, map[a := Opened, b := Opened], s, Deed(b, Close));
    OneMore(d2, map[a := Opened, b := Closed], s, Deed(a, Close));
    OneMore(d3, map[a := Closed, b := Closed], s, Deed(b, Term));
    assert map[a := Closed, b := Closed] - {b} == map[a := Closed];
    OneMore(d4, map[a := Closed], State(1, true, true, 0), Deed(a, Term));
    assert map[a := Closed] - {a} == map[];
    FaultFreeIff(d4 + [Deed(a, Term)]);
  }

  // ---------------------------------------------------------------------------
  // The source object
  // ---------------------------------------------------------------------------

  class DtvSource {
    var refcount: nat
    var initialised: bool
    var isOpen: bool
    ghost var faults: nat
    ghost var clients: set<int>  // who has attached and not detached

    ghost function View(): State
      reads this
    {
      State(refcount, initialised, isOpen, faults)
    }

    /** Initialised and open exactly while somebody is attached; no base call was ever misplaced. */
    ghost predicate Valid()
      reads this
    {
      View() == Held(|clients|) && |clients| < COUNT_LIMIT
    }

    constructor ()
      ensures View() == FRESH && clients == {} && Valid()
    {
      refcount, initialised, isOpen, faults, clients := 0, false, false, 0, {};
    }

    /** A client attaches: `init`, then `open`. */
    method Join(ghost client: int)
      requires Valid() && client !in clients && |clients| + 1 < COUNT_LIMIT
      modifies this
      ensures Valid() && clients == old(clients) + {client} && initialised && isOpen
    {
      AttachHeld(|clients|);
      InitSource();
      OpenSource();
      clients := clients + {client};
    }

    /** A client detaches: `close`, then `term`. */
    method Leave(ghost client: int)
      requires Valid() && client in clients
      modifies this
      ensures Valid() && clients == old(clients) - {client}
      ensures isOpen <==> clients != {}
      ensures initialised <==> clients != {}
    {
      DetachHeld(|clients|);
      CloseSource();
      TermSource();
      clients := clients - {client};
      assert |clients| == 0 <==> clients == {};
    }

    /** One call of a client, whoever it is. */
    method Do(c: Call)
      modifies this`refcount, this`initialised, this`isOpen, this`faults
      ensures View() == Step(old(View()), c)
    {
      match c
      case Init => InitSource();
      case Open => OpenSource();
      case Close => CloseSource();
      case Term => TermSource();
    }

    method InitSource()
      modifies this`refcount, this`initialised, this`isOpen, this`faults
      ensures View() == Step(old(View()), Init)
    {
      if refcount == 0 {
        faults := faults + Faulty(initialised);
        initialised := true;
      }
      refcount := if refcount + 1 == COUNT_LIMIT then 0 else refcount + 1;
    }

    method OpenSource()
      modifies this`refcount, this`initialised, this`isOpen, this`faults
      ensures View() == Step(old(View()), Open)
    {
      if refcount == 1 {
        faults := faults + Faulty(!initialised || isOpen);
        isOpen := true;
      }
    }

    method CloseSource()
      modifies this`refcount, this`initialised, this`isOpen, this`faults
      ensures View() == Step(old(View()), Close)
    {
      if refcount == 1 {
        faults := faults + Faulty(!isOpen);
        isOpen := false;
      }
    }

    method TermSource()
      modifies this`refcount, this`initialised, this`isOpen, this`faults
      ensures View() == Step(old(View()), Term)
    {
      refcount := if refcount == 0 then COUNT_LIMIT - 1 else refcount - 1;
      if refcount == 0 {
        faults := faults + Faulty(!initialised || isOpen);
        initialised := false;
      }
    }
  }
}
