/**
  The registry of shared ad-insertion filters, keyed by source locator.

  The first user of a locator brings the QAM source of that locator; every further user makes the
  registry take one more reference on it from the QAM factory, and every release but the last gives
  one back. Filter initialisation and source attachment succeed.
 */
module FilterRegistry {

  /** A QAM source and the references the filter registry holds on it. */
  class QamSource {
    var extraRefs: int

    constructor ()
      ensures extraRefs == 0
    {
      extraRefs := 0;
    }
  }

  /** The factory of QAM sources: one per locator. */
  class QamFactory {
    const instances: map<string, QamSource>

    constructor (instances: map<string, QamSource>)
      ensures this.instances == instances
    {
      this.instances := instances;
    }

    ghost predicate OnePerLocator() {
      forall l <- instances, k <- instances | l != k :: instances[l] != instances[k]
    }

    method Get(locator: string) returns (src: QamSource)
      requires locator in instances
      modifies instances[locator]
      ensures src == instances[locator] && src.extraRefs == old(src.extraRefs) + 1
    {
      src := instances[locator];
      src.extraRefs := src.extraRefs + 1;
    }

    method Free(src: QamSource)
      modifies src
      ensures src.extraRefs == old(src.extraRefs) - 1
    {
      src.extraRefs := src.extraRefs - 1;
    }
  }

  class Filter {
    const locator: string
    var source: QamSource?
    var refCount: int

    constructor (locator: string)
      ensures this.locator == locator && source == null && refCount == 0
    {
      this.locator, source, refCount := locator, null, 0;
    }
  }

  datatype Op = Acquire(locator: string) | Release(locator: string)

  /** How many users of `l` the first `i` operations leave of `n`; a release without a user does nothing. */
  function Users(n: int, ops: seq<Op>, i: nat, l: string): int
    requires i <= |ops|
  {
    if i == 0 then n
    else
      var before := Users(n, ops, i - 1, l);
      match ops[i - 1]
      case Acquire(locator) => if locator == l then before + 1 else before
      case Release(locator) => if locator == l && before > 0 then before - 1 else before
  }

  class Registry {
    const qam: QamFactory
    var filters: map<string, Filter>

    /** A registered filter sits under its own locator, has users, and is attached to that locator's source. */
    ghost predicate Registered(l: string)
      requires l in filters
      reads this, filters[l]
    {
      var f := filters[l];
      f.locator == l && f.refCount >= 1 && l in qam.instances && f.source == qam.instances[l]
    }

    /** References on the source of `l`: one per user beyond the first, none without a filter. */
    ghost predicate Conserved(l: string)
      requires l in qam.instances
      reads this, filters.Values, qam.instances.Values
    {
      qam.instances[l].extraRefs == if l in filters then filters[l].refCount - 1 else 0
    }

    ghost predicate Valid()
      reads this, filters.Values, qam.instances.Values
    {
      && qam.OnePerLocator()
      && (forall l <- filters :: Registered(l))
      && (forall l <- qam.instances :: Conserved(l))
    }

    /** Only what belongs to locator `l` has changed, and it still fits together. */
    twostate lemma OneLocator(l: string)
      requires old(Valid())
      requires forall k | k != l :: k in filters <==> k in old(filters)
      requires forall k <- old(filters) | k != l ::
                 && filters[k] == old(filters[k])
                 && filters[k].refCount == old(filters[k].refCount) && filters[k].source == old(filters[k].source)
      requires forall k <- qam.instances | k != l ::
                 qam.instances[k].extraRefs == old(qam.instances[k].extraRefs)
      requires l in filters ==> Registered(l)
      requires l in qam.instances ==> Conserved(l)
      ensures Valid()
    {
      forall k <- filters | k != l ensures Registered(k) {
        assert old(Registered(k));
      }
      forall k <- qam.instances | k != l ensures Conserved(k) {
        assert old(Conserved(k));
      }
    }

    ghost function UsersOf(l: string): int
      reads this, filters.Values
    {
      if l in filters then filters[l].refCount else 0
    }

    constructor (qam: QamFactory)
      requires qam.OnePerLocator() && forall l <- qam.instances :: qam.instances[l].extraRefs == 0
      ensures Valid() && filters == map[] && this.qam == qam
    {
      this.qam, filters := qam, map[];
    }

    /** `src` is used for a new locator only, and must then be the source the factory serves for it. */
    method GetInstance(src: QamSource, locator: string) returns (f: Filter)
      requires Valid()
      requires locator !in filters ==> locator in qam.instances && qam.instances[locator] == src
      modifies this, filters.Values, qam.instances.Values
      ensures Valid() && locator in filters && filters[locator] == f
      ensures if locator in old(filters)
              then filters == old(filters) && f.refCount == old(filters[locator].refCount) + 1
              else fresh(f) && filters == old(filters)[locator := f] && f.refCount == 1
      ensures forall g <- old(filters.Values) | g != f :: g.refCount == old(g.refCount)
    {
      if locator !in filters {
        f := new Filter(locator);
        filters := filters[locator := f];
        f.source := src;
      } else {
        f := filters[locator];
        assert Registered(locator) && Conserved(locator);
        var _ := qam.Get(locator);
      }
      f.refCount := f.refCount + 1;
      assert forall l <- old(filters) :: old(Registered(l));
      OneLocator(locator);
    }

    /** Gives one use of a filter back; the last one unregisters and dismantles it. */
    method ReleaseInstance(f: Filter?) returns (code: int)
      requires Valid()
      requires f != null && f.refCount > 0 ==> f.locator in filters && filters[f.locator] == f
      modifies this, filters.Values, qam.instances.Values
      ensures Valid()
      ensures f == null ==> code == 0 && filters == old(filters)
      ensures f != null && old(f.refCount) <= 0 ==>
                code == -1 && filters == old(filters) && f.refCount == old(f.refCount)
      ensures f != null && old(f.refCount) > 0 ==>
                && code == 0 && f.refCount == old(f.refCount) - 1
                && filters == (if f.refCount == 0 then old(filters) - {f.locator} else old(filters))
                && (f.refCount == 0 ==> f.source == null && qam.instances[f.locator].extraRefs == 0)
      ensures forall g <- old(filters.Values) | g != f :: g.refCount == old(g.refCount)
    {
      if f == null {
        return 0;
      }
      if f.refCount <= 0 {
        return -1;
      }
      assert Registered(f.locator) && Conserved(f.locator);
      f.refCount := f.refCount - 1;
      if f.refCount == 0 {
        filters := filters - {f.locator};
        f.source := null;
      } else {
        qam.Free(f.source);
      }
      code := 0;
      assert forall l <- old(filters) :: old(Registered(l));
      OneLocator(f.locator);
    }

    /** Over any run of acquires and releases the references stay conserved, and the users are those the run leaves. */
    method Run(ops: seq<Op>)
      requires Valid() && forall op <- ops :: op.locator in qam.instances
      modifies this, filters.Values, qam.instances.Values
      ensures Valid()
      ensures forall l <- qam.instances :: UsersOf(l) == Users(old(UsersOf(l)), ops, |ops|, l)
      ensures forall l <- qam.instances ::
                qam.instances[l].extraRefs == if UsersOf(l) > 0 then UsersOf(l) - 1 else 0
    {
      for i := 0 to |ops|
        invariant Valid() && forall f <- filters.Values :: f in old(filters.Values) || fresh(f)
        invariant forall l <- qam.instances :: UsersOf(l) == Users(old(UsersOf(l)), ops, i, l)
      {
        assert ops[i] in ops;
        Do(ops[i]);
      }
      assert forall l <- filters :: Registered(l);
      assert forall l <- qam.instances :: Conserved(l);
    }

    /** One use of the registry: exactly the users of its locator change, by one. */
    method Do(op: Op)
      requires Valid() && op.locator in qam.instances
      modifies this, filters.Values, qam.instances.Values
      ensures Valid() && forall f <- filters.Values :: f in old(filters.Values) || fresh(f)
      ensures UsersOf(op.locator) ==
              if op.Acquire? then old(UsersOf(op.locator)) + 1
              else if old(UsersOf(op.locator)) > 0 then old(UsersOf(op.locator)) - 1 else old(UsersOf(op.locator))
      ensures forall l <- qam.instances | l != op.locator :: UsersOf(l) == old(UsersOf(l))
    {
      assert forall l <- filters :: Registered(l);
      match op
      case Acquire(locator) =>
        var _ := GetInstance(qam.instances[locator], locator);
      case Release(locator) =>
        if locator in filters {
          var _ := ReleaseInstance(filters[locator]);
        }
      assert forall l <- qam.instances | l != op.locator :: l in filters <==> l in old(filters);
      assert forall l <- filters | l != op.locator ::
          filters[l] == old(filters)[l] && filters[l] in old(filters.Values);
    }
  }
}
