/**
 * Workshop discovery (AbcWorkshop.kt): `licensedWorkers()` scans the slots
 * declared directly on a concrete workshop, keeps the annotations whose
 * class is marked `@WorkLicense`, derives an ID from each, and folds the
 * (ID, worker) pairs into a map in which the last pair for an ID wins.
 *
 * Reflection is replaced by an explicit list of slots in a fixed order.
 */
module Workshop {
  import opened Wrappers
  import opened Collections
  import opened TaskIds

  /**
   * A member property of a workshop: its current value (`None` for `null`),
   * whether it is declared on the workshop's own class rather than inherited,
   * its visibility, and its annotations in declaration order.
   */
  datatype Slot<W> = Slot(name: string, value: Option<W>, declaredHere: bool, isPrivate: bool, annotations: seq<Annotation>)

  /** A slot's value paired with its license annotations. */
  datatype LicensedSlot<W> = LicensedSlot(value: Option<W>, licenses: seq<Annotation>)

  /** An annotation is a license when its class is itself annotated `@WorkLicense`. */
  predicate IsLicense(a: Annotation) {
    a.cls.isWorkLicense
  }

  /** `declaredMemberProperties` only lists properties declared on the class itself. */
  predicate DeclaredHere<W>(s: Slot<W>) {
    s.declaredHere
  }

  /** Pairs a slot's value with its license annotations. */
  function Tag<W>(s: Slot<W>): LicensedSlot<W> {
    LicensedSlot(s.value, Filter(s.annotations, IsLicense))
  }

  /** Slots without license annotations are dropped. */
  predicate HasLicenses<W>(l: LicensedSlot<W>) {
    l.licenses != []
  }

  /** Sequences the results of two steps: the first failure stops the pipeline. */
  function Then<T>(a: Result<seq<T>, DerivationError>, b: Result<seq<T>, DerivationError>): Result<seq<T>, DerivationError> {
    match a
    case Err(e) => Err(e)
    case Ok(x) => match b
      case Err(e) => Err(e)
      case Ok(y) => Ok(x + y)
  }

  /**
   * `licenses.map { license -> getTaskID(license) to worker }` for one slot;
   * the first malformed license makes it fail.
   */
  function PairUp<W>(licenses: seq<Annotation>, w: Option<W>): (r: Result<seq<(TaskId, Option<W>)>, DerivationError>)
    ensures r.Ok? ==> forall j :: 0 <= j < |r.value| ==> r.value[j].1 == w
  {
    if licenses == [] then Ok([])
    else
      var head := match DeriveTaskId(licenses[0])
        case Err(e) => Err(e)
        case Ok(id) => Ok([(id, w)]);
      Then(head, PairUp(licenses[1..], w))
  }

  /** Some annotation in `licenses` is malformed. */
  ghost predicate AnyMalformed(licenses: seq<Annotation>) {
    exists a :: a in licenses && DeriveTaskId(a).Err?
  }

  lemma AnyMalformedCons(licenses: seq<Annotation>)
    requires licenses != []
    ensures AnyMalformed(licenses) <==> DeriveTaskId(licenses[0]).Err? || AnyMalformed(licenses[1..])
  {
    var rest := licenses[1..];
    assert licenses == [licenses[0]] + rest;
    if a :| a in licenses && DeriveTaskId(a).Err? {
      if a != licenses[0] {
        assert a in rest;
      }
    }
    if a :| a in rest && DeriveTaskId(a).Err? {
      assert a in licenses;
    }
  }

  /** Pairing up fails exactly when one of the licenses is malformed. */
  lemma {:induction false} PairUpFails<W>(licenses: seq<Annotation>, w: Option<W>)
    ensures PairUp(licenses, w).Err? <==> AnyMalformed(licenses)
  {
    if licenses != [] {
      PairUpFails(licenses[1..], w);
      AnyMalformedCons(licenses);
      assert PairUp(licenses, w).Err? <==> DeriveTaskId(licenses[0]).Err? || PairUp(licenses[1..], w).Err?;
    }
  }

  /** The IDs one slot contributes are exactly those its licenses derive. */
  lemma {:induction false} PairUpKeys<W>(licenses: seq<Annotation>, w: Option<W>, id: TaskId)
    requires PairUp(licenses, w).Ok?
    ensures (id, w) in PairUp(licenses, w).value <==> exists a :: a in licenses && DeriveTaskId(a) == Ok(id)
  {
    if licenses != [] {
      var rest := licenses[1..];
      PairUpKeys(rest, w, id);
      var d := DeriveTaskId(licenses[0]);
      assert d.Ok?;
      var ps, qs := PairUp(licenses, w).value, PairUp(rest, w).value;
      assert ps == [(d.value, w)] + qs;
      assert (id, w) in ps <==> d.value == id || (id, w) in qs;
      if a :| a in licenses && DeriveTaskId(a) == Ok(id) {
        if a != licenses[0] {
          assert a in rest;
        }
      }
      if a :| a in rest && DeriveTaskId(a) == Ok(id) {
        assert a in licenses;
      }
    }
  }

  /** The `flatMap` over the licensed slots, in order. */
  function Entries<W>(licensed: seq<LicensedSlot<W>>): Result<seq<(TaskId, Option<W>)>, DerivationError> {
    if licensed == [] then Ok([])
    else Then(PairUp(licensed[0].licenses, licensed[0].value), Entries(licensed[1..]))
  }

  /** `AbcWorkshop.licensedWorkers()` over the workshop's slots. */
  function LicensedWorkers<W>(slots: seq<Slot<W>>): Result<map<TaskId, Option<W>>, DerivationError> {
    var own := Filter(slots, DeclaredHere);
    var licensed := Filter(Map(own, Tag), HasLicenses);
    match Entries(licensed)
    case Err(e) => Err(e)
    case Ok(pairs) => Ok(ToMap(pairs))
  }

  // ---------------------------------------------------------------------
  // Specification of discovery
  // ---------------------------------------------------------------------

  /** Slot `s` is scanned and one of its license annotations derives `id`. */
  ghost predicate Yields<W>(s: Slot<W>, id: TaskId) {
    s.declaredHere && exists a :: a in s.annotations && IsLicense(a) && DeriveTaskId(a) == Ok(id)
  }

  /** Slot `s` is scanned and one of its license annotations is malformed. */
  ghost predicate Malformed<W>(s: Slot<W>) {
    s.declaredHere && exists a :: a in s.annotations && IsLicense(a) && DeriveTaskId(a).Err?
  }

  /** Combines the discoveries of two slot lists: the first failure wins, else the second map overrides. */
  function Union<W>(a: Result<map<TaskId, Option<W>>, DerivationError>, b: Result<map<TaskId, Option<W>>, DerivationError>)
    : Result<map<TaskId, Option<W>>, DerivationError>
  {
    match a
    case Err(e) => Err(e)
    case Ok(x) => match b
      case Err(e) => Err(e)
      case Ok(y) => Ok(x + y)
  }

  lemma ThenAssociative<T>(x: Result<seq<T>, DerivationError>, y: Result<seq<T>, DerivationError>, z: Result<seq<T>, DerivationError>)
    ensures Then(Then(x, y), z) == Then(x, Then(y, z))
  {
    if x.Ok? && y.Ok? && z.Ok? {
      assert (x.value + y.value) + z.value == x.value + (y.value + z.value);
    }
  }

  lemma {:induction false} EntriesAppend<W>(a: seq<LicensedSlot<W>>, b: seq<LicensedSlot<W>>)
    ensures Entries(a + b) == Then(Entries(a), Entries(b))
  {
    if a == [] {
      assert a + b == b;
      if Entries(b).Ok? {
        assert [] + Entries(b).value == Entries(b).value;
      }
    } else {
      assert (a + b)[0] == a[0];
      assert (a + b)[1..] == a[1..] + b;
      EntriesAppend(a[1..], b);
      ThenAssociative(PairUp(a[0].licenses, a[0].value), Entries(a[1..]), Entries(b));
    }
  }

  /** Discovery over a concatenation of slot lists is the union of the two discoveries. */
  lemma LicensedWorkersAppend<W>(a: seq<Slot<W>>, b: seq<Slot<W>>)
    ensures LicensedWorkers(a + b) == Union(LicensedWorkers(a), LicensedWorkers(b))
  {
    FilterAppend(a, b, DeclaredHere);
    var ownA, ownB := Filter(a, DeclaredHere), Filter(b, DeclaredHere);
    MapAppend(ownA, ownB, Tag);
    FilterAppend(Map(ownA, Tag), Map(ownB, Tag), HasLicenses);
    var la, lb := Filter(Map(ownA, Tag), HasLicenses), Filter(Map(ownB, Tag), HasLicenses);
    EntriesAppend(la, lb);
    match (Entries(la), Entries(lb))
    case (Ok(pa), Ok(pb)) => ToMapAppend(pa, pb);
    case _ =>
  }

  lemma SplitLast<T>(s: seq<T>)
    requires s != []
    ensures s == s[..|s| - 1] + [s[|s| - 1]]
  {
  }

  /** The license annotations of a slot are those of its annotations whose class is marked. */
  lemma LicensesOf<W>(s: Slot<W>, a: Annotation)
    ensures a in Filter(s.annotations, IsLicense) <==> a in s.annotations && IsLicense(a)
  {
    if a in s.annotations && IsLicense(a) {
      var i :| 0 <= i < |s.annotations| && s.annotations[i] == a;
    }
  }

  /** The pipeline on a single slot: scanned and licensed slots pair up their licenses, others give nothing. */
  lemma OneSlotPipeline<W>(s: Slot<W>)
    ensures var licenses := Filter(s.annotations, IsLicense);
            LicensedWorkers([s]) ==
              if !s.declaredHere || licenses == [] then Ok(map[])
              else match PairUp(licenses, s.value)
                case Err(e) => Err(e)
                case Ok(ps) => Ok(ToMap(ps))
  {
    var licenses := Filter(s.annotations, IsLicense);
    var own := Filter([s], DeclaredHere);
    assert own == if s.declaredHere then [s] else [];
    assert Map(own, Tag) == if s.declaredHere then [Tag(s)] else [];
    var licensed := Filter(Map(own, Tag), HasLicenses);
    assert licensed == if s.declaredHere && licenses != [] then [Tag(s)] else [];
    if licensed != [] {
      var r := PairUp(licenses, s.value);
      assert Entries(licensed) == Then(r, Ok([]));
      if r.Ok? {
        assert r.value + [] == r.value;
      }
    }
  }

  /** A single slot makes discovery fail exactly when it is malformed. */
  lemma OneSlotFails<W>(s: Slot<W>)
    ensures LicensedWorkers([s]).Err? <==> Malformed(s)
  {
    var licenses := Filter(s.annotations, IsLicense);
    OneSlotPipeline(s);
    PairUpFails(licenses, s.value);
    forall a ensures a in licenses <==> a in s.annotations && IsLicense(a) {
      LicensesOf(s, a);
    }
  }

  /** What discovery does with a single slot, for one ID. */
  lemma OneSlotAt<W>(s: Slot<W>, id: TaskId)
    requires LicensedWorkers([s]).Ok?
    ensures id in LicensedWorkers([s]).value <==> Yields(s, id)
    ensures id in LicensedWorkers([s]).value ==> LicensedWorkers([s]).value[id] == s.value
  {
    var licenses := Filter(s.annotations, IsLicense);
    OneSlotPipeline(s);
    var m := LicensedWorkers([s]).value;
    forall a ensures a in licenses <==> a in s.annotations && IsLicense(a) {
      LicensesOf(s, a);
    }
    if s.declaredHere && licenses != [] {
      var ps := PairUp(licenses, s.value).value;
      assert m == ToMap(ps);
      PairUpKeys(licenses, s.value, id);
      if id in m {
        var i :| 0 <= i < |ps| && ps[i] == (id, m[id]);
      }
      if (id, s.value) in ps {
        var i :| 0 <= i < |ps| && ps[i] == (id, s.value);
      }
    }
  }

  /** Discovery fails exactly when some scanned slot carries a malformed license. */
  lemma {:induction false} DiscoveryFails<W>(slots: seq<Slot<W>>)
    ensures LicensedWorkers(slots).Err? <==> exists k :: 0 <= k < |slots| && Malformed(slots[k])
  {
    if slots == [] {
      assert LicensedWorkers(slots) == Ok(map[]);
    } else {
      var init, last := slots[..|slots| - 1], slots[|slots| - 1];
      SplitLast(slots);
      LicensedWorkersAppend(init, [last]);
      var ri, rl := LicensedWorkers(init), LicensedWorkers([last]);
      assert LicensedWorkers(slots).Err? <==> ri.Err? || rl.Err?;
      DiscoveryFails(init);
      OneSlotFails(last);
      if k :| 0 <= k < |slots| && Malformed(slots[k]) {
        if k < |init| {
          assert init[k] == slots[k];
        }
      }
      if k :| 0 <= k < |init| && Malformed(init[k]) {
        assert slots[k] == init[k];
      }
    }
  }

  /** The discovered IDs are exactly those derived from the licenses of the scanned slots. */
  lemma {:induction false} DiscoveryKeys<W>(slots: seq<Slot<W>>, id: TaskId)
    requires LicensedWorkers(slots).Ok?
    ensures id in LicensedWorkers(slots).value <==> exists k :: 0 <= k < |slots| && Yields(slots[k], id)
  {
    if slots == [] {
      assert LicensedWorkers(slots) == Ok(map[]);
    } else {
      var init, last := slots[..|slots| - 1], slots[|slots| - 1];
      SplitLast(slots);
      LicensedWorkersAppend(init, [last]);
      var ri, rl := LicensedWorkers(init), LicensedWorkers([last]);
      assert ri.Ok? && rl.Ok?;
      assert id in LicensedWorkers(slots).value <==> id in ri.value || id in rl.value;
      DiscoveryKeys(init, id);
      OneSlotAt(last, id);
      if k :| 0 <= k < |slots| && Yields(slots[k], id) {
        if k < |init| {
          assert init[k] == slots[k];
        }
      }
      if k :| 0 <= k < |init| && Yields(init[k], id) {
        assert slots[k] == init[k];
      }
    }
  }

  /** Slot `k` is the last slot that derives `id`. */
  ghost predicate LastYielder<W>(slots: seq<Slot<W>>, k: nat, id: TaskId) {
    k < |slots| && Yields(slots[k], id) && forall j :: k < j < |slots| ==> !Yields(slots[j], id)
  }

  lemma LastYielderOfInit<W>(slots: seq<Slot<W>>, k: nat, id: TaskId)
    requires LastYielder(slots, k, id) && k < |slots| - 1
    ensures LastYielder(slots[..|slots| - 1], k, id) && !Yields(slots[|slots| - 1], id)
  {
    var init := slots[..|slots| - 1];
    forall j | k <= j < |init| ensures init[j] == slots[j] {
    }
  }

  /**
   * On a collision the later slot wins: an ID is mapped to the value of the
   * last scanned slot that derives it, `null` included.
   */
  lemma {:induction false} DiscoveryLastWins<W>(slots: seq<Slot<W>>, k: nat, id: TaskId)
    requires LicensedWorkers(slots).Ok?
    requires LastYielder(slots, k, id)
    ensures id in LicensedWorkers(slots).value && LicensedWorkers(slots).value[id] == slots[k].value
  {
    var init, last := slots[..|slots| - 1], slots[|slots| - 1];
    SplitLast(slots);
    LicensedWorkersAppend(init, [last]);
    var ri, rl := LicensedWorkers(init), LicensedWorkers([last]);
    assert ri.Ok? && rl.Ok? && LicensedWorkers(slots).value == ri.value + rl.value;
    OneSlotAt(last, id);
    if k < |init| {
      LastYielderOfInit(slots, k, id);
      DiscoveryLastWins(init, k, id);
      assert init[k] == slots[k];
    }
  }

  /** The IDs derived from the license annotations of the scanned slots. */
  ghost function DerivedIds<W>(slots: seq<Slot<W>>): set<TaskId> {
    set k, a | 0 <= k < |slots| && a in slots[k].annotations && slots[k].declaredHere && IsLicense(a) && DeriveTaskId(a).Ok?
      :: DeriveTaskId(a).value
  }

  /**
   * The discovered map has exactly the derived IDs as keys, so its size is
   * the number of distinct derived IDs.
   */
  lemma DiscoveredKeySet<W>(slots: seq<Slot<W>>)
    requires LicensedWorkers(slots).Ok?
    ensures LicensedWorkers(slots).value.Keys == DerivedIds(slots)
    ensures |LicensedWorkers(slots).value| == |DerivedIds(slots)|
  {
    var m := LicensedWorkers(slots).value;
    forall id ensures id in m <==> id in DerivedIds(slots) {
      DiscoveryKeys(slots, id);
      if id in DerivedIds(slots) {
        var k, a :| 0 <= k < |slots| && a in slots[k].annotations && slots[k].declaredHere && IsLicense(a) &&
                    DeriveTaskId(a) == Ok(id);
        assert Yields(slots[k], id);
      }
    }
    assert m.Keys == DerivedIds(slots);
  }

  /** A workshop whose scanned slots carry no license annotation discovers nothing. */
  lemma NoLicensesNoWorkers<W>(slots: seq<Slot<W>>)
    requires forall k :: 0 <= k < |slots| && slots[k].declaredHere ==>
               forall a :: a in slots[k].annotations ==> !IsLicense(a)
    ensures LicensedWorkers(slots) == Ok(map[])
  {
    DiscoveryFails(slots);
    var m := LicensedWorkers(slots).value;
    forall id ensures id !in m {
      DiscoveryKeys(slots, id);
    }
    assert m == map[];
  }

  /** An inherited slot alone discovers nothing. */
  lemma InheritedSlotAlone<W>(s: Slot<W>)
    requires !s.declaredHere
    ensures LicensedWorkers([s]) == Ok(map[])
  {
    assert Filter([s], DeclaredHere) == [];
  }

  lemma UnionEmpty<W>(r: Result<map<TaskId, Option<W>>, DerivationError>)
    ensures Union(r, Ok(map[])) == r
  {
    if r.Ok? {
      assert r.value + map[] == r.value;
    }
  }

  /** A slot inherited from a supertype contributes nothing, wherever it stands. */
  lemma InheritedSlotIgnored<W>(before: seq<Slot<W>>, s: Slot<W>, after: seq<Slot<W>>)
    requires !s.declaredHere
    ensures LicensedWorkers(before + [s] + after) == LicensedWorkers(before + after)
  {
    var rb := LicensedWorkers(before);
    calc {
      LicensedWorkers(before + [s] + after);
      { LicensedWorkersAppend(before + [s], after); }
      Union(LicensedWorkers(before + [s]), LicensedWorkers(after));
      { LicensedWorkersAppend(before, [s]); InheritedSlotAlone(s); }
      Union(Union(rb, Ok(map[])), LicensedWorkers(after));
      { UnionEmpty(rb); }
      Union(rb, LicensedWorkers(after));
      { LicensedWorkersAppend(before, after); }
      LicensedWorkers(before + after);
    }
  }

  /** What discovery sees of a slot: whether it is scanned, its value and its licenses. */
  function View<W>(s: Slot<W>): (bool, Option<W>, seq<Annotation>) {
    (s.declaredHere, s.value, Filter(s.annotations, IsLicense))
  }

  /** Slot lists that look the same to discovery, slot by slot, discover the same thing. */
  lemma {:induction false} SameViewSameDiscovery<W>(a: seq<Slot<W>>, b: seq<Slot<W>>)
    requires |a| == |b|
    requires forall i :: 0 <= i < |a| ==> View(a[i]) == View(b[i])
    ensures LicensedWorkers(a) == LicensedWorkers(b)
  {
    if a != [] {
      var n := |a| - 1;
      SplitLast(a);
      SplitLast(b);
      LicensedWorkersAppend(a[..n], [a[n]]);
      LicensedWorkersAppend(b[..n], [b[n]]);
      SameViewSameDiscovery(a[..n], b[..n]);
      assert View(a[n]) == View(b[n]);
      assert Filter([a[n]], DeclaredHere) == if a[n].declaredHere then [a[n]] else [];
      assert Filter([b[n]], DeclaredHere) == if b[n].declaredHere then [b[n]] else [];
      assert Tag(a[n]) == Tag(b[n]);
      assert LicensedWorkers([a[n]]) == LicensedWorkers([b[n]]);
    }
  }

  /** Private slots are discovered exactly like public ones. */
  lemma VisibilityIrrelevant<W>(slots: seq<Slot<W>>, k: nat, isPrivate: bool)
    requires k < |slots|
    ensures LicensedWorkers(slots[k := slots[k].(isPrivate := isPrivate)]) == LicensedWorkers(slots)
  {
    SameViewSameDiscovery(slots[k := slots[k].(isPrivate := isPrivate)], slots);
  }

  /**
   * An annotation whose class is not marked `@WorkLicense` is not a license:
   * inserting one anywhere among a slot's annotations changes nothing.
   */
  lemma UnmarkedAnnotationIgnored<W>(slots: seq<Slot<W>>, k: nat, i: nat, extra: Annotation)
    requires k < |slots| && i <= |slots[k].annotations| && !extra.cls.isWorkLicense
    ensures var ann := slots[k].annotations;
            LicensedWorkers(slots[k := slots[k].(annotations := ann[..i] + [extra] + ann[i..])]) == LicensedWorkers(slots)
  {
    var s := slots[k];
    var t := s.(annotations := s.annotations[..i] + [extra] + s.annotations[i..]);
    FilterInsertRejected(s.annotations, i, extra, IsLicense);
    assert View(t) == View(s);
    SameViewSameDiscovery(slots[k := t], slots);
  }
}
