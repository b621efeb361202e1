/**
 * The workshops of AbcWorkshopTest.kt, built on the `TestWorkLicense`
 * annotation, and what discovery finds on each.
 */
module WorkshopExamples {
  import opened Wrappers
  import opened TaskIds
  import opened Workshop
  import opened TestClasses

  /** The ID `@TestWorkLicense(name)` derives. */
  function NameId(name: string): TaskId {
    TaskId("TestWorkLicense", {name})
  }

  /** Two workers licensed with the same name: the later one is kept. */
  lemma DuplicateTaskIdWorkshop<W>(worker1: W, worker2: W)
    ensures LicensedWorkers([Slot("worker1", Some(worker1), true, false, [TestWorkLicense("worker1")]),
                             Slot("worker2", Some(worker2), true, false, [TestWorkLicense("worker1")])]) ==
            Ok(map[NameId("worker1") := Some(worker2)])
  {
    var s0 := Slot("worker1", Some(worker1), true, false, [TestWorkLicense("worker1")]);
    var s1 := Slot("worker2", Some(worker2), true, false, [TestWorkLicense("worker1")]);
    var id := NameId("worker1");
    calc {
      LicensedWorkers([s0, s1]);
      { assert [s0, s1] == [s0] + [s1]; LicensedWorkersAppend([s0], [s1]); }
      Union(LicensedWorkers([s0]), LicensedWorkers([s1]));
      { TestLicensedSlot("worker1", Some(worker1), false, "worker1");
        TestLicensedSlot("worker2", Some(worker2), false, "worker1"); }
      Union(Ok(map[id := Some(worker1)]), Ok(map[id := Some(worker2)]));
      { assert map[id := Some(worker1)] + map[id := Some(worker2)] == map[id := Some(worker2)]; }
      Ok(map[id := Some(worker2)]);
    }
  }

  /** Licensed slots whose value is `null` are still discovered, mapped to `null`. */
  lemma NullWorkerWorkshop<W>()
    ensures LicensedWorkers<W>([Slot("worker1", None, true, false, [TestWorkLicense("worker1")]),
                                Slot("worker2", None, true, false, [TestWorkLicense("worker2")])]) ==
            Ok(map[NameId("worker1") := None, NameId("worker2") := None])
  {
    var s0: Slot<W> := Slot("worker1", None, true, false, [TestWorkLicense("worker1")]);
    var s1: Slot<W> := Slot("worker2", None, true, false, [TestWorkLicense("worker2")]);
    var id1, id2 := NameId("worker1"), NameId("worker2");
    var none: Option<W> := None;
    calc {
      LicensedWorkers([s0, s1]);
      { assert [s0, s1] == [s0] + [s1]; LicensedWorkersAppend([s0], [s1]); }
      Union(LicensedWorkers([s0]), LicensedWorkers([s1]));
      { TestLicensedSlot("worker1", none, false, "worker1");
        TestLicensedSlot("worker2", none, false, "worker2"); }
      Union(Ok(map[id1 := none]), Ok(map[id2 := none]));
      { assert map[id1 := none] + map[id2 := none] == map[id1 := none, id2 := none]; }
      Ok(map[id1 := none, id2 := none]);
    }
  }

  /** The same slots, seen from a subclass: inherited. */
  function Inherited<W>(slots: seq<Slot<W>>): (r: seq<Slot<W>>)
    ensures |r| == |slots|
    ensures forall k :: 0 <= k < |r| ==> r[k] == slots[k].(declaredHere := false)
  {
    if slots == [] then [] else [slots[0].(declaredHere := false)] + Inherited(slots[1..])
  }

  /**
   * `InheritedWorkshop` extends `TestWorkshop` with a licensed `worker3`:
   * only `worker3` is discovered, since the inherited slots are not scanned.
   */
  lemma InheritedWorkshop<W>(worker1: W, worker2: W, unlicensedWorker: W, worker3: W)
    ensures LicensedWorkers(Inherited(TestWorkshop(worker1, worker2, unlicensedWorker)) +
                            [Slot("worker3", Some(worker3), true, false, [TestWorkLicense("worker3")])]) ==
            Ok(map[NameId("worker3") := Some(worker3)])
  {
    var parent := Inherited(TestWorkshop(worker1, worker2, unlicensedWorker));
    var s3 := Slot("worker3", Some(worker3), true, false, [TestWorkLicense("worker3")]);
    calc {
      LicensedWorkers(parent + [s3]);
      { LicensedWorkersAppend(parent, [s3]); }
      Union(LicensedWorkers(parent), LicensedWorkers([s3]));
      { NoLicensesNoWorkers(parent); TestLicensedSlot("worker3", Some(worker3), false, "worker3"); }
      Union(Ok(map[]), Ok(map[NameId("worker3") := Some(worker3)]));
      { assert map[] + map[NameId("worker3") := Some(worker3)] == map[NameId("worker3") := Some(worker3)]; }
      Ok(map[NameId("worker3") := Some(worker3)]);
    }
  }

  /** A private licensed slot is discovered like a public one. */
  lemma PrivateWorkerWorkshop<W>(privateWorker: W)
    ensures LicensedWorkers([Slot("privateWorker", Some(privateWorker), true, true, [TestWorkLicense("worker1")])]) ==
            Ok(map[NameId("worker1") := Some(privateWorker)])
  {
    TestLicensedSlot("privateWorker", Some(privateWorker), true, "worker1");
  }
}
