/**
 * The concrete classes of TestClasses.kt: the `TestWorkLicense` annotation
 * and its companion helpers, `TestWorker`, the map-based `TestDispatcher`,
 * and the `TestWorkshop` fixture.
 */
module TestClasses {
  import opened Wrappers
  import opened Collections
  import opened TaskIds
  import opened Dispatching
  import opened Workshop

  // ---------------------------------------------------------------------
  // TestWorkLicense
  // ---------------------------------------------------------------------

  /** `TestWorkLicense.getTaskID(cls, vararg props)`. */
  function TestWorkLicenseTaskId(cls: ClassRef, props: seq<string>): TaskId {
    TaskId(cls.simpleName, ToSet(props))
  }

  /** `TestWorkLicense.isTaskID(taskID, forLicense)`. */
  predicate TestWorkLicenseIsTaskId(id: TaskId, forLicense: ClassRef) {
    id.license == forLicense.simpleName
  }

  /** The companion helpers behave exactly like the `WorkLicense` ones. */
  lemma CompanionAgrees(cls: ClassRef, props: seq<string>, id: TaskId)
    ensures TestWorkLicenseTaskId(cls, props) == GetTaskId(cls, props)
    ensures TestWorkLicenseIsTaskId(id, cls) <==> IsTaskId(id, cls)
  {
  }

  /** The annotation class `@WorkLicense annotation class TestWorkLicense(val name: String)`. */
  const TestWorkLicenseClass := AnnotationClass("TestWorkLicense", true, ["name"])

  /** The annotation `@TestWorkLicense(name)`. */
  function TestWorkLicense(name: string): Annotation {
    Annotation(TestWorkLicenseClass, [Property("name", name)])
  }

  /** `@TestWorkLicense(name)` derives the ID licensed "TestWorkLicense" with the single prop `name`. */
  lemma TestWorkLicenseDerives(name: string)
    ensures DeriveTaskId(TestWorkLicense(name)) == Ok(TaskId("TestWorkLicense", {name}))
  {
    var r := DeriveTaskId(TestWorkLicense(name));
    assert FirstNamed([Property("name", name)], "name") == Some(Property("name", name));
    assert ValueOf([Property("name", name)], "name") == Some(name);
    assert r.value.props == {name};
  }

  // ---------------------------------------------------------------------
  // TestWorker
  // ---------------------------------------------------------------------

  datatype TestProduct = TestProduct(value: string)

  datatype TestTask = TestTask(uid: TaskId)

  const ProcessedPrefix := "Processed: "

  /** `TestWorker.work`: the products it emits, in order. */
  function Work(task: TestTask): seq<TestProduct> {
    [TestProduct(ProcessedPrefix + task.uid.license)]
  }

  /** Reads back the license a "Processed: " product reports, if it is one. */
  function ProcessedLicense(p: TestProduct): Option<string> {
    if ProcessedPrefix <= p.value then Some(p.value[|ProcessedPrefix|..]) else None
  }

  /** `work` emits exactly one product, which reports the task's license and nothing of its props. */
  lemma WorkReportsLicense(task: TestTask, props: set<string>)
    ensures |Work(task)| == 1
    ensures ProcessedLicense(Work(task)[0]) == Some(task.uid.license)
    ensures Work(TestTask(task.uid.(props := props))) == Work(task)
  {
    var v := Work(task)[0].value;
    assert v[..|ProcessedPrefix|] == ProcessedPrefix;
    assert v[|ProcessedPrefix|..] == task.uid.license;
  }

  // ---------------------------------------------------------------------
  // TestDispatcher
  // ---------------------------------------------------------------------

  /** `TestDispatcher`: the registry is a mutable map from task ID to worker. */
  class TestDispatcher<W> {
    var workers: map<TaskId, W>

    constructor ()
      ensures workers == map[]
    {
      workers := map[];
    }

    /** `dispatch(forTask)`: a lookup that answers `null` on a miss and changes nothing. */
    method Dispatch(forTask: TaskId) returns (r: Option<W>)
      ensures r == Lookup(workers, forTask)
    {
      if forTask in workers {
        r := Some(workers[forTask]);
      } else {
        r := None;
      }
    }

    /** `register(forTask, toWorker)`: sets the entry for `forTask` and no other. */
    method Register(forTask: TaskId, toWorker: W)
      modifies this
      ensures workers == Registered(old(workers), forTask, toWorker)
    {
      workers := workers[forTask := toWorker];
    }
  }

  /** Registering two IDs, then dispatching each, answers the worker registered for it. */
  method RegisterThenDispatch<W>(id1: TaskId, w1: W, id2: TaskId, w2: W) returns (r1: Option<W>, r2: Option<W>)
    requires id1 != id2
    ensures r1 == Some(w1) && r2 == Some(w2)
  {
    var d := new TestDispatcher<W>();
    d.Register(id1, w1);
    d.Register(id2, w2);
    r1 := d.Dispatch(id1);
    r2 := d.Dispatch(id2);
    DispatchAfterRegister(map[id1 := w1], id2, w2, id1);
  }

  /** Registering twice under one ID keeps only the second worker. */
  method RegisterTwice<W>(id: TaskId, first: W, second: W) returns (r: Option<W>)
    ensures r == Some(second)
  {
    var d := new TestDispatcher<W>();
    d.Register(id, first);
    d.Register(id, second);
    r := d.Dispatch(id);
  }

  /** Dispatching an ID that was never registered answers `null`. */
  method DispatchUnregistered<W>(registered: TaskId, w: W, asked: TaskId) returns (r: Option<W>)
    requires asked != registered
    ensures r == None
  {
    var d := new TestDispatcher<W>();
    d.Register(registered, w);
    r := d.Dispatch(asked);
  }

  /**
   * Keys are compared by value: an ID built from the same strings in another
   * order, or repeated, finds the same worker.
   */
  method DispatchByValue<W>(cls: ClassRef, registeredProps: seq<string>, askedProps: seq<string>, w: W) returns (r: Option<W>)
    requires forall p :: p in registeredProps <==> p in askedProps
    ensures r == Some(w)
  {
    var d := new TestDispatcher<W>();
    d.Register(GetTaskId(cls, registeredProps), w);
    GetTaskIdSameStrings(cls, registeredProps, askedProps);
    r := d.Dispatch(GetTaskId(cls, askedProps));
  }

  // ---------------------------------------------------------------------
  // TestWorkshop
  // ---------------------------------------------------------------------

  /** `TestWorkshop`: two licensed workers and one unlicensed one, all declared on the class. */
  function TestWorkshop<W>(worker1: W, worker2: W, unlicensedWorker: W): seq<Slot<W>> {
    [ Slot("worker1", Some(worker1), true, false, [TestWorkLicense("worker1")]),
      Slot("worker2", Some(worker2), true, false, [TestWorkLicense("worker2")]),
      Slot("unlicensedWorker", Some(unlicensedWorker), true, false, []) ]
  }

  /** A declared slot carrying `@TestWorkLicense(name)` alone discovers its value under that name's ID. */
  lemma TestLicensedSlot<W>(slotName: string, value: Option<W>, isPrivate: bool, name: string)
    ensures LicensedWorkers([Slot(slotName, value, true, isPrivate, [TestWorkLicense(name)])]) ==
            Ok(map[TaskId("TestWorkLicense", {name}) := value])
  {
    var s := Slot(slotName, value, true, isPrivate, [TestWorkLicense(name)]);
    var id := TaskId("TestWorkLicense", {name});
    TestWorkLicenseDerives(name);
    OneSlotFails(s);
    assert !Malformed(s);
    var m := LicensedWorkers([s]).value;
    forall other ensures other in m <==> other == id {
      OneSlotAt(s, other);
      assert Yields(s, other) <==> other == id;
    }
    OneSlotAt(s, id);
    assert m == map[id := value];
  }

  /** Discovery on `TestWorkshop` finds exactly the two licensed workers; `unlicensedWorker` is absent. */
  lemma TestWorkshopDiscovery<W>(worker1: W, worker2: W, unlicensedWorker: W)
    ensures LicensedWorkers(TestWorkshop(worker1, worker2, unlicensedWorker)) ==
            Ok(map[TaskId("TestWorkLicense", {"worker1"}) := Some(worker1),
                   TaskId("TestWorkLicense", {"worker2"}) := Some(worker2)])
  {
    var s0 := Slot("worker1", Some(worker1), true, false, [TestWorkLicense("worker1")]);
    var s1 := Slot("worker2", Some(worker2), true, false, [TestWorkLicense("worker2")]);
    var s2 := Slot("unlicensedWorker", Some(unlicensedWorker), true, false, []);
    var id1, id2 := TaskId("TestWorkLicense", {"worker1"}), TaskId("TestWorkLicense", {"worker2"});
    var m1, m2 := map[id1 := Some(worker1)], map[id2 := Some(worker2)];
    calc {
      LicensedWorkers(TestWorkshop(worker1, worker2, unlicensedWorker));
      { assert TestWorkshop(worker1, worker2, unlicensedWorker) == ([s0] + [s1]) + [s2]; }
      LicensedWorkers(([s0] + [s1]) + [s2]);
      { LicensedWorkersAppend([s0] + [s1], [s2]); }
      Union(LicensedWorkers([s0] + [s1]), LicensedWorkers([s2]));
      { NoLicensesNoWorkers([s2]); UnionEmpty(LicensedWorkers([s0] + [s1])); }
      LicensedWorkers([s0] + [s1]);
      { LicensedWorkersAppend([s0], [s1]); }
      Union(LicensedWorkers([s0]), LicensedWorkers([s1]));
      { TestLicensedSlot("worker1", Some(worker1), false, "worker1");
        TestLicensedSlot("worker2", Some(worker2), false, "worker2"); }
      Union(Ok(m1), Ok(m2));
      Ok(m1 + m2);
      { assert m1 + m2 == map[id1 := Some(worker1), id2 := Some(worker2)]; }
      Ok(map[id1 := Some(worker1), id2 := Some(worker2)]);
    }
  }
}
