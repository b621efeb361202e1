# Task identity, workshop discovery and dispatch — a Dafny model

This project models the core of a small Kotlin task-dispatch framework
(package `edu.jhu.cobra.framework`):

- **Task identity** (`IWorker.kt`): `ITask.ID` is a value pair of a license
  string and a set of prop strings. The `WorkLicense` helpers build an ID
  from a class and some strings (`getTaskID`), derive one from a license
  annotation (`getTaskID(annotation)`) and recognise an ID by its license
  alone (`isTaskID`).
- **Workshop discovery** (`AbcWorkshop.kt`): `licensedWorkers()` scans the
  properties declared on a concrete workshop class. It keeps their annotations
  whose class is itself marked `@WorkLicense` and drops properties with none.
  Each license then yields a pair (derived ID, property value), and the pairs
  are folded into a map in which the last pair for an ID wins.
- **Dispatch** (`IDispatcher.kt` and its implementation `TestDispatcher` in
  `TestClasses.kt`): a mutable registry from ID to worker. `register`
  overwrites and `dispatch` answers `null` on a miss.
- **The test classes** (`TestClasses.kt`): the `TestWorkLicense`
  annotation and its companion helpers, `TestWorker.work`, and the
  `TestWorkshop` fixture.

Modules:

| file | module | models |
|---|---|---|
| wrappers.dfy | `Wrappers` | `Option` for Kotlin `null`, `Result` for a thrown exception |
| collections.dfy | `Collections` | Kotlin `filter`, `map`, `toSet`, `toMap` on sequences |
| task_ids.dfy | `TaskIds` | IWorker.kt |
| workshop.dfy | `Workshop` | AbcWorkshop.kt |
| dispatching.dfy | `Dispatching` | the IDispatcher.kt contract, stated on a registry map |
| test_classes.dfy | `TestClasses` | TestClasses.kt |
| workshop_examples.dfy | `WorkshopExamples` | the workshops of AbcWorkshopTest.kt |

Reflection is replaced by explicit data. A workshop is a sequence of
`Slot`s in a fixed order. Each slot has a value (`None` for `null`), a flag
saying whether it is declared on the workshop's own class, a visibility flag
and its annotations in order. An annotation carries its class (simple name,
whether the class is marked `@WorkLicense`, primary-constructor parameter
names) and its declared member properties, each with its value's
`toString()`. `licensedWorkers()` is the function
`Workshop.LicensedWorkers`. It is written as the source's pipeline:
`Filter` for `declaredMemberProperties`, `Map`/`Filter` for the
annotation stages, `Entries` for the `flatMap`, and `ToMap` for the
last-wins fold. It returns `Err` where the source throws. A Kotlin class is
modelled by its simple name (`TaskIds.ClassRef`). A worker is an opaque type
parameter `W`.

Three behaviours of the code that are easy to miss:

- `declaredMemberProperties` (AbcWorkshop.kt:31) excludes inherited
  properties. Inherited licensed slots are therefore not discovered
  (`Workshop.InheritedSlotIgnored`, `WorkshopExamples.InheritedWorkshop`).
- A discovered ID's license is the annotation class's simple name
  (IWorker.kt:69). For the fixtures that name is `"TestWorkLicense"`, not a
  task class's name.
- `filterIsInstance<KProperty1<AbcWorkshop<W>, W>>()` (AbcWorkshop.kt:32)
  is checked against the erased type `KProperty1`. Every declared member
  property passes it, so nothing checks that a slot's value is a worker. The
  model has worker slots only.

## Model

| member | source | states |
|---|---|---|
| `Collections.Filter` | lib/src/main/kotlin/edu/jhu/cobra/framework/AbcWorkshop.kt:33-34 | `filter` keeps only elements that satisfy the predicate, keeps every one that does, and is never longer than its input; with `FilterAppend` and `FilterCounts` this fixes the order-preserving result |
| `Collections.FilterAppend` | lib/src/main/kotlin/edu/jhu/cobra/framework/AbcWorkshop.kt:33-34 | filtering a concatenation is the concatenation of the filtered parts, so `filter` preserves order |
| `Collections.FilterCounts` | lib/src/main/kotlin/edu/jhu/cobra/framework/AbcWorkshop.kt:33-34 | `filter` keeps every occurrence of a satisfying element and no occurrence of any other |
| `Collections.FilterInsertRejected` | lib/src/main/kotlin/edu/jhu/cobra/framework/AbcWorkshop.kt:33 | inserting an element the predicate rejects, at any position, leaves `filter`'s result unchanged |
| `Collections.Map` | lib/src/main/kotlin/edu/jhu/cobra/framework/IWorker.kt:68 | `map` keeps the length and transforms each element in place |
| `Collections.ToSet` | lib/src/main/kotlin/edu/jhu/cobra/framework/IWorker.kt:80 | `toSet` holds exactly the listed elements, whatever their order or repetition, and has at most as many elements as the list |
| `Collections.ToMap` | lib/src/main/kotlin/edu/jhu/cobra/framework/AbcWorkshop.kt:36 | `toMap` has a key for every pair, and every entry is one of the pairs |
| `Collections.ToMapLastWins` | lib/src/main/kotlin/edu/jhu/cobra/framework/AbcWorkshop.kt:36 | `toMap` maps a key to the value of the last pair that carries it |
| `TaskIds.TaskIdEquality` | lib/src/main/kotlin/edu/jhu/cobra/framework/IWorker.kt:25 | two IDs are equal exactly when their licenses and prop sets are equal |
| `TaskIds.GetTaskId` | lib/src/main/kotlin/edu/jhu/cobra/framework/IWorker.kt:79-90 | the ID's license is the class's simple name and its props are exactly the given strings |
| `TaskIds.IsTaskId` | lib/src/main/kotlin/edu/jhu/cobra/framework/IWorker.kt:99-100 | `isTaskID` compares the license with the class's simple name; its properties are stated by `GetTaskIdRecognised` and `IsTaskIdIgnoresProps` |
| `TaskIds.GetTaskIdSameStrings` | lib/src/main/kotlin/edu/jhu/cobra/framework/IWorker.kt:79-90 | strings with the same members, in any order or repetition, give the same ID |
| `TaskIds.GetTaskIdPermutation` | lib/src/main/kotlin/edu/jhu/cobra/framework/IWorker.kt:79-80 | a permutation of the strings gives the same ID |
| `TaskIds.GetTaskIdRecognised` | lib/src/main/kotlin/edu/jhu/cobra/framework/IWorker.kt:99-100 | `isTaskID(getTaskID(cls, ps), other)` holds exactly when the simple names agree; with no props the prop set is empty |
| `TaskIds.IsTaskIdIgnoresProps` | lib/src/main/kotlin/edu/jhu/cobra/framework/IWorker.kt:99-100 | replacing an ID's props never changes what `isTaskID` answers |
| `TaskIds.FirstNamed` | lib/src/main/kotlin/edu/jhu/cobra/framework/IWorker.kt:67 | `first { it.name == tar }` finds the earliest property with that name, and fails exactly when no property has it |
| `TaskIds.ResolveParams` | lib/src/main/kotlin/edu/jhu/cobra/framework/IWorker.kt:66-67 | on success, one property per constructor parameter in parameter order, each the first of that name; on failure, the first parameter without a property |
| `TaskIds.DeriveTaskId` | lib/src/main/kotlin/edu/jhu/cobra/framework/IWorker.kt:64-69 | derivation succeeds exactly when every constructor parameter has a property; the license is the annotation class's simple name; the props are exactly the rendered values of the parameters' properties |
| `Workshop.PairUp` | lib/src/main/kotlin/edu/jhu/cobra/framework/AbcWorkshop.kt:36 | every pair a slot contributes carries that slot's value |
| `Workshop.PairUpFails` | lib/src/main/kotlin/edu/jhu/cobra/framework/AbcWorkshop.kt:36 | a slot's pairing fails exactly when one of its licenses is malformed |
| `Workshop.PairUpKeys` | lib/src/main/kotlin/edu/jhu/cobra/framework/AbcWorkshop.kt:36 | a slot contributes an ID exactly when one of its licenses derives it |
| `Workshop.Entries` | lib/src/main/kotlin/edu/jhu/cobra/framework/AbcWorkshop.kt:36 | the `flatMap` that pairs each licensed slot's derived IDs with its value, in slot order, stopping at the first failure; `EntriesAppend` shows that it distributes over concatenation |
| `Workshop.EntriesAppend` | lib/src/main/kotlin/edu/jhu/cobra/framework/AbcWorkshop.kt:36 | the pairs for two slot lists in sequence are the first list's pairs followed by the second's, and the first failure wins |
| `Workshop.LicensedWorkers` | lib/src/main/kotlin/edu/jhu/cobra/framework/AbcWorkshop.kt:31-36 | `licensedWorkers()`: the lemmas `DiscoveryFails`, `DiscoveryKeys`, `DiscoveryLastWins` and `DiscoveredKeySet` characterise its result |
| `Workshop.LicensedWorkersAppend` | lib/src/main/kotlin/edu/jhu/cobra/framework/AbcWorkshop.kt:31-36 | discovery over two slot lists in sequence is the first result overridden by the second, and the first failure wins |
| `Workshop.OneSlotFails` | lib/src/main/kotlin/edu/jhu/cobra/framework/AbcWorkshop.kt:33-36 | a single slot makes discovery fail exactly when it is scanned and one of its licenses is malformed |
| `Workshop.OneSlotAt` | lib/src/main/kotlin/edu/jhu/cobra/framework/AbcWorkshop.kt:33-36 | a single slot maps exactly the IDs it derives, each to its own value |
| `Workshop.DiscoveryFails` | lib/src/main/kotlin/edu/jhu/cobra/framework/AbcWorkshop.kt:31-36 | discovery fails exactly when some scanned slot carries a license whose derivation fails |
| `Workshop.DiscoveryKeys` | lib/src/main/kotlin/edu/jhu/cobra/framework/AbcWorkshop.kt:31-36 | an ID is discovered exactly when a license on a scanned slot derives it |
| `Workshop.DiscoveryLastWins` | lib/src/main/kotlin/edu/jhu/cobra/framework/AbcWorkshop.kt:35-36 | an ID maps to the value of the last scanned slot that derives it, a `null` value included |
| `Workshop.DiscoveredKeySet` | lib/src/main/kotlin/edu/jhu/cobra/framework/AbcWorkshop.kt:36 | the key set is exactly the set of derived IDs, so the size is the number of distinct derived IDs |
| `Workshop.NoLicensesNoWorkers` | lib/src/main/kotlin/edu/jhu/cobra/framework/AbcWorkshop.kt:33-34 | a workshop whose scanned slots carry no license yields the empty map |
| `Workshop.InheritedSlotIgnored` | lib/src/main/kotlin/edu/jhu/cobra/framework/AbcWorkshop.kt:31 | inserting an inherited slot anywhere does not change the result |
| `Workshop.SameViewSameDiscovery` | lib/src/main/kotlin/edu/jhu/cobra/framework/AbcWorkshop.kt:31-35 | the result depends only on each slot's scanned flag, value and license annotations |
| `Workshop.VisibilityIrrelevant` | lib/src/main/kotlin/edu/jhu/cobra/framework/AbcWorkshop.kt:35 | making a slot private or public does not change the result |
| `Workshop.UnmarkedAnnotationIgnored` | lib/src/main/kotlin/edu/jhu/cobra/framework/AbcWorkshop.kt:33 | inserting an annotation whose class is not marked `@WorkLicense`, at any position among a slot's annotations, does not change the result |
| `Dispatching.Lookup` | lib/src/main/kotlin/edu/jhu/cobra/framework/IDispatcher.kt:14-20 | `dispatch` answers the registered worker when the ID is registered and `null` otherwise |
| `Dispatching.Registered` | lib/src/main/kotlin/edu/jhu/cobra/framework/IDispatcher.kt:22-28 | after `register` the registered IDs are the old ones plus the new one; the new one maps to the given worker and every other entry is kept |
| `Dispatching.DispatchAfterRegister` | lib/src/main/kotlin/edu/jhu/cobra/framework/IDispatcher.kt:17-28 | after `register(id, w)`, `dispatch(id)` answers `w` and every other ID answers as before |
| `Dispatching.RegisterOverwrites` | lib/src/test/kotlin/edu/jhu/cobra/framework/IDispatcherTest.kt:47-56 | a second `register` under the same ID replaces the first |
| `Dispatching.DispatchOnEmpty` | lib/src/main/kotlin/edu/jhu/cobra/framework/IDispatcher.kt:17-20 | an empty registry answers `null` |
| `TestClasses.CompanionAgrees` | lib/src/test/kotlin/edu/jhu/cobra/framework/TestClasses.kt:13-19 | the `TestWorkLicense` companion's `getTaskID` and `isTaskID` give the same results as the `WorkLicense` ones |
| `TestClasses.TestWorkLicenseTaskId` | lib/src/test/kotlin/edu/jhu/cobra/framework/TestClasses.kt:14-15 | the companion's `getTaskID`; `CompanionAgrees` shows it equals `WorkLicense.getTaskID` |
| `TestClasses.TestWorkLicenseIsTaskId` | lib/src/test/kotlin/edu/jhu/cobra/framework/TestClasses.kt:17-18 | the companion's `isTaskID`; `CompanionAgrees` shows it equals `WorkLicense.isTaskID` |
| `TestClasses.TestWorkLicense` | lib/src/test/kotlin/edu/jhu/cobra/framework/TestClasses.kt:10-12 | the annotation `@TestWorkLicense(name)`, with its single constructor property `name`; `TestWorkLicenseDerives` gives the ID it derives |
| `TestClasses.TestWorkLicenseDerives` | lib/src/test/kotlin/edu/jhu/cobra/framework/TestClasses.kt:10-12 | `@TestWorkLicense(name)` derives the ID `("TestWorkLicense", {name})` |
| `TestClasses.Work` | lib/src/test/kotlin/edu/jhu/cobra/framework/TestClasses.kt:26-29 | the products `TestWorker.work` emits; `WorkReportsLicense` states what they are |
| `TestClasses.WorkReportsLicense` | lib/src/test/kotlin/edu/jhu/cobra/framework/TestClasses.kt:26-30 | `TestWorker.work` emits exactly one product, "Processed: " followed by the task's license; the props do not affect it |
| `TestClasses.TestDispatcher.constructor` | lib/src/test/kotlin/edu/jhu/cobra/framework/TestClasses.kt:33 | a new dispatcher has no registrations |
| `TestClasses.TestDispatcher.Dispatch` | lib/src/test/kotlin/edu/jhu/cobra/framework/TestClasses.kt:35 | `dispatch` is a lookup in `workers` that answers `null` on a miss and changes nothing |
| `TestClasses.TestDispatcher.Register` | lib/src/test/kotlin/edu/jhu/cobra/framework/TestClasses.kt:36-38 | `register` sets the entry for the ID and leaves every other entry unchanged |
| `TestClasses.RegisterThenDispatch` | lib/src/main/kotlin/edu/jhu/cobra/framework/IDispatcher.kt:22-28 | registering two IDs, each dispatch answers the worker registered for its ID |
| `TestClasses.RegisterTwice` | lib/src/test/kotlin/edu/jhu/cobra/framework/TestClasses.kt:36-38 | after two registrations under one ID, `dispatch` answers the second worker |
| `TestClasses.DispatchUnregistered` | lib/src/main/kotlin/edu/jhu/cobra/framework/IDispatcher.kt:17-20 | dispatching an ID that was never registered answers `null` |
| `TestClasses.DispatchByValue` | lib/src/test/kotlin/edu/jhu/cobra/framework/TestClasses.kt:33 | keys are compared by value: an ID built from the same strings in another order or with repeats finds the registered worker |
| `TestClasses.TestWorkshop` | lib/src/test/kotlin/edu/jhu/cobra/framework/TestClasses.kt:42-50 | the three declared properties of `TestWorkshop`; `TestWorkshopDiscovery` states what discovery finds in it |
| `TestClasses.TestLicensedSlot` | lib/src/test/kotlin/edu/jhu/cobra/framework/TestClasses.kt:43-47 | a declared slot carrying `@TestWorkLicense(name)` alone maps that name's ID to its value |
| `TestClasses.TestWorkshopDiscovery` | lib/src/test/kotlin/edu/jhu/cobra/framework/TestClasses.kt:42-50 | discovery on `TestWorkshop` yields exactly the two entries for "worker1" and "worker2"; `unlicensedWorker` is absent |
| `WorkshopExamples.DuplicateTaskIdWorkshop` | lib/src/test/kotlin/edu/jhu/cobra/framework/AbcWorkshopTest.kt:50-56 | two slots licensed with the same name yield one entry, holding the later worker |
| `WorkshopExamples.NullWorkerWorkshop` | lib/src/test/kotlin/edu/jhu/cobra/framework/AbcWorkshopTest.kt:42-48 | licensed slots holding `null` are still mapped, to `null` |
| `WorkshopExamples.Inherited` | lib/src/test/kotlin/edu/jhu/cobra/framework/AbcWorkshopTest.kt:30 | a subclass sees the superclass's slots unchanged, except that they are inherited |
| `WorkshopExamples.InheritedWorkshop` | lib/src/test/kotlin/edu/jhu/cobra/framework/AbcWorkshopTest.kt:30-33 | a subclass of `TestWorkshop` adding a licensed `worker3` discovers only `worker3` |
| `WorkshopExamples.PrivateWorkerWorkshop` | lib/src/test/kotlin/edu/jhu/cobra/framework/AbcWorkshopTest.kt:35-40 | a private licensed slot is discovered |

## Left out

- Kotlin reflection (`declaredMemberProperties`, `annotations`,
  `hasAnnotation`, `primaryConstructor`, `call`) is replaced by the explicit
  slot list. The real enumeration order is unspecified, so the model takes
  the list order as the processing order.
- `isAccessible = true` (AbcWorkshop.kt:35) changes only reflection state
  and is dropped. So are `Class.simpleName` and the `toString()` of
  annotation values, which are given as strings.
- `primaryConstructor!!` (IWorker.kt:66) cannot fail for an annotation
  class, which always has a primary constructor. That failure is not modelled.
- The failure of `first` is an exception without the parameter's name. The
  model's `NoSuchProperty` error carries the name.
- Kotlin sequences are lazy. The model evaluates the pipeline eagerly, which
  gives the same map and the same first failure, because the stages have no
  effects.
- The insertion order of the `LinkedHashMap` that `toMap` returns is not
  modelled: a Dafny `map` is unordered.
- Coroutines and `Flow`: a worker's output is modelled as the sequence of
  products `TestWorker.work` emits. Suspension, cancellation and delivery on
  partial failure belong to kotlinx and are not modelled. The generic
  `IWorker.work` has no behaviour of its own to model.
- `IDispatcher` is an interface. Its contract is stated as functions on a
  registry map (`Dispatching`), and `TestClasses.TestDispatcher` is proved
  against them.
- Thread safety of the registry: the source has none, and the model is
  single-threaded.
- Folding a discovered map into a dispatcher is host wiring and is not part
  of these files.
- lib/build.gradle.kts is build configuration only. The three test files
  (`AbcWorkshopTest.kt`, `IDispatcherTest.kt`, `IWorkerTest.kt`) serve as
  evidence for the properties and are not modelled as tests.
