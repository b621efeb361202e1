/**
 * Task identity (IWorker.kt): the `ITask.ID` value, the `WorkLicense`
 * helpers that build and recognise IDs, and the derivation of an ID from a
 * license annotation on a worker slot.
 */
module TaskIds {
  import opened Wrappers
  import opened Collections

  /**
   * `ITask.ID`: a license string and a set of prop strings. As a Kotlin data
   * class it is compared by value, so two IDs are equal exactly when their
   * licenses and their prop sets are equal.
   */
  datatype TaskId = TaskId(license: string, props: set<string>)

  /** A JVM class, as far as these helpers use it: its simple name. */
  datatype ClassRef = ClassRef(simpleName: string)

  /**
   * `WorkLicense.getTaskID(cls, props)`, both the vararg and the Collection
   * overload: the license is the class's simple name, the props are the
   * given strings collected into a set.
   */
  function GetTaskId(cls: ClassRef, props: seq<string>): (id: TaskId)
    ensures id.license == cls.simpleName
    ensures forall p :: p in id.props <==> p in props
  {
    TaskId(cls.simpleName, ToSet(props))
  }

  /** `WorkLicense.isTaskID(taskID, forLicense)`: only the license is compared. */
  predicate IsTaskId(id: TaskId, forLicense: ClassRef) {
    id.license == forLicense.simpleName
  }

  /** IDs are equal exactly when their licenses and prop sets are. */
  lemma TaskIdEquality(a: TaskId, b: TaskId)
    ensures a == b <==> a.license == b.license && a.props == b.props
  {
  }

  /** Prop order and repetition do not matter: the same strings give the same ID. */
  lemma GetTaskIdSameStrings(cls: ClassRef, a: seq<string>, b: seq<string>)
    requires forall p :: p in a <==> p in b
    ensures GetTaskId(cls, a) == GetTaskId(cls, b)
  {
    assert GetTaskId(cls, a).props == GetTaskId(cls, b).props;
  }

  /** In particular, a permutation of the strings gives the same ID. */
  lemma GetTaskIdPermutation(cls: ClassRef, a: seq<string>, b: seq<string>)
    requires multiset(a) == multiset(b)
    ensures GetTaskId(cls, a) == GetTaskId(cls, b)
  {
    forall p ensures p in a <==> p in b {
      assert p in a <==> p in multiset(a);
      assert p in b <==> p in multiset(b);
    }
    GetTaskIdSameStrings(cls, a, b);
  }

  /**
   * An ID built for a class is recognised by exactly the classes with the
   * same simple name, whatever its props; with no props its prop set is empty.
   */
  lemma GetTaskIdRecognised(cls: ClassRef, props: seq<string>, other: ClassRef)
    ensures IsTaskId(GetTaskId(cls, props), other) <==> cls.simpleName == other.simpleName
    ensures props == [] ==> GetTaskId(cls, props).props == {}
  {
  }

  /** `isTaskID` ignores the props: replacing them never changes its answer. */
  lemma IsTaskIdIgnoresProps(id: TaskId, props: set<string>, forLicense: ClassRef)
    ensures IsTaskId(id.(props := props), forLicense) == IsTaskId(id, forLicense)
  {
  }

  // ---------------------------------------------------------------------
  // Deriving an ID from a license annotation
  // ---------------------------------------------------------------------

  /**
   * An annotation class as reflection sees it: its simple name, whether it is
   * itself annotated `@WorkLicense`, and the names of its primary-constructor
   * parameters in declaration order.
   */
  datatype AnnotationClass = AnnotationClass(simpleName: string, isWorkLicense: bool, ctorParams: seq<string>)

  /** A declared member property of an annotation, with its value's `toString()` on this annotation. */
  datatype Property = Property(name: string, rendered: string)

  /** An annotation on a worker slot: its class and its declared member properties. */
  datatype Annotation = Annotation(cls: AnnotationClass, members: seq<Property>)

  /** Deriving an ID fails when a constructor parameter has no same-named property (`first` throws). */
  datatype DerivationError = NoSuchProperty(param: string)

  /** `declaredMemberProperties.first { it.name == name }`, or `None` where `first` throws. */
  function FirstNamed(members: seq<Property>, name: string): (r: Option<Property>)
    ensures r.None? <==> forall i :: 0 <= i < |members| ==> members[i].name != name
    ensures r.Some? ==> exists i :: 0 <= i < |members| && members[i] == r.value && r.value.name == name &&
                          forall j :: 0 <= j < i ==> members[j].name != name
  {
    if members == [] then None
    else if members[0].name == name then Some(members[0])
    else FirstNamed(members[1..], name)
  }

  /** The rendered value of the first property called `name`, if there is one. */
  function ValueOf(members: seq<Property>, name: string): Option<string> {
    match FirstNamed(members, name)
    case None => None
    case Some(p) => Some(p.rendered)
  }

  /**
   * Looks up, for every constructor parameter in order, the first property of
   * the same name; the first parameter without one makes the whole lookup fail.
   */
  function ResolveParams(params: seq<string>, members: seq<Property>): (r: Result<seq<Property>, DerivationError>)
    ensures r.Ok? ==> |r.value| == |params| &&
                      forall i :: 0 <= i < |params| ==> FirstNamed(members, params[i]) == Some(r.value[i])
    ensures r.Err? ==> exists i :: 0 <= i < |params| && r.error == NoSuchProperty(params[i]) &&
                         FirstNamed(members, params[i]).None? &&
                         forall j :: 0 <= j < i ==> FirstNamed(members, params[j]).Some?
  {
    if params == [] then Ok([])
    else match FirstNamed(members, params[0])
      case None => Err(NoSuchProperty(params[0]))
      case Some(p) =>
        match ResolveParams(params[1..], members)
        case Err(e) => Err(e)
        case Ok(rest) => Ok([p] + rest)
  }

  /** The rendered value of a property. */
  function Rendered(p: Property): string {
    p.rendered
  }

  /**
   * `WorkLicense.getTaskID(annotation)`: the license is the annotation class's
   * simple name, the props are the rendered values of its constructor
   * parameters' properties, collected in parameter order into a set.
   */
  function DeriveTaskId(a: Annotation): (r: Result<TaskId, DerivationError>)
    ensures r.Ok? <==> forall i :: 0 <= i < |a.cls.ctorParams| ==> FirstNamed(a.members, a.cls.ctorParams[i]).Some?
    ensures r.Ok? ==> r.value.license == a.cls.simpleName
    ensures r.Ok? ==> forall s :: s in r.value.props <==>
                        exists i :: 0 <= i < |a.cls.ctorParams| && ValueOf(a.members, a.cls.ctorParams[i]) == Some(s)
  {
    match ResolveParams(a.cls.ctorParams, a.members)
    case Err(e) => Err(e)
    case Ok(props) => Ok(GetTaskId(ClassRef(a.cls.simpleName), Map(props, Rendered)))
  }
}
