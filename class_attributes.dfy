/**
 * Class attributes as Python stores them: a class body declares an attribute once
 * (`DEFAULT_GYRO = None`), a class method assigns it on the class it is called on
 * (`cls.DEFAULT_GYRO = sensor`), and a read through `self.__class__` or a class name
 * takes the value of the first class along the inheritance chain that assigned it,
 * else the declared value.
 */
module ClassAttributes {
  import opened Wrappers

  type ClassName = string

  /** The classes searched for an attribute, most derived first. */
  type Lineage = seq<ClassName>

  /** The value assigned on the first class of `lineage` that has an assignment, if any. */
  function Find<T>(assignments: map<ClassName, T>, lineage: Lineage): (r: Option<T>)
    ensures r.None? <==> forall i :: 0 <= i < |lineage| ==> lineage[i] !in assignments
    ensures r.Some? ==> exists i :: 0 <= i < |lineage| && lineage[i] in assignments && r.value == assignments[lineage[i]]
                                    && forall j :: 0 <= j < i ==> lineage[j] !in assignments
  {
    if |lineage| == 0 then None
    else if lineage[0] in assignments then Some(assignments[lineage[0]])
    else
      var r := Find(assignments, lineage[1..]);
      assert forall i :: 1 <= i < |lineage| ==> lineage[i] == lineage[1..][i - 1];
      r
  }

  /** What `cls.NAME` reads: the first assignment along the lineage, else the declared value. */
  function Lookup<T>(assignments: map<ClassName, T>, lineage: Lineage, declared: T): T
  {
    match Find(assignments, lineage)
    case Some(v) => v
    case None => declared
  }

  /** An assignment on the class itself shadows every assignment further up. */
  lemma OwnAssignmentWins<T>(assignments: map<ClassName, T>, lineage: Lineage, declared: T)
    requires |lineage| > 0 && lineage[0] in assignments
    ensures Lookup(assignments, lineage, declared) == assignments[lineage[0]]
  {
  }

  /**
   * `Base.setX(v)` is seen by every class whose chain reaches `Base` through classes that
   * assigned nothing themselves.
   */
  lemma {:induction false} AssignmentInherited<T>(assignments: map<ClassName, T>, lineage: Lineage, k: nat, cls: ClassName, v: T, declared: T)
    requires k < |lineage| && lineage[k] == cls
    requires forall j :: 0 <= j < k ==> lineage[j] !in assignments && lineage[j] != cls
    ensures Lookup(assignments[cls := v], lineage, declared) == v
  {
    if k > 0 {
      AssignmentInherited(assignments, lineage[1..], k - 1, cls, v, declared);
    }
  }

  /** An assignment on a class outside the chain changes nothing the chain reads. */
  lemma {:induction false} AssignmentElsewhere<T>(assignments: map<ClassName, T>, lineage: Lineage, cls: ClassName, v: T, declared: T)
    requires forall j :: 0 <= j < |lineage| ==> lineage[j] != cls
    ensures Lookup(assignments[cls := v], lineage, declared) == Lookup(assignments, lineage, declared)
  {
    if |lineage| > 0 {
      AssignmentElsewhere(assignments, lineage[1..], cls, v, declared);
    }
  }

  /**
   * `arg if arg is not None else cls.NAME` for an attribute the base class declares `None`:
   * an explicit argument wins; otherwise the first class of the lineage that assigned the
   * attribute decides; if none did, the result is `None` and nothing is raised.
   */
  function Resolve<T>(arg: Option<T>, assignments: map<ClassName, Option<T>>, lineage: Lineage): (r: Option<T>)
    ensures arg.Some? ==> r == arg
    ensures arg.None? && |lineage| > 0 && lineage[0] in assignments ==> r == assignments[lineage[0]]
    ensures arg.None? && (forall i :: 0 <= i < |lineage| ==> lineage[i] !in assignments) ==> r.None?
  {
    if arg.Some? then arg else Lookup(assignments, lineage, None)
  }
}
