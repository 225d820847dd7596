/** Execution plans: JSON values and the steps that carry them. */
module PlanModel {
  import opened DependencyGraph

  /** JSON values. Objects keep the insertion order of their keys, as Python dictionaries do. */
  datatype Value =
    | Text(text: string)
    | Scalar(literal: string)
    | Array(items: seq<Value>)
    | Object(fields: seq<Field>)

  datatype Field = Field(key: string, value: Value)

  datatype Step = Step(id: StepId, tool: string, dependsOn: seq<StepId>, inputs: Value)

  function Ids(steps: seq<Step>): (ids: seq<StepId>)
    ensures |ids| == |steps|
    ensures forall i | 0 <= i < |steps| :: ids[i] == steps[i].id
  {
    seq(|steps|, i requires 0 <= i < |steps| => steps[i].id)
  }

  function IdSet(steps: seq<Step>): set<StepId> {
    set s | s in steps :: s.id
  }

  ghost predicate UniqueIds(steps: seq<Step>) {
    NoDuplicates(Ids(steps))
  }

  ghost predicate KnownDependencies(steps: seq<Step>) {
    forall s, d | s in steps && d in s.dependsOn :: d in IdSet(steps)
  }

  /** `{step["id"]: step}`: the last of several equal ids wins. */
  function ById(steps: seq<Step>): (m: map<StepId, Step>)
    ensures m.Keys == IdSet(steps)
    ensures forall id | id in m :: m[id] in steps && m[id].id == id
  {
    if steps == [] then map[]
    else
      assert steps == steps[..|steps| - 1] + [steps[|steps| - 1]];
      ById(steps[..|steps| - 1])[steps[|steps| - 1].id := steps[|steps| - 1]]
  }

  lemma {:induction false} ByIdFinds(steps: seq<Step>, k: nat)
    requires UniqueIds(steps) && k < |steps|
    ensures steps[k].id in ById(steps) && ById(steps)[steps[k].id] == steps[k]
  {
    var last := |steps| - 1;
    if k < last {
      assert Ids(steps)[k] != Ids(steps)[last];
      forall i, j | 0 <= i < j < last ensures Ids(steps[..last])[i] != Ids(steps[..last])[j] {
        assert Ids(steps)[i] != Ids(steps)[j];
      }
      ByIdFinds(steps[..last], k);
    }
  }

  /** Edges from each step to its dependencies, the direction in which steps are ordered. */
  function Dependencies(steps: seq<Step>): (deps: Edges)
    ensures deps.Keys == IdSet(steps)
  {
    map id | id in ById(steps) :: ById(steps)[id].dependsOn
  }
}
