/**
 Plan steps and the tasks they are decomposed into: the two validators as the loops they are, and what the lists they
 accept have in common.
 */
module PlanGraphs {
  import opened Prelude

  // ---- text ----

  /** Whitespace that trimming removes. */
  predicate White(c: char) {
    || '\t' <= c <= '\r' || c == ' ' || c == '\U{A0}' || c == '\U{1680}' || '\U{2000}' <= c <= '\U{200A}'
    || c == '\U{2028}' || c == '\U{2029}' || c == '\U{202F}' || c == '\U{205F}' || c == '\U{3000}' || c == '\U{FEFF}'
  }

  /** The code points that trimming removes. */
  lemma {:induction false} WhiteMeans(c: char)
    ensures White(c) <==>
      c as int in {9, 10, 11, 12, 13, 32, 160, 5760, 8192, 8193, 8194, 8195, 8196, 8197, 8198, 8199, 8200, 8201, 8202,
                   8232, 8233, 8239, 8287, 12288, 65279}
  {
  }

  predicate Blank(s: string) { forall i :: 0 <= i < |s| ==> White(s[i]) }

  /** The word lists that mark a description as too broad or as contradicting the constraints. */
  datatype Wording = Wording(epic: string -> bool, contradicts: string -> bool)

  /** A lower-case letter, then one to forty-seven letters, digits or dashes. */
  predicate StepIdShape(s: string) {
    2 <= |s| <= 48 && 'a' <= s[0] <= 'z' && forall i :: 0 < i < |s| ==> 'a' <= s[i] <= 'z' || '0' <= s[i] <= '9' || s[i] == '-'
  }

  /** A step identity is a small letter and then one to 47 small letters, digits or hyphens. */
  lemma {:induction false} StepIdMeans(s: string)
    ensures StepIdShape(s) <==>
      exists a, rest ::
        && s == [a] + rest && 1 <= |rest| <= 47 && 97 <= a as int <= 122
        && forall i :: 0 <= i < |rest| ==> 97 <= rest[i] as int <= 122 || 48 <= rest[i] as int <= 57 || rest[i] as int == 45
  {
    if s != "" {
      assert s == [s[0]] + s[1..];
      assert forall i :: 0 <= i < |s[1..]| ==> s[1..][i] == s[i + 1];
    }
    if StepIdShape(s) {
      var a, rest := s[0], s[1..];
      assert s == [a] + rest && 1 <= |rest| <= 47;
    }
  }

  predicate Distinct(s: seq<string>) { forall i, j :: 0 <= i < j < |s| ==> s[i] != s[j] }

  // ---- plan steps ----

  datatype Step = Step(id: string, description: string, dependsOn: seq<string>, evidenceRefs: seq<string>, advancesGoal: string, undoes: seq<string>)

  /** Names are distinct exactly if there are as many of them as the list is long. */
  lemma {:induction false} DistinctMeans(s: seq<string>)
    ensures Distinct(s) <==> |set x | x in s| == |s|
    ensures |set x | x in s| <= |s|
  {
    if s != [] {
      var n := |s| - 1;
      var t := s[..n];
      DistinctMeans(t);
      assert s == t + [s[n]];
      assert (set x | x in s) == (set x | x in t) + {s[n]};
      if s[n] in t {
        assert (set x | x in s) == (set x | x in t);
        var i :| 0 <= i < n && t[i] == s[n];
        assert s[i] == s[n];
      } else {
        assert |(set x | x in t) + {s[n]}| == |set x | x in t| + 1;
        assert forall i, j :: 0 <= i < j < n ==> t[i] == s[i] && t[j] == s[j];
      }
    }
  }

  const MAX_STEPS: nat := 8
  const MAX_CHARS: nat := 512

  function StepIds(steps: seq<Step>): set<string> { set s | s in steps :: s.id }

  /** What makes one step acceptable after the steps before it. */
  predicate StepOk(steps: seq<Step>, i: nat, evidence: set<string>, goalId: string, w: Wording)
    requires i < |steps|
  {
    var s := steps[i];
    && StepIdShape(s.id) && (forall k :: 0 <= k < i ==> steps[k].id != s.id)
    && !Blank(s.description) && |s.description| <= 512 && !w.epic(s.description) && !w.contradicts(s.description)
    && |s.dependsOn| <= 8 && |s.evidenceRefs| <= 64 && Distinct(s.dependsOn) && Distinct(s.evidenceRefs)
    && s.advancesGoal == goalId
    && s.evidenceRefs != [] && (forall e :: e in s.evidenceRefs ==> e in evidence)
    && (forall d :: d in s.dependsOn ==> exists k :: 0 <= k < i && steps[k].id == d)
    && s.undoes == []
  }

  predicate ValidSteps(steps: seq<Step>, committed: seq<string>, evidence: set<string>, goalId: string, w: Wording) {
    && 0 < |steps| <= 8 && Distinct(committed)
    && (forall i :: 0 <= i < |steps| ==> StepOk(steps, i, evidence, goalId, w))
    && (forall c :: c in committed ==> exists k :: 0 <= k < |steps| && steps[k].id == c)
  }

  /** The faults of one step, given the identifiers of the steps before it. */
  function StepFaults(s: Step, before: set<string>, evidence: set<string>, goalId: string, w: Wording): seq<string> {
    (if s.id == "" || s.id in before then ["invalid or duplicate step id"] else [])
    + (if !StepIdShape(s.id) then ["invalid id"] else [])
    + (if Blank(s.description) then ["no description"] else [])
    + (if |s.description| > MAX_CHARS then ["description too long"] else [])
    + (if |s.dependsOn| > 8 || |s.evidenceRefs| > 64 || |s.undoes| > 8 then ["invalid bounded references"] else [])
    + (if !Distinct(s.dependsOn) || !Distinct(s.evidenceRefs) || !Distinct(s.undoes) then ["duplicate references"] else [])
    + (if w.epic(s.description) then ["epic-shaped"] else [])
    + (if w.contradicts(s.description) then ["contradicts constraints"] else [])
    + (if s.advancesGoal != goalId then ["does not advance the goal"] else [])
    + (if s.evidenceRefs == [] || exists e :: e in s.evidenceRefs && e !in evidence then ["not grounded"] else [])
    + (if exists d :: d in s.dependsOn && d !in before then ["missing or forward dependency"] else [])
    + (if s.undoes != [] then ["unsupported regression"] else [])
  }

  lemma {:induction false} FaultlessStep(steps: seq<Step>, i: nat, evidence: set<string>, goalId: string, w: Wording, before: set<string>)
    requires i < |steps| && forall id :: id in before <==> exists k :: 0 <= k < i && steps[k].id == id
    ensures StepFaults(steps[i], before, evidence, goalId, w) == [] <==> StepOk(steps, i, evidence, goalId, w)
  {
    var s := steps[i];
    assert s.id in before <==> !(forall k :: 0 <= k < i ==> steps[k].id != s.id);
  }

  /** Checks the steps in order; the plan is valid when nothing is reported. */
  method ValidatePlanSteps(steps: seq<Step>, committed: seq<string>, evidence: set<string>, goalId: string, w: Wording)
    returns (reasons: seq<string>)
    ensures reasons == [] <==> ValidSteps(steps, committed, evidence, goalId, w)
  {
    hide StepFaults, StepOk, Distinct;
    reasons := [];
    if steps == [] {
      reasons := reasons + ["plan has no steps"];
    }
    if |steps| > MAX_STEPS {
      reasons := reasons + ["plan exceeds the step bound"];
    }
    if !Distinct(committed) {
      reasons := reasons + ["committed step ids are duplicated"];
    }
    ghost var fine := reasons == [];
    var stepIds: set<string> := {};
    for i := 0 to |steps|
      invariant forall id :: id in stepIds <==> exists k :: 0 <= k < i && steps[k].id == id
      invariant reasons == [] <==> fine && forall k :: 0 <= k < i ==> StepOk(steps, k, evidence, goalId, w)
    {
      FaultlessStep(steps, i, evidence, goalId, w, stepIds);
      reasons := reasons + StepFaults(steps[i], stepIds, evidence, goalId, w);
      stepIds := stepIds + {steps[i].id};
    }
    if exists c :: c in committed && c !in stepIds {
      reasons := reasons + ["plan commits an unknown step id"];
    }
  }

  // ---- the listed order is topological ----

  /** Step `i` depends on step `j`. */
  predicate Edge(steps: seq<Step>, i: nat, j: nat) { i < |steps| && j < |steps| && steps[j].id in steps[i].dependsOn }

  predicate Path(steps: seq<Step>, p: seq<nat>) {
    p != [] && forall k :: 0 <= k < |p| - 1 ==> Edge(steps, p[k], p[k + 1])
  }

  lemma {:induction false} EdgesGoBack(steps: seq<Step>, committed: seq<string>, evidence: set<string>, goalId: string, w: Wording, i: nat, j: nat)
    requires ValidSteps(steps, committed, evidence, goalId, w) && Edge(steps, i, j)
    ensures j < i
  {
    assert StepOk(steps, i, evidence, goalId, w);
    var k :| 0 <= k < i && steps[k].id == steps[j].id;
    SameIdSameStep(steps, committed, evidence, goalId, w, j, k);
  }

  lemma {:induction false} SameIdSameStep(steps: seq<Step>, committed: seq<string>, evidence: set<string>, goalId: string, w: Wording, i: nat, j: nat)
    requires ValidSteps(steps, committed, evidence, goalId, w) && i < |steps| && j < |steps| && steps[i].id == steps[j].id
    ensures i == j
  {
    assert StepOk(steps, i, evidence, goalId, w) && StepOk(steps, j, evidence, goalId, w);
  }

  /** Following dependencies in a valid plan always leads to earlier steps, so no chain of them ever returns. */
  lemma {:induction false} ValidPlansAreAcyclic(steps: seq<Step>, committed: seq<string>, evidence: set<string>, goalId: string, w: Wording, p: seq<nat>)
    requires ValidSteps(steps, committed, evidence, goalId, w) && Path(steps, p) && |p| > 1
    ensures p[|p| - 1] < p[0]
  {
    var rest := p[1..];
    assert Edge(steps, p[0], p[0 + 1]);
    EdgesGoBack(steps, committed, evidence, goalId, w, p[0], p[1]);
    if |rest| > 1 {
      forall k | 0 <= k < |rest| - 1 ensures Edge(steps, rest[k], rest[k + 1]) {
        assert Edge(steps, p[k + 1], p[k + 1 + 1]);
      }
      ValidPlansAreAcyclic(steps, committed, evidence, goalId, w, rest);
    }
  }

  // ---- tasks ----

  datatype Criterion = Criterion(id: string, statement: string, evidence: string)

  datatype Task = Task(id: string, planStepId: string, objective: string, dependsOn: seq<string>, criteria: seq<Criterion>)

  const MAX_TASKS: nat := 20
  const MAX_CRITERIA: nat := 5
  const MAX_CRITERION_CHARS: nat := 1_024

  predicate TaskIdShape(s: string) { |s| == 7 && s[..5] == "task-" && '0' <= s[5] <= '9' && '0' <= s[6] <= '9' }

  /** A task identity is the word and two digits. */
  lemma {:induction false} TaskIdMeans(s: string)
    ensures TaskIdShape(s) <==> exists d, e :: s == "task-" + [d, e] && 48 <= d as int <= 57 && 48 <= e as int <= 57
  {
    if |s| == 7 {
      assert s == s[..5] + [s[5], s[6]];
    }
    if TaskIdShape(s) {
      var d, e := s[5], s[6];
      assert s == "task-" + [d, e];
    }
    forall d, e | s == "task-" + [d, e] && 48 <= d as int <= 57 && 48 <= e as int <= 57 ensures TaskIdShape(s) {
      assert s[..5] == "task-" && s[5] == d && s[6] == e;
    }
  }

  predicate CriterionOk(c: Criterion) {
    !Blank(c.id) && !Blank(c.statement) && |c.statement| <= MAX_CRITERION_CHARS && !Blank(c.evidence) && |c.evidence| <= MAX_CRITERION_CHARS
  }

  predicate CriteriaOk(s: seq<Criterion>) { 0 < |s| <= MAX_CRITERIA && forall i :: 0 <= i < |s| ==> CriterionOk(s[i]) }

  /** What makes one task acceptable after the tasks before it. */
  predicate TaskOk(tasks: seq<Task>, i: nat, steps: seq<Step>, w: Wording)
    requires i < |tasks|
  {
    var t := tasks[i];
    && TaskIdShape(t.id) && (forall k :: 0 <= k < i ==> tasks[k].id != t.id)
    && t.planStepId in StepIds(steps) && (forall k :: 0 <= k < i ==> tasks[k].planStepId != t.planStepId)
    && !Blank(t.objective) && |t.objective| <= 512 && !w.epic(t.objective)
    && (forall d :: d in t.dependsOn ==> exists k :: 0 <= k < i && tasks[k].id == d)
    && CriteriaOk(t.criteria)
  }

  /** The first task of a plan step, or the number of tasks. */
  function TaskOf(tasks: seq<Task>, stepId: string): (k: nat)
    ensures k <= |tasks|
    ensures k < |tasks| ==> tasks[k].planStepId == stepId
    ensures forall i :: 0 <= i < k ==> tasks[i].planStepId != stepId
  {
    if tasks == [] then 0
    else
      var k := TaskOf(tasks[..|tasks| - 1], stepId);
      if k < |tasks| - 1 || tasks[|tasks| - 1].planStepId == stepId then k else |tasks|
  }

  /** The tasks of the named steps, as identifiers; a step without a task is passed over. */
  function TaskIdsOf(tasks: seq<Task>, stepIds: seq<string>): seq<string> {
    if stepIds == [] then []
    else
      var k := TaskOf(tasks, stepIds[|stepIds| - 1]);
      TaskIdsOf(tasks, stepIds[..|stepIds| - 1]) + if k < |tasks| then [tasks[k].id] else []
  }

  /** The step has a task that carries its description and its dependencies. */
  predicate Projected(tasks: seq<Task>, s: Step) {
    var k := TaskOf(tasks, s.id);
    k < |tasks| && tasks[k].dependsOn == TaskIdsOf(tasks, s.dependsOn) && tasks[k].objective == s.description
  }

  predicate ValidTasks(tasks: seq<Task>, steps: seq<Step>, w: Wording) {
    && 0 < |tasks| <= 20
    && (forall i :: 0 <= i < |tasks| ==> TaskOk(tasks, i, steps, w))
    && (forall s :: 0 <= s < |steps| ==> Projected(tasks, steps[s]))
  }

  function TaskFaults(t: Task, seen: set<string>, stepIds: set<string>, taken: map<string, Task>, w: Wording): seq<string> {
    (if !TaskIdShape(t.id) || t.id in seen then ["invalid or duplicate task id"] else [])
    + (if t.planStepId !in stepIds then ["outside the vetted plan"] else [])
    + (if t.planStepId in taken then ["step has multiple tasks"] else [])
    + (if Blank(t.objective) || |t.objective| > MAX_CHARS then ["objective empty or too long"]
       else if w.epic(t.objective) then ["epic-shaped"] else [])
    + (if exists d :: d in t.dependsOn && d !in seen then ["missing or forward dependency"] else [])
    + (if !CriteriaOk(t.criteria) then ["lacks bounded observable completion criteria"] else [])
  }

  lemma {:induction false} FaultlessTask(tasks: seq<Task>, i: nat, steps: seq<Step>, w: Wording, seen: set<string>, taken: map<string, Task>)
    requires i < |tasks| && forall id :: id in seen <==> exists k :: 0 <= k < i && tasks[k].id == id
    requires forall id :: id in taken <==> exists k :: 0 <= k < i && tasks[k].planStepId == id
    ensures TaskFaults(tasks[i], seen, StepIds(steps), taken, w) == [] <==> TaskOk(tasks, i, steps, w)
  {
    var t := tasks[i];
    assert t.id in seen <==> !(forall k :: 0 <= k < i ==> tasks[k].id != t.id);
    assert t.planStepId in taken <==> !(forall k :: 0 <= k < i ==> tasks[k].planStepId != t.planStepId);
  }

  /** The identifiers of the tasks that a table gives for some steps. */
  function ExpectedIds(taken: map<string, Task>, stepIds: seq<string>): seq<string> {
    if stepIds == [] then []
    else
      var last := stepIds[|stepIds| - 1];
      ExpectedIds(taken, stepIds[..|stepIds| - 1]) + if last in taken then [taken[last].id] else []
  }

  /** `taken` maps every plan step to its first task among `tasks`. */
  ghost predicate Table(taken: map<string, Task>, tasks: seq<Task>) {
    forall id :: var k := TaskOf(tasks, id); (id in taken <==> k < |tasks|) && (k < |tasks| ==> taken[id] == tasks[k])
  }

  lemma {:induction false} ExpectedIsTaskIds(taken: map<string, Task>, tasks: seq<Task>, stepIds: seq<string>)
    requires Table(taken, tasks)
    ensures ExpectedIds(taken, stepIds) == TaskIdsOf(tasks, stepIds)
  {
    if stepIds != [] {
      ExpectedIsTaskIds(taken, tasks, stepIds[..|stepIds| - 1]);
    }
  }

  lemma {:induction false} TableMore(taken: map<string, Task>, tasks: seq<Task>, t: Task)
    requires Table(taken, tasks)
    ensures Table(if t.planStepId in taken then taken else taken[t.planStepId := t], tasks + [t])
  {
    assert (tasks + [t])[..|tasks|] == tasks;
  }

  lemma {:induction false} TableKeys(taken: map<string, Task>, tasks: seq<Task>, i: nat)
    requires i <= |tasks| && Table(taken, tasks[..i])
    ensures forall id :: id in taken <==> exists k :: 0 <= k < i && tasks[k].planStepId == id
  {
    forall id ensures id in taken <==> exists k :: 0 <= k < i && tasks[k].planStepId == id {
      var k := TaskOf(tasks[..i], id);
      if k < i {
        assert tasks[k].planStepId == id;
      }
      assert forall n :: 0 <= n < k ==> tasks[n] == tasks[..i][n];
    }
  }

  /** Checks the tasks in order and then every plan step; the tasks are valid when nothing is reported. */
  method ValidateTasks(tasks: seq<Task>, steps: seq<Step>, w: Wording) returns (reasons: seq<string>)
    ensures reasons == [] <==> ValidTasks(tasks, steps, w)
  {
    hide TaskFaults, TaskOk, TaskOf, Table, Projected;
    reasons := [];
    if tasks == [] {
      reasons := reasons + ["decomposition produced no tasks"];
    }
    if |tasks| > MAX_TASKS {
      reasons := reasons + ["decomposition exceeds the task bound"];
    }
    ghost var fine := reasons == [];
    var taskByPlanStep: map<string, Task> := map[];
    var seen: set<string> := {};
    EmptyTable();
    for i := 0 to |tasks|
      invariant forall id :: id in seen <==> exists k :: 0 <= k < i && tasks[k].id == id
      invariant Table(taskByPlanStep, tasks[..i])
      invariant reasons == [] <==> fine && forall k :: 0 <= k < i ==> TaskOk(tasks, k, steps, w)
    {
      var t := tasks[i];
      TableKeys(taskByPlanStep, tasks, i);
      FaultlessTask(tasks, i, steps, w, seen, taskByPlanStep);
      reasons := reasons + TaskFaults(t, seen, StepIds(steps), taskByPlanStep, w);
      TableMore(taskByPlanStep, tasks[..i], t);
      assert tasks[..i] + [t] == tasks[..i + 1];
      if t.planStepId !in taskByPlanStep {
        taskByPlanStep := taskByPlanStep[t.planStepId := t];
      }
      seen := seen + {t.id};
    }
    assert tasks[..|tasks|] == tasks;
    ghost var listed := reasons == [];
    for s := 0 to |steps|
      invariant reasons == [] <==> listed && forall k :: 0 <= k < s ==> Projected(tasks, steps[k])
    {
      ProjectedInTable(taskByPlanStep, tasks, steps[s]);
      if steps[s].id !in taskByPlanStep {
        reasons := reasons + ["plan step has no task"];
        continue;
      }
      var t := taskByPlanStep[steps[s].id];
      if t.dependsOn != ExpectedIds(taskByPlanStep, steps[s].dependsOn) {
        reasons := reasons + ["does not preserve plan dependencies"];
      }
      if t.objective != steps[s].description {
        reasons := reasons + ["does not preserve its plan objective"];
      }
    }
  }

  lemma {:induction false} EmptyTable()
    ensures Table(map[], [])
  {
  }

  lemma {:induction false} ProjectedInTable(taken: map<string, Task>, tasks: seq<Task>, s: Step)
    requires Table(taken, tasks)
    ensures Projected(tasks, s) <==>
            s.id in taken && taken[s.id].dependsOn == ExpectedIds(taken, s.dependsOn) && taken[s.id].objective == s.description
  {
    ExpectedIsTaskIds(taken, tasks, s.dependsOn);
  }

  // ---- what an accepted task list is ----

  /** A plan whose steps have distinct identifiers. */
  ghost predicate DistinctSteps(steps: seq<Step>) {
    forall i, j :: 0 <= i < j < |steps| ==> steps[i].id != steps[j].id
  }

  lemma {:induction false} ValidStepsDistinct(steps: seq<Step>, committed: seq<string>, evidence: set<string>, goalId: string, w: Wording)
    requires ValidSteps(steps, committed, evidence, goalId, w)
    ensures DistinctSteps(steps)
  {
    forall i, j | 0 <= i < j < |steps| ensures steps[i].id != steps[j].id {
      assert StepOk(steps, j, evidence, goalId, w);
    }
  }

  lemma {:induction false} SameSize<T(!new)>(a: seq<T>, b: seq<T>)
    requires (forall i, j :: 0 <= i < j < |a| ==> a[i] != a[j]) && (forall i, j :: 0 <= i < j < |b| ==> b[i] != b[j])
    requires forall x :: x in a <==> x in b
    ensures |a| == |b|
  {
    SizeOfSet(a);
    SizeOfSet(b);
    assert (set x | x in a) == (set x | x in b);
  }

  lemma {:induction false} SizeOfSet<T(!new)>(a: seq<T>)
    requires forall i, j :: 0 <= i < j < |a| ==> a[i] != a[j]
    ensures |set x | x in a| == |a|
  {
    if a != [] {
      var rest, last := a[..|a| - 1], a[|a| - 1];
      SizeOfSet(rest);
      assert (set x | x in a) == (set x | x in rest) + {last};
      assert last !in rest;
    }
  }

  /** Every task is the task of exactly one step and every step of exactly one task. */
  lemma {:induction false} TasksMatchSteps(tasks: seq<Task>, steps: seq<Step>, w: Wording)
    requires ValidTasks(tasks, steps, w) && DistinctSteps(steps)
    ensures |tasks| == |steps|
    ensures forall s :: 0 <= s < |steps| ==> TaskOf(tasks, steps[s].id) < |tasks|
    ensures forall t :: 0 <= t < |tasks| ==> TaskOf(tasks, tasks[t].planStepId) == t && tasks[t].planStepId in StepIds(steps)
  {
    hide TaskOf, TaskOk, StepIds;
    forall t | 0 <= t < |tasks|
      ensures TaskOf(tasks, tasks[t].planStepId) == t && tasks[t].planStepId in StepIds(steps)
    {
      TaskIsOfStep(tasks, steps, w, t);
    }
    forall s | 0 <= s < |steps| ensures TaskOf(tasks, steps[s].id) < |tasks| {
      assert Projected(tasks, steps[s]);
    }
    SameIds(tasks, steps);
  }

  lemma {:induction false} TaskIsOfStep(tasks: seq<Task>, steps: seq<Step>, w: Wording, t: nat)
    requires t < |tasks| && TaskOk(tasks, t, steps, w)
    ensures TaskOf(tasks, tasks[t].planStepId) == t && tasks[t].planStepId in StepIds(steps)
  {
    hide TaskOf;
  }

  lemma {:induction false} SameIds(tasks: seq<Task>, steps: seq<Step>)
    requires DistinctSteps(steps) && forall s :: 0 <= s < |steps| ==> TaskOf(tasks, steps[s].id) < |tasks|
    requires forall t :: 0 <= t < |tasks| ==> TaskOf(tasks, tasks[t].planStepId) == t && tasks[t].planStepId in StepIds(steps)
    ensures |tasks| == |steps|
  {
    hide TaskOf;
    var a := seq(|tasks|, t requires 0 <= t < |tasks| => tasks[t].planStepId);
    var b := seq(|steps|, s requires 0 <= s < |steps| => steps[s].id);
    forall x ensures x in a <==> x in b {
      if x in b {
        var s :| 0 <= s < |steps| && b[s] == x;
        assert a[TaskOf(tasks, steps[s].id)] == x;
      }
      if x in a {
        var t :| 0 <= t < |tasks| && a[t] == x;
        var step :| step in steps && step.id == tasks[t].planStepId;
        var s :| 0 <= s < |steps| && steps[s] == step;
        assert b[s] == x;
      }
    }
    forall i, j | 0 <= i < j < |a| ensures a[i] != a[j] {
      assert TaskOf(tasks, tasks[i].planStepId) == i && TaskOf(tasks, tasks[j].planStepId) == j;
    }
    SameSize(a, b);
  }

  /** A task of one of the named steps. */
  predicate Named(tasks: seq<Task>, stepId: string, id: string) {
    TaskOf(tasks, stepId) < |tasks| && tasks[TaskOf(tasks, stepId)].id == id
  }

  lemma {:induction false} TaskIdsMembers(tasks: seq<Task>, stepIds: seq<string>, id: string)
    ensures id in TaskIdsOf(tasks, stepIds) <==> exists d :: d in stepIds && Named(tasks, d, id)
  {
    if stepIds != [] {
      hide TaskOf;
      var rest, last := stepIds[..|stepIds| - 1], stepIds[|stepIds| - 1];
      assert stepIds == rest + [last];
      TaskIdsMembers(tasks, rest, id);
      assert id in TaskIdsOf(tasks, stepIds) <==> id in TaskIdsOf(tasks, rest) || Named(tasks, last, id);
      assert last in stepIds && forall d :: d in stepIds <==> d in rest || d == last;
    }
  }

  /**
   Every task list the validator accepts for a valid plan is a dependency-preserving bijection with the plan's steps:
   one step depends on another exactly if its task depends on the other's task.
   */
  lemma {:induction false} TasksPreserveDependencies(tasks: seq<Task>, steps: seq<Step>, w: Wording, i: nat, j: nat)
    requires ValidTasks(tasks, steps, w) && DistinctSteps(steps) && i < |steps| && j < |steps|
    ensures var s, t := TaskOf(tasks, steps[i].id), TaskOf(tasks, steps[j].id);
      && s < |tasks| && t < |tasks| && (s == t <==> i == j)
      && tasks[s].objective == steps[i].description
      && (Edge(steps, i, j) <==> tasks[t].id in tasks[s].dependsOn)
      && (Edge(steps, i, j) ==> t < s)
  {
    hide TaskOf, TaskIdsOf;
    TasksMatchSteps(tasks, steps, w);
    assert Projected(tasks, steps[i]);
    var s, t := TaskOf(tasks, steps[i].id), TaskOf(tasks, steps[j].id);
    assert TaskOk(tasks, s, steps, w);
    TaskIdsMembers(tasks, steps[i].dependsOn, tasks[t].id);
    assert Named(tasks, steps[j].id, tasks[t].id);
    if tasks[t].id in tasks[s].dependsOn {
      var d :| d in steps[i].dependsOn && Named(tasks, d, tasks[t].id);
      UniqueTaskId(tasks, steps, w, TaskOf(tasks, d), t);
      assert d == steps[j].id;
      var k :| 0 <= k < s && tasks[k].id == tasks[t].id;
      UniqueTaskId(tasks, steps, w, k, t);
    }
  }

  lemma {:induction false} UniqueTaskId(tasks: seq<Task>, steps: seq<Step>, w: Wording, i: nat, j: nat)
    requires ValidTasks(tasks, steps, w) && i < |tasks| && j < |tasks| && tasks[i].id == tasks[j].id
    ensures i == j
  {
    assert TaskOk(tasks, i, steps, w) && TaskOk(tasks, j, steps, w);
  }

  // ---- decomposition ----

  const REFERENCE: string := "Retained success criterion SHA-256: "

  /** A digest of a criterion, in hexadecimal. */
  ghost predicate Digests(hash: Criterion -> string) { forall c :: |hash(c)| == 64 }

  /** A text that is too long for a task is replaced by a reference to the whole criterion. */
  function ProjectCriterion(c: Criterion, hash: Criterion -> string): Criterion {
    var reference := REFERENCE + hash(c);
    Criterion(c.id, if |c.statement| <= MAX_CRITERION_CHARS then c.statement else reference,
              if |c.evidence| <= MAX_CRITERION_CHARS then c.evidence else reference)
  }

  function ProjectCriteria(s: seq<Criterion>, hash: Criterion -> string): seq<Criterion> {
    seq(|s|, i requires 0 <= i < |s| => ProjectCriterion(s[i], hash))
  }

  /** "task-" and at least two digits. */
  function TaskId(n: nat): string { "task-" + (if n < 10 then "0" else "") + Decimal(n) }

  /** The position of a step, or the number of steps. */
  function StepAt(steps: seq<Step>, id: string): (k: nat)
    ensures k <= |steps|
    ensures k < |steps| ==> steps[k].id == id
    ensures k == |steps| ==> forall i :: 0 <= i < |steps| ==> steps[i].id != id
  {
    if steps == [] then 0
    else if steps[|steps| - 1].id == id then |steps| - 1
    else
      var k := StepAt(steps[..|steps| - 1], id);
      if k < |steps| - 1 then k else |steps|
  }

  function StepTaskIds(steps: seq<Step>, ids: seq<string>): seq<string> {
    if ids == [] then []
    else
      var k := StepAt(steps, ids[|ids| - 1]);
      StepTaskIds(steps, ids[..|ids| - 1]) + if k < |steps| then [TaskId(k + 1)] else []
  }

  function CriteriaFor(steps: seq<Step>, i: nat, criteria: seq<Criterion>): seq<Criterion> {
    if i == |steps| - 1 || criteria == [] then criteria else criteria[..1]
  }

  /** One task per step, in order; the last task carries every criterion, the others the first. */
  function Decompose(steps: seq<Step>, criteria: seq<Criterion>, hash: Criterion -> string): seq<Task> {
    seq(|steps|, i requires 0 <= i < |steps| =>
      Task(TaskId(i + 1), steps[i].id, steps[i].description, StepTaskIds(steps, steps[i].dependsOn),
           ProjectCriteria(CriteriaFor(steps, i, criteria), hash)))
  }

  /** Only the last task carries all criteria; every other carries the first, if there is one. */
  lemma {:induction false} CriteriaAreShared(steps: seq<Step>, criteria: seq<Criterion>, hash: Criterion -> string, i: nat)
    requires i < |steps|
    ensures var task := Decompose(steps, criteria, hash)[i];
      && task.planStepId == steps[i].id && task.objective == steps[i].description
      && |task.criteria| == (if i + 1 == |steps| || criteria == [] then |criteria| else 1)
      && forall k :: 0 <= k < |task.criteria| ==> k < |criteria| && task.criteria[k] == ProjectCriterion(criteria[k], hash)
  {
  }

  /** The first task without dependencies. */
  function Admitted(tasks: seq<Task>): string {
    if tasks == [] then "" else if tasks[0].dependsOn == [] then tasks[0].id else Admitted(tasks[1..])
  }

  /** What survives projection: identified, and blank nowhere that is copied. */
  predicate Projectable(c: Criterion) {
    !Blank(c.id) && (|c.statement| <= 1_024 ==> !Blank(c.statement)) && (|c.evidence| <= 1_024 ==> !Blank(c.evidence))
  }

  lemma {:induction false} ProjectedCriterionOk(c: Criterion, hash: Criterion -> string)
    requires Digests(hash)
    ensures CriterionOk(ProjectCriterion(c, hash)) <==> Projectable(c)
  {
    var reference := REFERENCE + hash(c);
    assert reference[0] == 'R' && !White('R');
    assert !Blank(reference) && |reference| <= MAX_CRITERION_CHARS;
  }

  /** The steps before the tenth get two-digit identifiers that differ. */
  lemma {:induction false} TaskIdsDiffer(i: nat, j: nat)
    requires 0 < i <= MAX_STEPS && 0 < j <= MAX_STEPS
    ensures TaskIdShape(TaskId(i)) && (TaskId(i) == TaskId(j) ==> i == j)
  {
    assert |Decimal(i)| == 1 && |Decimal(j)| == 1;
    assert TaskId(i)[..5] == "task-" && TaskId(i)[5] == '0' && TaskId(i)[6] == Decimal(i)[0];
    assert TaskId(j)[6] == Decimal(j)[0];
    if TaskId(i) == TaskId(j) {
      assert Decimal(i) == [Decimal(i)[0]] == [Decimal(j)[0]] == Decimal(j);
      DecimalInjective(i, j);
    }
  }

  lemma {:induction false} CriteriaProject(steps: seq<Step>, i: nat, criteria: seq<Criterion>, hash: Criterion -> string)
    requires Digests(hash) && i < |steps|
    ensures (1 <= |criteria| <= MAX_CRITERIA && forall k :: 0 <= k < |criteria| ==> Projectable(criteria[k])) ==>
              CriteriaOk(ProjectCriteria(CriteriaFor(steps, i, criteria), hash))
    ensures i == |steps| - 1 && CriteriaOk(ProjectCriteria(CriteriaFor(steps, i, criteria), hash)) ==>
              1 <= |criteria| <= MAX_CRITERIA && forall k :: 0 <= k < |criteria| ==> Projectable(criteria[k])
  {
    hide CriterionOk, Projectable, ProjectCriterion;
    var chosen := CriteriaFor(steps, i, criteria);
    forall k | 0 <= k < |chosen| ensures CriterionOk(ProjectCriteria(chosen, hash)[k]) <==> Projectable(criteria[k]) {
      ProjectedCriterionOk(criteria[k], hash);
    }
    if i == |steps| - 1 && CriteriaOk(ProjectCriteria(chosen, hash)) {
      forall k | 0 <= k < |criteria| ensures Projectable(criteria[k]) {
        assert CriterionOk(ProjectCriteria(chosen, hash)[k]);
      }
    }
  }

  lemma {:induction false} DecomposedPlaces(steps: seq<Step>, criteria: seq<Criterion>, hash: Criterion -> string, k: nat)
    requires DistinctSteps(steps) && k < |steps|
    ensures StepAt(steps, steps[k].id) == k && TaskOf(Decompose(steps, criteria, hash), steps[k].id) == k
    ensures |Decompose(steps, criteria, hash)| == |steps| && Decompose(steps, criteria, hash)[k].id == TaskId(k + 1)
  {
    hide StepTaskIds, ProjectCriteria;
    var tasks := Decompose(steps, criteria, hash);
    assert forall i :: 0 <= i < |tasks| ==> tasks[i].planStepId == steps[i].id;
    var t := TaskOf(tasks, steps[k].id);
    if t < |tasks| {
      assert tasks[t].planStepId == steps[t].id;
    }
    assert tasks[k].planStepId == steps[k].id;
  }

  lemma {:induction false} DecomposedDependencies(steps: seq<Step>, criteria: seq<Criterion>, hash: Criterion -> string, ids: seq<string>)
    requires DistinctSteps(steps) && forall id :: id in ids ==> exists k :: 0 <= k < |steps| && steps[k].id == id
    ensures StepTaskIds(steps, ids) == TaskIdsOf(Decompose(steps, criteria, hash), ids)
  {
    hide TaskId, TaskOf, StepAt, Decompose, DistinctSteps;
    if ids != [] {
      var rest, last := ids[..|ids| - 1], ids[|ids| - 1];
      assert ids == rest + [last] && last in ids && forall id :: id in rest ==> id in ids;
      DecomposedDependencies(steps, criteria, hash, rest);
      var k :| 0 <= k < |steps| && steps[k].id == last;
      DecomposedPlaces(steps, criteria, hash, k);
    }
  }

  lemma {:induction false} StepTaskIdsMembers(steps: seq<Step>, ids: seq<string>, d: string) returns (k: nat)
    requires d in StepTaskIds(steps, ids)
    ensures k < |steps| && steps[k].id in ids && d == TaskId(k + 1)
  {
    hide TaskId;
    var rest, last := ids[..|ids| - 1], ids[|ids| - 1];
    assert ids == rest + [last] && last in ids && forall id :: id in rest ==> id in ids;
    if d in StepTaskIds(steps, rest) {
      k := StepTaskIdsMembers(steps, rest, d);
    } else {
      k := StepAt(steps, last);
    }
  }

  /** The tasks of a valid plan are numbered apart, and name only steps' tasks that come before. */
  lemma {:induction false} DecomposedTaskOk(steps: seq<Step>, committed: seq<string>, evidence: set<string>, goalId: string, w: Wording,
                         criteria: seq<Criterion>, hash: Criterion -> string, i: nat)
    requires ValidSteps(steps, committed, evidence, goalId, w) && Digests(hash) && i < |steps|
    ensures var tasks := Decompose(steps, criteria, hash);
      TaskOk(tasks, i, steps, w) <==> CriteriaOk(tasks[i].criteria)
  {
    hide TaskId, ProjectCriteria, StepIdShape, Blank, Distinct;
    var tasks := Decompose(steps, criteria, hash);
    ValidStepsDistinct(steps, committed, evidence, goalId, w);
    assert StepOk(steps, i, evidence, goalId, w);
    forall n | 0 < n <= |steps| ensures TaskIdShape(TaskId(n)) && (TaskId(n) == TaskId(i + 1) ==> n == i + 1) {
      TaskIdsDiffer(n, i + 1);
    }
    assert forall k :: 0 <= k < |tasks| ==> tasks[k].id == TaskId(k + 1);
    DependenciesComeFirst(steps, committed, evidence, goalId, w, criteria, hash, i);
    assert steps[i] in steps;
  }

  lemma {:induction false} DependenciesComeFirst(steps: seq<Step>, committed: seq<string>, evidence: set<string>, goalId: string, w: Wording,
                              criteria: seq<Criterion>, hash: Criterion -> string, i: nat)
    requires ValidSteps(steps, committed, evidence, goalId, w) && i < |steps|
    ensures var tasks := Decompose(steps, criteria, hash);
      && tasks[i].dependsOn == TaskIdsOf(tasks, steps[i].dependsOn)
      && forall d :: d in tasks[i].dependsOn ==> exists k :: 0 <= k < i && tasks[k].id == d
  {
    hide TaskId, ProjectCriteria, StepIdShape, Blank, Distinct, TaskIdsOf, StepTaskIds;
    var tasks := Decompose(steps, criteria, hash);
    ValidStepsDistinct(steps, committed, evidence, goalId, w);
    assert StepOk(steps, i, evidence, goalId, w);
    DecomposedDependencies(steps, criteria, hash, steps[i].dependsOn);
    forall d | d in tasks[i].dependsOn ensures exists k :: 0 <= k < i && tasks[k].id == d {
      var k := StepTaskIdsMembers(steps, steps[i].dependsOn, d);
      EdgesGoBack(steps, committed, evidence, goalId, w, i, k);
      assert tasks[k].id == d;
    }
  }

  /**
   Decomposing a valid plan passes the task validator exactly if there are one to five criteria, each identified and
   none of its copied texts blank.
   */
  lemma {:induction false} DecompositionPasses(steps: seq<Step>, committed: seq<string>, evidence: set<string>, goalId: string, w: Wording,
                            criteria: seq<Criterion>, hash: Criterion -> string)
    requires ValidSteps(steps, committed, evidence, goalId, w) && Digests(hash)
    ensures ValidTasks(Decompose(steps, criteria, hash), steps, w) <==>
            (1 <= |criteria| <= 5 && forall k :: 0 <= k < |criteria| ==> Projectable(criteria[k]))
  {
    hide TaskOk, ProjectCriteria, CriteriaOk, StepTaskIds, TaskIdsOf, TaskOf, Projectable, StepOk;
    var tasks := Decompose(steps, criteria, hash);
    ValidStepsDistinct(steps, committed, evidence, goalId, w);
    forall i | 0 <= i < |steps|
      ensures TaskOk(tasks, i, steps, w) <==> CriteriaOk(ProjectCriteria(CriteriaFor(steps, i, criteria), hash))
      ensures Projected(tasks, steps[i])
    {
      DecomposedTaskOk(steps, committed, evidence, goalId, w, criteria, hash, i);
      DependenciesComeFirst(steps, committed, evidence, goalId, w, criteria, hash, i);
      DecomposedPlaces(steps, criteria, hash, i);
    }
    forall i | 0 <= i < |steps|
      ensures (1 <= |criteria| <= MAX_CRITERIA && forall k :: 0 <= k < |criteria| ==> Projectable(criteria[k])) ==> TaskOk(tasks, i, steps, w)
    {
      CriteriaProject(steps, i, criteria, hash);
    }
    CriteriaProject(steps, |steps| - 1, criteria, hash);
    if ValidTasks(tasks, steps, w) {
      assert TaskOk(tasks, |steps| - 1, steps, w);
    }
  }

  lemma {:induction false} HasMember(s: seq<string>)
    ensures s != [] ==> exists d :: d in s
  {
    if s != [] {
      assert s[0] in s;
    }
  }

  /** A valid plan always admits a root: the task of its first step, which depends on nothing. */
  lemma {:induction false} RootIsAdmitted(steps: seq<Step>, committed: seq<string>, evidence: set<string>, goalId: string, w: Wording,
                       criteria: seq<Criterion>, hash: Criterion -> string)
    requires ValidSteps(steps, committed, evidence, goalId, w)
    ensures var tasks := Decompose(steps, criteria, hash);
      tasks[0].dependsOn == [] && Admitted(tasks) == "task-01" == tasks[0].id && tasks[0].planStepId == steps[0].id
  {
    hide ProjectCriteria;
    var tasks := Decompose(steps, criteria, hash);
    assert StepOk(steps, 0, evidence, goalId, w);
    HasMember(steps[0].dependsOn);
    assert Decimal(1) == "1";
  }
}
