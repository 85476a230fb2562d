// The maintenance workflow's task model (validate_workflow.py, validate_models): what a
// model without errors promises about dependencies, however long the chain.

module WorkflowModel {
  import opened Wrappers

  datatype Status = Proposed | Ready | InProgress | Blocked | Done | Unrecognised

  /** A task table. A list that is not an array of non-empty strings is None. */
  datatype Task = Task(
    id: string,
    status: Status,
    milestone: string,
    approved: bool,
    described: bool,
    result: bool,
    validated: bool,
    reviewed: bool,
    reviewsRequired: Option<set<string>>,
    reviewsCompleted: Option<set<string>>,
    dependencies: Option<seq<string>>)

  datatype Entry = NotTable | Table(task: Task)

  datatype Row = Row(id: string, milestone: string, status: Status)

  datatype Rule =
    | Policy | Shape | Id | Duplicate | StatusRule | Approval | Description | Result | Evidence | Reviews
    | Dependencies | Active | SelfDependency | UnknownDependency | Order | Ledger

  datatype Problem = Problem(rule: Rule, id: string)

  const MAX_TASK_ID_LENGTH: nat := 64

  predicate ValidId(id: string)
  {
    && 4 <= |id| <= MAX_TASK_ID_LENGTH && id[0] == 'A'
    && forall k :: 1 <= k < |id| ==> '0' <= id[k] <= '9'
  }

  predicate Executable(status: Status)
  {
    status.Ready? || status.InProgress? || status.Done?
  }

  function Listed(field: Option<set<string>>): set<string>
  {
    if field.Some? then field.value else {}
  }

  function DependenciesOf(task: Task): seq<string>
  {
    if task.dependencies.Some? then task.dependencies.value else []
  }

  // ---- What a sound model is ----

  predicate TaskSound(task: Task)
  {
    && ValidId(task.id)
    && !task.status.Unrecognised?
    && (Executable(task.status) ==> task.approved)
    && task.described
    && (task.status.Done? ==>
          && task.result && task.validated && task.reviewed
          && task.reviewsRequired.Some? && task.reviewsCompleted.Some?
          && task.reviewsRequired.value <= task.reviewsCompleted.value)
    && task.dependencies.Some?
  }

  /** Every entry is a table of its own id. */
  predicate TasksSound(entries: seq<Entry>)
  {
    && (forall i :: 0 <= i < |entries| ==> entries[i].Table? && TaskSound(entries[i].task))
    && forall i, j :: 0 <= i < j < |entries| ==> entries[i].task.id != entries[j].task.id
  }

  predicate DependsOn(entries: seq<Entry>, i: nat, j: nat)
  {
    && i < |entries| && j < |entries| && entries[i].Table? && entries[j].Table?
    && entries[j].task.id in DependenciesOf(entries[i].task)
  }

  /** Each dependency is another listed task, and Done before its dependent is executable. */
  predicate DependenciesSound(entries: seq<Entry>)
    requires TasksSound(entries)
  {
    forall i :: 0 <= i < |entries| ==>
      forall d :: d in DependenciesOf(entries[i].task) ==>
        && d != entries[i].task.id
        && exists j ::
             && 0 <= j < |entries| && entries[j].task.id == d
             && (Executable(entries[i].task.status) ==> entries[j].task.status.Done?)
  }

  function ActiveIds(entries: seq<Entry>): seq<string>
    decreases |entries|
  {
    if entries == [] then []
    else
      var n := |entries| - 1;
      var earlier := ActiveIds(entries[..n]);
      if entries[n].Table? && entries[n].task.status.InProgress? then earlier + [entries[n].task.id] else earlier
  }

  predicate LedgerSound(entries: seq<Entry>, ledger: Option<set<Row>>)
    requires TasksSound(entries)
  {
    ledger.Some? ==>
      forall i :: 0 <= i < |entries| ==>
        Row(entries[i].task.id, entries[i].task.milestone, entries[i].task.status) in ledger.value
  }

  predicate Sound(entries: seq<Entry>, ledger: Option<set<Row>>)
  {
    && TasksSound(entries)
    && |ActiveIds(entries)| <= 1
    && DependenciesSound(entries)
    && LedgerSound(entries, ledger)
  }

  // ---- What soundness promises ----

  /** A chain of one or more dependency steps. */
  predicate Chain(entries: seq<Entry>, path: seq<nat>)
  {
    && |path| >= 2
    && (forall k :: 0 <= k < |path| ==> path[k] < |entries| && entries[path[k]].Table?)
    && forall k :: 0 <= k < |path| - 1 ==> DependsOn(entries, path[k], path[k + 1])
  }

  /** Behind an executable task everything is Done, however far. */
  lemma {:induction false} BehindExecutableIsDone(entries: seq<Entry>, ledger: Option<set<Row>>, path: seq<nat>, k: nat)
    requires Sound(entries, ledger) && Chain(entries, path) && 1 <= k < |path|
    requires Executable(entries[path[0]].task.status)
    ensures entries[path[k]].task.status.Done?
    decreases k
  {
    if k > 1 {
      BehindExecutableIsDone(entries, ledger, path, k - 1);
    }
    DependencyIsDone(entries, path[k - 1], path[k]);
  }

  lemma DependencyIsDone(entries: seq<Entry>, i: nat, j: nat)
    requires TasksSound(entries) && DependenciesSound(entries) && DependsOn(entries, i, j)
    requires Executable(entries[i].task.status)
    ensures entries[j].task.status.Done?
  {
    var d := entries[j].task.id;
    var m :| 0 <= m < |entries| && entries[m].task.id == d && entries[m].task.status.Done?;
    assert m == j;
  }

  /** Nothing Done depends, at any distance, on a task in progress. */
  lemma DoneNeverAwaitsActive(entries: seq<Entry>, ledger: Option<set<Row>>, path: seq<nat>)
    requires Sound(entries, ledger) && Chain(entries, path)
    requires entries[path[0]].task.status.Done?
    ensures !entries[path[|path| - 1]].task.status.InProgress?
  {
    BehindExecutableIsDone(entries, ledger, path, |path| - 1);
  }

  predicate InProgressAt(entries: seq<Entry>, i: nat)
    requires i < |entries|
  {
    entries[i].Table? && entries[i].task.status.InProgress?
  }

  /** The active list is empty exactly when no task is in progress. */
  lemma {:induction false} ActiveIdsMeans(entries: seq<Entry>)
    ensures ActiveIds(entries) != [] <==> exists i :: 0 <= i < |entries| && InProgressAt(entries, i)
    ensures forall id :: id in ActiveIds(entries) ==>
              exists i :: 0 <= i < |entries| && InProgressAt(entries, i) && entries[i].task.id == id
    decreases |entries|
  {
    if entries != [] {
      var n := |entries| - 1;
      ActiveIdsMeans(entries[..n]);
      forall id | id in ActiveIds(entries)
        ensures exists i :: 0 <= i < |entries| && InProgressAt(entries, i) && entries[i].task.id == id {
        if id in ActiveIds(entries[..n]) {
          var i :| 0 <= i < n && InProgressAt(entries[..n], i) && entries[..n][i].task.id == id;
          assert InProgressAt(entries, i) && entries[i].task.id == id;
        } else {
          assert InProgressAt(entries, n) && entries[n].task.id == id;
        }
      }
      if i :| 0 <= i < |entries| && InProgressAt(entries, i) {
        if i < n {
          assert InProgressAt(entries[..n], i);
        }
        assert ActiveIds(entries) != [];
      }
      assert ActiveIds(entries) != [] ==> ActiveIds(entries)[0] in ActiveIds(entries);
    }
  }

  /** At most one task is in progress. */
  lemma {:induction false} OneAtATime(entries: seq<Entry>)
    ensures |ActiveIds(entries)| <= 1 <==>
      forall i, j :: 0 <= i < j < |entries| && InProgressAt(entries, i) ==> !InProgressAt(entries, j)
    decreases |entries|
  {
    if entries != [] {
      var n := |entries| - 1;
      OneAtATime(entries[..n]);
      ActiveIdsMeans(entries[..n]);
      forall i | 0 <= i < n ensures InProgressAt(entries[..n], i) <==> InProgressAt(entries, i) {}
      if ActiveIds(entries[..n]) != [] && InProgressAt(entries, n) {
        var i :| 0 <= i < n && InProgressAt(entries[..n], i);
        assert InProgressAt(entries, i);
      }
    }
  }

  /** A task that is ready, in progress or Done is approved, described and, where there is
      a ledger, in it; and everything behind it is Done, with its evidence and reviews. */
  lemma StartedTaskIsReady(entries: seq<Entry>, ledger: Option<set<Row>>, path: seq<nat>, k: nat)
    requires Sound(entries, ledger) && Chain(entries, path) && 1 <= k < |path|
    requires
      var status := entries[path[0]].task.status;
      status.Ready? || status.InProgress? || status.Done?
    ensures
      var task := entries[path[0]].task;
      && task.approved && task.described
      && (ledger.Some? ==> exists row :: row in ledger.value && row.id == task.id
                             && row.status == task.status && row.milestone == task.milestone)
    ensures
      var behind := entries[path[k]].task;
      && behind.status.Done? && behind.approved && behind.result && behind.validated && behind.reviewed
      && Listed(behind.reviewsRequired) <= Listed(behind.reviewsCompleted)
  {
    BehindExecutableIsDone(entries, ledger, path, k);
  }

  // ---- Circles ----

  /** What the checks ask of one dependency on a listed task. */
  predicate LinkSound(entries: seq<Entry>, i: nat, j: nat)
    requires i < |entries| && j < |entries| && entries[i].Table? && entries[j].Table?
  {
    && entries[i].task.id != entries[j].task.id
    && (Executable(entries[i].task.status) ==> entries[j].task.status.Done?)
  }

  predicate StepsSound(entries: seq<Entry>, path: seq<nat>)
    requires Chain(entries, path)
  {
    forall k :: 0 <= k < |path| - 1 ==> LinkSound(entries, path[k], path[k + 1])
  }

  /** A chain that ends where it began. */
  predicate Circle(entries: seq<Entry>, path: seq<nat>)
  {
    Chain(entries, path) && path[0] == path[|path| - 1]
  }

  predicate NoSelfStep(entries: seq<Entry>, path: seq<nat>)
    requires Chain(entries, path)
  {
    forall k :: 0 <= k < |path| - 1 ==> entries[path[k]].task.id != entries[path[k + 1]].task.id
  }

  predicate WhollyDone(entries: seq<Entry>, path: seq<nat>)
    requires Chain(entries, path)
  {
    forall k :: 0 <= k < |path| ==> entries[path[k]].task.status.Done?
  }

  predicate WhollyIdle(entries: seq<Entry>, path: seq<nat>)
    requires Chain(entries, path)
  {
    forall k :: 0 <= k < |path| ==> !Executable(entries[path[k]].task.status)
  }

  /** Along sound steps, whatever follows an executable task is Done. */
  lemma {:induction false} DoneAlong(entries: seq<Entry>, path: seq<nat>, i: nat, k: nat)
    requires Chain(entries, path) && StepsSound(entries, path) && i < k < |path|
    requires Executable(entries[path[i]].task.status)
    ensures entries[path[k]].task.status.Done?
    decreases k
  {
    if i < k - 1 {
      DoneAlong(entries, path, i, k - 1);
    }
    assert LinkSound(entries, path[k - 1], path[k - 1 + 1]);
  }

  /** Exactly the circles that are wholly Done or wholly not executable pass, in which no
      task depends on itself. */
  lemma CirclePassesExactly(entries: seq<Entry>, path: seq<nat>)
    requires Circle(entries, path)
    ensures StepsSound(entries, path) <==>
              NoSelfStep(entries, path) && (WhollyDone(entries, path) || WhollyIdle(entries, path))
  {
    if StepsSound(entries, path) {
      forall k | 0 <= k < |path| - 1 ensures entries[path[k]].task.id != entries[path[k + 1]].task.id {
        assert LinkSound(entries, path[k], path[k + 1]);
      }
      if i :| 0 <= i < |path| && Executable(entries[path[i]].task.status) {
        if i < |path| - 1 {
          DoneAlong(entries, path, i, |path| - 1);
        }
        DoneAlong(entries, path, 0, |path| - 1);
        forall k | 0 <= k < |path| ensures entries[path[k]].task.status.Done? {
          if k > 0 {
            DoneAlong(entries, path, 0, k);
          }
        }
      }
    }
  }

  /** Every dependency names a listed task. */
  predicate AllListed(entries: seq<Entry>)
  {
    forall i :: 0 <= i < |entries| && entries[i].Table? ==>
      forall d :: d in DependenciesOf(entries[i].task) ==> Lists(entries, d)
  }

  predicate Lists(entries: seq<Entry>, id: string)
  {
    exists j :: 0 <= j < |entries| && entries[j].Table? && entries[j].task.id == id
  }

  /** The dependency checks of a whole model are those of its links. */
  lemma DependenciesAreLinks(entries: seq<Entry>)
    requires TasksSound(entries)
    ensures DependenciesSound(entries) <==>
              && AllListed(entries)
              && forall i: nat, j: nat :: DependsOn(entries, i, j) ==> LinkSound(entries, i, j)
  {
    if DependenciesSound(entries) {
      forall i: nat, j: nat | DependsOn(entries, i, j) ensures LinkSound(entries, i, j) {
        if Executable(entries[i].task.status) {
          DependencyIsDone(entries, i, j);
        }
      }
    }
    if AllListed(entries) && forall i: nat, j: nat :: DependsOn(entries, i, j) ==> LinkSound(entries, i, j) {
      forall i, d | 0 <= i < |entries| && d in DependenciesOf(entries[i].task)
        ensures && d != entries[i].task.id
                && exists j ::
                     && 0 <= j < |entries| && entries[j].task.id == d
                     && (Executable(entries[i].task.status) ==> entries[j].task.status.Done?)
      {
        assert Lists(entries, d);
        var j :| 0 <= j < |entries| && entries[j].task.id == d;
        assert DependsOn(entries, i, j);
        assert LinkSound(entries, i, j);
      }
    }
  }

  /** In a sound model every circle is wholly Done or wholly not executable. */
  lemma CycleIsDoneOrIdle(entries: seq<Entry>, ledger: Option<set<Row>>, path: seq<nat>)
    requires Sound(entries, ledger) && Circle(entries, path)
    ensures NoSelfStep(entries, path) && (WhollyDone(entries, path) || WhollyIdle(entries, path))
  {
    DependenciesAreLinks(entries);
    CirclePassesExactly(entries, path);
  }

  /** The model has no other dependencies than those of the circle. */
  predicate OnlyAround(entries: seq<Entry>, path: seq<nat>)
    requires Circle(entries, path)
  {
    forall i :: 0 <= i < |entries| && entries[i].Table? ==>
      forall d :: d in DependenciesOf(entries[i].task) ==> StepFrom(entries, path, i, d)
  }

  predicate StepFrom(entries: seq<Entry>, path: seq<nat>, i: nat, id: string)
    requires Circle(entries, path)
  {
    exists k :: 0 <= k < |path| - 1 && path[k] == i && entries[path[k + 1]].task.id == id
  }

  /** A model whose dependencies are one circle passes the dependency checks exactly when the
      circle is wholly Done or wholly not executable, self-dependencies apart. */
  lemma CircleModelPassesExactly(entries: seq<Entry>, path: seq<nat>)
    requires TasksSound(entries) && Circle(entries, path) && OnlyAround(entries, path)
    ensures DependenciesSound(entries) <==>
              NoSelfStep(entries, path) && (WhollyDone(entries, path) || WhollyIdle(entries, path))
  {
    DependenciesAreLinks(entries);
    CirclePassesExactly(entries, path);
    forall i, d | 0 <= i < |entries| && d in DependenciesOf(entries[i].task) ensures Lists(entries, d) {
      assert StepFrom(entries, path, i, d);
    }
    if StepsSound(entries, path) {
      forall i: nat, j: nat | DependsOn(entries, i, j) ensures LinkSound(entries, i, j) {
        assert StepFrom(entries, path, i, entries[j].task.id);
        var k :| 0 <= k < |path| - 1 && path[k] == i && entries[path[k + 1]].task.id == entries[j].task.id;
        assert path[k + 1] == j;
        assert LinkSound(entries, path[k], path[k + 1]);
      }
    }
  }

  function Idle(id: string, dependency: string): Task
  {
    Task(id, Proposed, "M1", false, true, false, false, false, None, None, Some([dependency]))
  }

  function Completed(id: string, dependency: string): Task
  {
    Task(id, Done, "M1", true, true, true, true, true, Some({}), Some({}), Some([dependency]))
  }

  lemma PairIsSound(a: Task, b: Task)
    requires a.id == "A001" && a.dependencies == Some(["A002"]) && b.id == "A002" && b.dependencies == Some(["A001"])
    requires (a.status.Done? && b.status.Done?) || (a.status.Proposed? && b.status.Proposed?)
    requires TaskSound(a) && TaskSound(b)
    ensures Sound([Table(a), Table(b)], None) && Circle([Table(a), Table(b)], [0, 1, 0])
  {
    var entries := [Table(a), Table(b)];
    assert TasksSound(entries) by {
      assert "A001"[3] != "A002"[3];
    }
    assert DependenciesSound(entries) by {
      assert entries[0].task.id == "A001" && entries[1].task.id == "A002";
      assert DependenciesOf(a) == ["A002"] && DependenciesOf(b) == ["A001"];
    }
    assert ActiveIds(entries) == [] by {
      assert entries[..1] == [Table(a)] && entries[..1][..0] == [];
      assert ActiveIds(entries[..1]) == [];
    }
    assert DependsOn(entries, 0, 1) && DependsOn(entries, 1, 0);
  }

  /** Circles of proposed tasks are not refused. */
  lemma IdleCircleIsSound()
    ensures
      var entries := [Table(Idle("A001", "A002")), Table(Idle("A002", "A001"))];
      Sound(entries, None) && Circle(entries, [0, 1, 0])
  {
    assert ValidId("A001") && ValidId("A002");
    PairIsSound(Idle("A001", "A002"), Idle("A002", "A001"));
  }

  /** Circles of finished tasks are not refused. */
  lemma DoneCircleIsSound()
    ensures
      var entries := [Table(Completed("A001", "A002")), Table(Completed("A002", "A001"))];
      Sound(entries, None) && Circle(entries, [0, 1, 0])
  {
    assert ValidId("A001") && ValidId("A002");
    PairIsSound(Completed("A001", "A002"), Completed("A002", "A001"));
  }

  // ---- The validator ----

  /** The rules that a table breaks on its own. */
  predicate Breaks(task: Task, rule: Rule)
  {
    match rule
    case Id => !ValidId(task.id)
    case StatusRule => task.status.Unrecognised?
    case Approval => Executable(task.status) && !task.approved
    case Description => !task.described
    case Result => task.status.Done? && !task.result
    case Evidence => task.status.Done? && !(task.validated && task.reviewed)
    case Reviews =>
      && task.status.Done?
      && (task.reviewsRequired.None? || task.reviewsCompleted.None?
          || !(task.reviewsRequired.value <= task.reviewsCompleted.value))
    case Dependencies => task.dependencies.None?
    case _ => false
  }

  /** A list that is not readable counts as empty: then a required review is reported twice. */
  lemma ReviewsBroken(task: Task)
    ensures !(Listed(task.reviewsRequired) <= Listed(task.reviewsCompleted)) && task.status.Done? ==> Breaks(task, Reviews)
    ensures Breaks(task, Reviews) ==>
      || task.reviewsRequired.None? || task.reviewsCompleted.None?
      || !(Listed(task.reviewsRequired) <= Listed(task.reviewsCompleted))
  {
  }

  /** The problems are those of the given rules under one id. */
  ghost predicate Tell(problems: seq<Problem>, rules: set<Rule>, id: string)
  {
    && (forall p :: p in problems <==> p.id == id && p.rule in rules)
    && (problems == [] <==> rules == {})
  }

  lemma NothingTold(id: string)
    ensures Tell([], {}, id)
  {
  }

  lemma OneMoreTold(problems: seq<Problem>, rules: set<Rule>, id: string, rule: Rule)
    requires Tell(problems, rules, id)
    ensures Tell(problems + [Problem(rule, id)], rules + {rule}, id)
  {
  }

  /** Add a problem if its rule is broken. */
  method Add(problems: seq<Problem>, ghost rules: set<Rule>, id: string, rule: Rule, broken: bool)
    returns (more: seq<Problem>, ghost moreRules: set<Rule>)
    requires Tell(problems, rules, id)
    ensures moreRules == rules + (if broken then {rule} else {})
    ensures Tell(more, moreRules, id)
  {
    hide Tell;
    more, moreRules := problems, rules;
    if broken {
      OneMoreTold(problems, rules, id, rule);
      more, moreRules := problems + [Problem(rule, id)], rules + {rule};
    }
  }

  /** The checks of a Done task. */
  method CheckDone(task: Task, before: seq<Problem>, ghost rulesBefore: set<Rule>)
    returns (problems: seq<Problem>, ghost rules: set<Rule>)
    requires Tell(before, rulesBefore, task.id)
    ensures Tell(problems, rules, task.id)
    ensures forall rule :: rule in rules <==>
      rule in rulesBefore || (Breaks(task, rule) && (rule.Result? || rule.Evidence? || rule.Reviews?))
  {
    hide Tell;
    problems, rules := before, rulesBefore;
    if task.status.Done? {
      problems, rules := Add(problems, rules, task.id, Result, !task.result);
      problems, rules := Add(problems, rules, task.id, Evidence, !task.validated || !task.reviewed);
      problems, rules := Add(problems, rules, task.id, Reviews, task.reviewsRequired.None? || task.reviewsCompleted.None?);
      problems, rules :=
        Add(problems, rules, task.id, Reviews, !(Listed(task.reviewsRequired) <= Listed(task.reviewsCompleted)));
    }
    ReviewsBroken(task);
  }

  /** The checks of one table: each rule it breaks is reported under its id, and no other. */
  method CheckTask(task: Task) returns (problems: seq<Problem>)
    ensures problems == [] <==> TaskSound(task)
    ensures forall p :: p in problems <==> p.id == task.id && Breaks(task, p.rule)
  {
    hide Tell, ValidId;
    NothingTold(task.id);
    ghost var rules: set<Rule> := {};
    problems := [];
    problems, rules := Add(problems, rules, task.id, Id, |task.id| > MAX_TASK_ID_LENGTH || !ValidId(task.id));
    problems, rules := Add(problems, rules, task.id, StatusRule, task.status.Unrecognised?);
    problems, rules := Add(problems, rules, task.id, Approval, Executable(task.status) && !task.approved);
    problems, rules := Add(problems, rules, task.id, Description, !task.described);
    problems, rules := CheckDone(task, problems, rules);
    problems, rules := Add(problems, rules, task.id, Dependencies, task.dependencies.None?);
    ValidIdIsShort(task.id);
    BrokenMeans(task, problems, rules);
  }

  lemma ValidIdIsShort(id: string)
    ensures ValidId(id) ==> |id| <= MAX_TASK_ID_LENGTH
  {
  }

  lemma BrokenMeans(task: Task, problems: seq<Problem>, rules: set<Rule>)
    requires Tell(problems, rules, task.id)
    requires forall rule :: rule in rules <==>
      || (rule.Id? && !ValidId(task.id)) || (rule.StatusRule? && task.status.Unrecognised?)
      || (rule.Approval? && Executable(task.status) && !task.approved) || (rule.Description? && !task.described)
      || (Breaks(task, rule) && (rule.Result? || rule.Evidence? || rule.Reviews?))
      || (rule.Dependencies? && task.dependencies.None?)
    ensures problems == [] <==> TaskSound(task)
    ensures forall p :: p in problems <==> p.id == task.id && Breaks(task, p.rule)
  {
    hide ValidId;
    forall rule ensures rule in rules <==> Breaks(task, rule) {
      match rule case Policy => case Shape => case Id => case Duplicate => case StatusRule => case Approval =>
        case Description => case Result => case Evidence => case Reviews => case Dependencies => case Active =>
        case SelfDependency => case UnknownDependency => case Order => case Ledger =>
    }
    assert TaskSound(task) <==>
      && !Breaks(task, Id) && !Breaks(task, StatusRule) && !Breaks(task, Approval) && !Breaks(task, Description)
      && !Breaks(task, Result) && !Breaks(task, Evidence) && !Breaks(task, Reviews) && !Breaks(task, Dependencies);
    if rules != {} {
      var rule :| rule in rules;
      assert Breaks(task, rule);
    }
  }

  /** A dependency is another task of the table. */
  predicate Known(byId: map<string, Task>, id: string, dependency: string)
  {
    dependency != id && dependency in byId
  }

  predicate Finished(byId: map<string, Task>, dependency: string)
  {
    dependency in byId ==> byId[dependency].status.Done?
  }

  predicate AllKnown(byId: map<string, Task>, id: string, dependencies: seq<string>)
  {
    forall i :: 0 <= i < |dependencies| ==> Known(byId, id, dependencies[i])
  }

  predicate AllFinished(byId: map<string, Task>, dependencies: seq<string>)
  {
    forall i :: 0 <= i < |dependencies| ==> Finished(byId, dependencies[i])
  }

  /** What one task's dependencies must satisfy in the table of all tasks. */
  predicate LinksSound(byId: map<string, Task>, id: string, task: Task, dependencies: seq<string>)
  {
    AllKnown(byId, id, dependencies) && (Executable(task.status) ==> AllFinished(byId, dependencies))
  }

  /** The rules that one task's dependencies break in the table of all tasks. */
  predicate Tangles(byId: map<string, Task>, id: string, task: Task, dependencies: seq<string>, rule: Rule)
  {
    match rule
    case SelfDependency => id in dependencies
    case UnknownDependency => exists d :: d in dependencies && d != id && d !in byId
    case Order => Executable(task.status) && exists d :: d in dependencies && d in byId && !byId[d].status.Done?
    case _ => false
  }

  /** The checks of one task's dependencies, with exactly the rules they break. */
  method CheckLinks(byId: map<string, Task>, id: string, task: Task, dependencies: seq<string>) returns (problems: seq<Problem>)
    ensures problems == [] <==> LinksSound(byId, id, task, dependencies)
    ensures forall p :: p in problems <==> p.id == id && Tangles(byId, id, task, dependencies, p.rule)
  {
    problems := [];
    for i := 0 to |dependencies|
      invariant problems == [] <==> forall k :: 0 <= k < i ==> Known(byId, id, dependencies[k])
      invariant forall p :: p in problems ==> p.id == id && (p.rule.SelfDependency? || p.rule.UnknownDependency?)
      invariant Problem(SelfDependency, id) in problems <==> id in dependencies[..i]
      invariant Problem(UnknownDependency, id) in problems <==>
        exists d :: d in dependencies[..i] && d != id && d !in byId
    {
      assert dependencies[..i + 1] == dependencies[..i] + [dependencies[i]];
      ghost var before := problems;
      if dependencies[i] == id {
        problems := problems + [Problem(SelfDependency, id)];
      } else if dependencies[i] !in byId {
        problems := problems + [Problem(UnknownDependency, id)];
      }
      if d :| d in dependencies[..i] && d != id && d !in byId {
        assert d in dependencies[..i + 1];
      }
    }
    assert dependencies[..|dependencies|] == dependencies;
    if Executable(task.status) {
      ghost var (first, linked) := (problems, problems == []);
      for i := 0 to |dependencies|
        invariant problems == [] <==> linked && forall k :: 0 <= k < i ==> Finished(byId, dependencies[k])
        invariant forall p :: p in problems <==>
          p in first || (p == Problem(Order, id) && exists d :: d in dependencies[..i] && d in byId && !byId[d].status.Done?)
      {
        assert dependencies[..i + 1] == dependencies[..i] + [dependencies[i]];
        if dependencies[i] in byId {
          if !byId[dependencies[i]].status.Done? {
            problems := problems + [Problem(Order, id)];
          }
        }
      }
    }
  }

  function Ids(entries: seq<Entry>): set<string>
  {
    set i | 0 <= i < |entries| && entries[i].Table? :: entries[i].task.id
  }

  /** The table the first loop builds: later entries of an id replace earlier ones. */
  function ById(entries: seq<Entry>): map<string, Task>
    decreases |entries|
  {
    if entries == [] then map[]
    else
      var n := |entries| - 1;
      if entries[n].Table? then ById(entries[..n])[entries[n].task.id := entries[n].task] else ById(entries[..n])
  }

  lemma {:induction false} ByIdMeans(entries: seq<Entry>)
    ensures ById(entries).Keys == Ids(entries)
    ensures forall id :: id in ById(entries) ==> ById(entries)[id].id == id
    decreases |entries|
  {
    if entries != [] {
      var n := |entries| - 1;
      ByIdMeans(entries[..n]);
      assert entries == entries[..n] + [entries[n]];
    }
  }

  /** With distinct ids, the table holds each entry's own task. */
  lemma {:induction false} ByIdFinds(entries: seq<Entry>, i: nat)
    requires i < |entries| && TasksSound(entries)
    ensures entries[i].task.id in ById(entries) && ById(entries)[entries[i].task.id] == entries[i].task
    decreases |entries|
  {
    var n := |entries| - 1;
    if i < n {
      ByIdFinds(entries[..n], i);
    }
  }

  lemma NoTasks()
    ensures TasksSound([])
  {
  }

  lemma OneMoreTask(entries: seq<Entry>, n: nat)
    requires n < |entries|
    ensures (TasksSound(entries[..n + 1]) <==>
             && TasksSound(entries[..n]) && entries[n].Table?
             && TaskSound(entries[n].task) && entries[n].task.id !in Ids(entries[..n]))
    ensures Ids(entries[..n + 1]) == Ids(entries[..n]) + if entries[n].Table? then {entries[n].task.id} else {}
  {
    var earlier, more := entries[..n], entries[..n + 1];
    assert more == earlier + [entries[n]];
    if TasksSound(earlier) && entries[n].Table? && TaskSound(entries[n].task) && entries[n].task.id !in Ids(earlier) {
      forall i, j | 0 <= i < j < |more| ensures more[i].task.id != more[j].task.id {
        assert more[i] == earlier[i];
        assert earlier[i].task.id in Ids(earlier);
      }
    }
    if TasksSound(more) {
      assert entries[n] == more[n];
      forall i | 0 <= i < n ensures earlier[i].task.id != entries[n].task.id {
        assert more[i] == earlier[i];
      }
    }
  }

  /** Every row of the table links soundly. */
  predicate TableSound(byId: map<string, Task>)
  {
    forall id :: id in byId ==> LinksSound(byId, id, byId[id], DependenciesOf(byId[id]))
  }

  predicate TableListed(byId: map<string, Task>, ledger: Option<set<Row>>)
  {
    ledger.Some? ==> forall id :: id in byId ==> Row(id, byId[id].milestone, byId[id].status) in ledger.value
  }

  /** The table says of the dependencies what the list does. */
  lemma TableMeans(entries: seq<Entry>)
    requires TasksSound(entries)
    ensures TableSound(ById(entries)) <==> DependenciesSound(entries)
  {
    var byId := ById(entries);
    ByIdMeans(entries);
    forall i | 0 <= i < |entries| ensures entries[i].task.id in byId && byId[entries[i].task.id] == entries[i].task {
      ByIdFinds(entries, i);
    }
    if TableSound(byId) {
      forall i, d | 0 <= i < |entries| && d in DependenciesOf(entries[i].task)
        ensures d != entries[i].task.id
        ensures exists j :: 0 <= j < |entries| && entries[j].task.id == d &&
                  (Executable(entries[i].task.status) ==> entries[j].task.status.Done?) {
        var id := entries[i].task.id;
        var k :| 0 <= k < |DependenciesOf(byId[id])| && DependenciesOf(byId[id])[k] == d;
        assert LinksSound(byId, id, byId[id], DependenciesOf(byId[id]));
        assert Known(byId, id, d) && (Executable(byId[id].status) ==> Finished(byId, d));
        var j :| 0 <= j < |entries| && entries[j].task.id == d;
      }
    }
    if DependenciesSound(entries) {
      forall id | id in byId ensures LinksSound(byId, id, byId[id], DependenciesOf(byId[id])) {
        var i :| 0 <= i < |entries| && entries[i].task.id == id;
        forall k | 0 <= k < |DependenciesOf(byId[id])|
          ensures Known(byId, id, DependenciesOf(byId[id])[k])
          ensures Executable(byId[id].status) ==> Finished(byId, DependenciesOf(byId[id])[k]) {
          assert DependenciesOf(byId[id])[k] in DependenciesOf(entries[i].task);
        }
      }
    }
  }

  lemma ListedMeans(entries: seq<Entry>, ledger: Option<set<Row>>)
    requires TasksSound(entries)
    ensures TableListed(ById(entries), ledger) <==> LedgerSound(entries, ledger)
  {
    ByIdMeans(entries);
    forall i | 0 <= i < |entries|
      ensures entries[i].task.id in ById(entries) && ById(entries)[entries[i].task.id] == entries[i].task {
      ByIdFinds(entries, i);
    }
  }

  predicate Shapeless(entries: seq<Entry>)
  {
    exists i :: 0 <= i < |entries| && entries[i].NotTable?
  }

  predicate BrokenBySome(entries: seq<Entry>, p: Problem)
  {
    exists i :: 0 <= i < |entries| && entries[i].Table? && entries[i].task.id == p.id && Breaks(entries[i].task, p.rule)
  }

  predicate TwiceIn(entries: seq<Entry>, id: string)
  {
    exists j :: 0 <= j < |entries| && entries[j].Table? && entries[j].task.id == id && id in Ids(entries[..j])
  }

  /** What the entries on their own give reason to report. */
  predicate FoundAlone(entries: seq<Entry>, p: Problem)
  {
    || (p == Problem(Shape, "") && Shapeless(entries))
    || BrokenBySome(entries, p)
    || (p.rule.Duplicate? && TwiceIn(entries, p.id))
  }

  lemma NothingFound(p: Problem)
    ensures !FoundAlone([], p)
  {
  }

  /** One more entry gives reason for what it breaks itself, and for its id if that is taken. */
  lemma OneMoreFound(entries: seq<Entry>, n: nat, p: Problem)
    requires n < |entries|
    ensures FoundAlone(entries[..n + 1], p) <==>
      || FoundAlone(entries[..n], p)
      || (entries[n].NotTable? && p == Problem(Shape, ""))
      || (entries[n].Table? && p.id == entries[n].task.id && Breaks(entries[n].task, p.rule))
      || (entries[n].Table? && p == Problem(Duplicate, entries[n].task.id) && p.id in Ids(entries[..n]))
  {
    hide Breaks, Ids;
    var earlier, more := entries[..n], entries[..n + 1];
    assert more[..n] == earlier && more[n] == entries[n];
    forall j | 0 <= j < n ensures more[j] == earlier[j] && more[..j] == earlier[..j] {}
    if Shapeless(earlier) {
      var i :| 0 <= i < |earlier| && earlier[i].NotTable?;
      assert more[i].NotTable?;
    }
    if BrokenBySome(earlier, p) {
      var i :| 0 <= i < |earlier| && earlier[i].Table? && earlier[i].task.id == p.id && Breaks(earlier[i].task, p.rule);
      assert more[i] == earlier[i];
    }
    if TwiceIn(earlier, p.id) {
      var j :| 0 <= j < |earlier| && earlier[j].Table? && earlier[j].task.id == p.id && p.id in Ids(earlier[..j]);
      assert more[j] == earlier[j];
    }
  }

  /** The first loop: every entry on its own, and the tables for the second. */
  method CollectTasks(policy: seq<Problem>, entries: seq<Entry>)
    returns (errors: seq<Problem>, active: seq<string>, byId: map<string, Task>)
    ensures errors == [] <==> policy == [] && TasksSound(entries)
    ensures forall p :: p in errors <==> p in policy || FoundAlone(entries, p)
    ensures active == ActiveIds(entries) && byId == ById(entries)
  {
    hide FoundAlone, Breaks, TaskSound, TasksSound;
    forall p ensures !FoundAlone(entries[..0], p) { NothingFound(p); }
    NoTasks();
    var ids: set<string> := {};
    errors, active, byId := policy, [], map[];
    for i := 0 to |entries|
      invariant ids == Ids(entries[..i])
      invariant active == ActiveIds(entries[..i]) && byId == ById(entries[..i])
      invariant errors == [] <==> policy == [] && TasksSound(entries[..i])
      invariant forall p :: p in errors <==> p in policy || FoundAlone(entries[..i], p)
    {
      OneMoreTask(entries, i);
      forall p
        ensures FoundAlone(entries[..i + 1], p) <==>
          || FoundAlone(entries[..i], p)
          || (entries[i].NotTable? && p == Problem(Shape, ""))
          || (entries[i].Table? && p.id == entries[i].task.id && Breaks(entries[i].task, p.rule))
          || (entries[i].Table? && p == Problem(Duplicate, entries[i].task.id) && p.id in Ids(entries[..i])) {
        OneMoreFound(entries, i, p);
      }
      assert entries[..i + 1][..i] == entries[..i];
      match entries[i]
      case NotTable =>
        errors := errors + [Problem(Shape, "")];
      case Table(task) =>
        byId := byId[task.id := task];
        var problems := CheckTask(task);
        errors := errors + problems;
        if task.id in ids {
          errors := errors + [Problem(Duplicate, task.id)];
        }
        ids := ids + {task.id};
        if task.status.InProgress? {
          active := active + [task.id];
        }
    }
    assert entries[..|entries|] == entries;
  }

  /** What a row of the table gives reason to report. */
  predicate FoundLinked(byId: map<string, Task>, p: Problem)
  {
    p.id in byId && Tangles(byId, p.id, byId[p.id], DependenciesOf(byId[p.id]), p.rule)
  }

  method CheckTable(byId: map<string, Task>) returns (errors: seq<Problem>)
    ensures errors == [] <==> TableSound(byId)
    ensures forall p :: p in errors <==> FoundLinked(byId, p)
  {
    hide Tangles, LinksSound;
    errors := [];
    var pending := byId.Keys;
    while pending != {}
      invariant pending <= byId.Keys
      invariant errors == [] <==> forall id :: id in byId && id !in pending ==>
        LinksSound(byId, id, byId[id], DependenciesOf(byId[id]))
      invariant forall p :: p in errors <==> p.id !in pending && FoundLinked(byId, p)
      decreases pending
    {
      var id :| id in pending;
      pending := pending - {id};
      var problems := CheckLinks(byId, id, byId[id], DependenciesOf(byId[id]));
      errors := errors + problems;
    }
  }

  /** A row of the table that the ledger does not repeat. */
  predicate FoundUnlisted(byId: map<string, Task>, ledger: set<Row>, p: Problem)
  {
    p.rule.Ledger? && p.id in byId && Row(p.id, byId[p.id].milestone, byId[p.id].status) !in ledger
  }

  method CheckLedger(byId: map<string, Task>, ledger: set<Row>) returns (errors: seq<Problem>)
    ensures errors == [] <==> TableListed(byId, Some(ledger))
    ensures forall p :: p in errors <==> FoundUnlisted(byId, ledger, p)
  {
    errors := [];
    var pending := byId.Keys;
    while pending != {}
      invariant pending <= byId.Keys
      invariant errors == [] <==> forall id :: id in byId && id !in pending ==>
        Row(id, byId[id].milestone, byId[id].status) in ledger
      invariant forall p :: p in errors <==> p.id !in pending && FoundUnlisted(byId, ledger, p)
      decreases pending
    {
      var id :| id in pending;
      pending := pending - {id};
      if Row(id, byId[id].milestone, byId[id].status) !in ledger {
        errors := errors + [Problem(Ledger, id)];
      }
    }
  }

  /** Everything there is reason to report. */
  predicate Found(policy: seq<Problem>, entries: seq<Entry>, ledger: Option<set<Row>>, p: Problem)
  {
    || p in policy
    || FoundAlone(entries, p)
    || (p == Problem(Active, "") && |ActiveIds(entries)| > 1)
    || FoundLinked(ById(entries), p)
    || (ledger.Some? && FoundUnlisted(ById(entries), ledger.value, p))
  }

  /** Exactly what there is reason to report is reported. No error is reported exactly for a
      sound model under a sound policy, and then the task in progress, if there is one, is
      returned. */
  method ValidateModels(policy: seq<Problem>, entries: seq<Entry>, ledger: Option<set<Row>>)
    returns (errors: seq<Problem>, active: Option<string>)
    ensures errors == [] <==> policy == [] && Sound(entries, ledger)
    ensures forall p :: p in errors <==> Found(policy, entries, ledger, p)
    ensures active.Some? ==> errors == []
    ensures errors == [] ==> (active.Some? <==> exists i :: 0 <= i < |entries| && InProgressAt(entries, i))
    ensures active.Some? ==> exists i :: 0 <= i < |entries| && InProgressAt(entries, i) && entries[i].task.id == active.value
  {
    hide FoundAlone, FoundLinked, FoundUnlisted;
    var activeIds, byId;
    errors, activeIds, byId := CollectTasks(policy, entries);
    if |activeIds| > 1 {
      errors := errors + [Problem(Active, "")];
    }
    var links := CheckTable(byId);
    errors := errors + links;
    if ledger.Some? {
      var rows := CheckLedger(byId, ledger.value);
      errors := errors + rows;
    }
    if TasksSound(entries) {
      TableMeans(entries);
      ListedMeans(entries, ledger);
    }
    ActiveIdsMeans(entries);
    assert activeIds != [] ==> activeIds[0] in ActiveIds(entries);
    active := if |activeIds| == 1 && errors == [] then Some(activeIds[0]) else None;
  }
}
