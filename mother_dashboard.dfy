/** The mother's own dashboard: the day's task checklist, the medicine
    cabinet with its stock counters, and the history of days on which the
    medicine task was ticked. Dates are day numbers; `today` and new ids are
    passed in. */
module MotherHome {
  import opened Common

  datatype TaskType = Med | General

  datatype Task = Task(id: int, title: string, subtitle: string, completed: bool, kind: TaskType)

  datatype Medicine = Medicine(id: int, name: string, dosage: string, stock: int)

  function InitialTasks(): seq<Task> {
    [ Task(1, "Take iron tablet", "After breakfast", false, Med),
      Task(2, "Log how you're feeling", "Daily Check-in", false, General),
      Task(3, "Drink Water", "2 Liters goal", false, General) ]
  }

  function InitialMedicines(): seq<Medicine> {
    [ Medicine(1, "Iron & Folic Acid", "1 Tablet daily", 30),
      Medicine(2, "Calcium", "1 Tablet after lunch", 15) ]
  }

  ghost predicate DistinctTaskIds(tasks: seq<Task>) {
    forall i, j :: 0 <= i < j < |tasks| ==> tasks[i].id != tasks[j].id
  }

  ghost predicate NoDuplicates(days: seq<int>) {
    forall i, j :: 0 <= i < j < |days| ==> days[i] != days[j]
  }

  /** `tasks.find(t => t.id === id)`: the index of the first task with that id. */
  function FindTask(tasks: seq<Task>, id: int): (r: Option<nat>)
    ensures r.Some? ==> r.value < |tasks| && tasks[r.value].id == id
    ensures r.Some? ==> forall j :: 0 <= j < r.value ==> tasks[j].id != id
    ensures r.None? <==> forall j :: 0 <= j < |tasks| ==> tasks[j].id != id
  {
    if tasks == [] then None
    else if tasks[0].id == id then Some(0)
    else match FindTask(tasks[1..], id)
      case None => None
      case Some(k) => Some(k + 1)
  }

  /** The tasks ticked off. */
  function Completed(tasks: seq<Task>): (r: seq<Task>)
    ensures |r| <= |tasks|
    ensures forall i :: 0 <= i < |r| ==> r[i] in tasks && r[i].completed
    ensures forall i :: 0 <= i < |tasks| && tasks[i].completed ==> tasks[i] in r
  {
    Filter(tasks, (t: Task) => t.completed)
  }

  /** `completedCount`: never more than the number of tasks. */
  function CompletedCount(tasks: seq<Task>): (r: nat)
    ensures r <= |tasks|
    ensures r == |tasks| <==> forall i :: 0 <= i < |tasks| ==> tasks[i].completed
  {
    CompletedAll(tasks);
    |Completed(tasks)|
  }

  lemma {:induction false} CompletedAll(tasks: seq<Task>)
    ensures |Completed(tasks)| == |tasks| <==> forall i :: 0 <= i < |tasks| ==> tasks[i].completed
  {
    if tasks != [] {
      CompletedAll(tasks[1..]);
      assert Completed(tasks) == (if tasks[0].completed then [tasks[0]] else []) + Completed(tasks[1..]);
      if !tasks[0].completed {
        assert |Completed(tasks)| < |tasks|;
      } else if |Completed(tasks)| != |tasks| {
        var k :| 0 <= k < |tasks[1..]| && !tasks[1..][k].completed;
        assert !tasks[k + 1].completed;
      }
    }
  }

  /** The `map` of `toggleTask`: every task with that id gets `completed`
      set to `value`; the others are untouched. */
  function SetCompleted(tasks: seq<Task>, id: int, value: bool): (r: seq<Task>)
    ensures |r| == |tasks|
    ensures forall i :: 0 <= i < |tasks| ==>
      r[i] == if tasks[i].id == id then tasks[i].(completed := value) else tasks[i]
  {
    if tasks == [] then []
    else [if tasks[0].id == id then tasks[0].(completed := value) else tasks[0]]
         + SetCompleted(tasks[1..], id, value)
  }

  lemma CompletedUnfold(tasks: seq<Task>)
    requires tasks != []
    ensures |Completed(tasks)| == (if tasks[0].completed then 1 else 0) + |Completed(tasks[1..])|
  {
  }

  /** With distinct ids, ticking or unticking one task moves the completed
      count by exactly one in the matching direction. */
  lemma {:induction false} ToggleMovesCount(tasks: seq<Task>, k: nat)
    requires DistinctTaskIds(tasks) && k < |tasks|
    ensures var after := SetCompleted(tasks, tasks[k].id, !tasks[k].completed);
      if tasks[k].completed then |Completed(after)| + 1 == |Completed(tasks)|
      else |Completed(after)| == |Completed(tasks)| + 1
  {
    var id, v := tasks[k].id, !tasks[k].completed;
    var after := SetCompleted(tasks, id, v);
    var rest := tasks[1..];
    assert after[1..] == SetCompleted(rest, id, v);
    CompletedUnfold(after);
    CompletedUnfold(tasks);
    if k == 0 {
      assert SetCompleted(rest, id, v) == rest by {
        forall i | 0 <= i < |rest| ensures rest[i].id != id {
          assert rest[i] == tasks[i + 1];
        }
      }
    } else {
      assert DistinctTaskIds(rest) by {
        forall i, j | 0 <= i < j < |rest| ensures rest[i].id != rest[j].id {
          assert rest[i] == tasks[i + 1] && rest[j] == tasks[j + 1];
        }
      }
      assert rest[k - 1] == tasks[k];
      ToggleMovesCount(rest, k - 1);
    }
  }

  /** The `map` of the "Take 1" button: the medicines with that id lose one
      unit of stock, with no lower bound. */
  function TakeOne(medicines: seq<Medicine>, id: int): (r: seq<Medicine>)
    ensures |r| == |medicines|
    ensures forall i :: 0 <= i < |medicines| ==>
      r[i] == if medicines[i].id == id then medicines[i].(stock := medicines[i].stock - 1) else medicines[i]
  {
    if medicines == [] then []
    else [if medicines[0].id == id then medicines[0].(stock := medicines[0].stock - 1) else medicines[0]]
         + TakeOne(medicines[1..], id)
  }

  /** Nothing stops the counter at zero: taking from an empty pack leaves a
      negative stock. */
  lemma TakeOneGoesNegative()
    ensures TakeOne([Medicine(7, "Calcium", "As prescribed", 0)], 7)[0].stock == -1
  {
  }

  class MotherDashboardPage {
    var tasks: seq<Task>
    var medicines: seq<Medicine>
    var medHistory: seq<int>
    var showConfetti: bool

    ghost predicate Valid()
      reads this
    {
      DistinctTaskIds(tasks) && NoDuplicates(medHistory)
    }

    constructor ()
      ensures Valid()
      ensures tasks == InitialTasks() && medicines == InitialMedicines()
      ensures medHistory == [] && !showConfetti
    {
      tasks := InitialTasks();
      medicines := InitialMedicines();
      medHistory := [];
      showConfetti := false;
    }

    /** `toggleTask`: the first task with that id decides the new state,
        which every task with that id takes. Ticking a medicine task records
        today, once, and starts the confetti; unticking, or ticking a general
        task, leaves the history alone. An unknown id changes nothing. */
    method ToggleTask(id: int, today: int)
      requires Valid()
      modifies this
      ensures Valid()
      ensures medicines == old(medicines)
      ensures FindTask(old(tasks), id).None? ==>
        tasks == old(tasks) && medHistory == old(medHistory) && showConfetti == old(showConfetti)
      ensures FindTask(old(tasks), id).Some? ==>
        var task := old(tasks)[FindTask(old(tasks), id).value];
        && tasks == SetCompleted(old(tasks), id, !task.completed)
        && (task.kind == Med && !task.completed ==>
              showConfetti && today in medHistory &&
              medHistory == if today in old(medHistory) then old(medHistory) else old(medHistory) + [today])
        && (task.kind == General || task.completed ==>
              medHistory == old(medHistory) && showConfetti == old(showConfetti))
    {
      var found := FindTask(tasks, id);
      if found.None? {
        return;
      }
      var task := tasks[found.value];
      var isNowCompleted := !task.completed;
      tasks := SetCompleted(tasks, id, isNowCompleted);
      if task.kind == Med && isNowCompleted {
        if today !in medHistory {
          medHistory := medHistory + [today];
        }
        showConfetti := true;
      }
    }

    /** `addMedicine`: `name` is what the prompt returned (None when it was
        dismissed); an empty name adds nothing. */
    method AddMedicine(name: Option<string>, id: int)
      requires Valid()
      modifies this
      ensures Valid()
      ensures tasks == old(tasks) && medHistory == old(medHistory)
      ensures name.None? || name.value == "" ==> medicines == old(medicines)
      ensures name.Some? && name.value != "" ==>
        medicines == old(medicines) + [Medicine(id, name.value, "As prescribed", 10)]
    {
      if name.Some? && name.value != "" {
        medicines := medicines + [Medicine(id, name.value, "As prescribed", 10)];
      }
    }

    method TakeOneButton(id: int)
      requires Valid()
      modifies this
      ensures Valid()
      ensures medicines == TakeOne(old(medicines), id)
      ensures tasks == old(tasks) && medHistory == old(medHistory)
    {
      medicines := TakeOne(medicines, id);
    }
  }
}
