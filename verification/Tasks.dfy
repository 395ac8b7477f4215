/** Tasks as far as queues are concerned: an identity, and the pushes its body makes. */
module Tasks {
  import opened Tally

  datatype Task = Task(id: nat, pushes: seq<Push>)
  datatype Push = Push(queue: nat, task: Task)

  /** The bodies a task stands for, its own included. */
  function Weight(task: Task): nat
    decreases task, |task.pushes| + 1
  {
    1 + PushesWeight(task, |task.pushes|)
  }

  /** Those of the first `k` pushes of its body. */
  function PushesWeight(task: Task, k: nat): nat
    requires k <= |task.pushes|
    decreases task, k
  {
    if k == 0 then 0 else PushesWeight(task, k - 1) + Weight(task.pushes[k - 1].task)
  }

  /** Every push made by the task or by those it pushes goes to one of `n` queues. */
  predicate Fits(task: Task, n: nat) {
    forall i | 0 <= i < |task.pushes| :: task.pushes[i].queue < n && Fits(task.pushes[i].task, n)
  }

  function WeightOf(): Task -> nat { (task: Task) => Weight(task) }

  function ListWeight(): seq<Task> -> nat { (tasks: seq<Task>) => Sum(tasks, WeightOf()) }
}
