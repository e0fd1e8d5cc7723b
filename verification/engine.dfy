/** The parts of the task manager the core calls into. The manager itself
    (its queues and execution loop) is not part of this model: only the
    operations the core invokes are given here, on a per-account list of
    tasks and a per-account status. */
module Engine {

  import opened Wrappers

  type AccountId = int
  type VillageId = int

  datatype Status = Offline | Starting | Online | Paused

  /** The concrete task classes the core names; `Other` stands for the rest. */
  datatype TaskType = InstantUpgrade | UpdateBuilding | TrainTroop | Login | Other(name: string)

  /** A queued task, compared by value. */
  datatype Task = Task(taskType: TaskType, accountId: AccountId, villageId: Option<VillageId>)

  /** `s` with every occurrence of `t` taken out, the order of the rest kept. */
  function Without(s: seq<Task>, t: Task): (r: seq<Task>)
    ensures t !in r
    ensures forall x :: x in r <==> x in s && x != t
  {
    if s == [] then []
    else if s[0] == t then Without(s[1..], t)
    else [s[0]] + Without(s[1..], t)
  }

  class TaskManager {
    var lists: map<AccountId, seq<Task>>
    var status: map<AccountId, Status>

    constructor ()
      ensures lists == map[] && status == map[]
    {
      lists := map[];
      status := map[];
    }

    predicate Registered(accountId: AccountId)
      reads this
    {
      accountId in lists && accountId in status
    }

    /** `GetList(accountId)`: the account's queued tasks. */
    function GetList(accountId: AccountId): seq<Task>
      reads this
      requires Registered(accountId)
    {
      lists[accountId]
    }

    /** `GetStatus(accountId)` */
    function GetStatus(accountId: AccountId): Status
      reads this
      requires Registered(accountId)
    {
      status[accountId]
    }

    /** `Add(accountId, task)`: the task joins the account's list. Where the
        manager places it is not shown; here it goes last. */
    method Add(accountId: AccountId, t: Task)
      requires Registered(accountId)
      modifies this
      ensures lists == old(lists)[accountId := old(lists[accountId]) + [t]]
      ensures status == old(status)
    {
      lists := lists[accountId := lists[accountId] + [t]];
    }

    /** `Remove(accountId, task)`: the task leaves the account's list. */
    method Remove(accountId: AccountId, t: Task)
      requires Registered(accountId)
      modifies this
      ensures lists == old(lists)[accountId := Without(old(lists[accountId]), t)]
      ensures status == old(status)
    {
      lists := lists[accountId := Without(lists[accountId], t)];
    }
  }
}
