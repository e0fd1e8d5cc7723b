/** The UI command that queues a celebration for a village. */
module Celebration {

  import opened Engine

  /** `CelebrationPlan`: a job of the village's build queue. */
  datatype Job = CelebrationPlan(great: bool)

  /** What the handler shows or publishes, in order. */
  datatype Event =
    | MessageBox(title: string, text: string)
    | JobAdded(villageId: VillageId, job: Job)
    | JobUpdated(accountId: AccountId, villageId: VillageId)

  /** `CelebrationCommand`: the account, the village and the input's
      "great celebration" choice. */
  datatype CelebrationCommand = CelebrationCommand(accountId: AccountId, villageId: VillageId, great: bool)

  const PauseWarning := MessageBox("Warning", "Please pause account before modifing building queue")

  /** The build queue of every village, in job order. */
  function JobsOf(jobs: map<VillageId, seq<Job>>, villageId: VillageId): seq<Job> {
    if villageId in jobs then jobs[villageId] else []
  }

  class CelebrationCommandHandler {
    const taskManager: TaskManager
    var jobs: map<VillageId, seq<Job>>
    var events: seq<Event>

    constructor (taskManager: TaskManager, jobs: map<VillageId, seq<Job>>)
      ensures this.taskManager == taskManager && this.jobs == jobs && events == []
    {
      this.taskManager := taskManager;
      this.jobs := jobs;
      events := [];
    }

    /** `JobRepository.Add`: the job joins the end of the village's queue. */
    method AddJob(villageId: VillageId, job: Job)
      modifies this
      ensures jobs == old(jobs)[villageId := JobsOf(old(jobs), villageId) + [job]]
      ensures events == old(events) + [JobAdded(villageId, job)]
    {
      jobs := jobs[villageId := JobsOf(jobs, villageId) + [job]];
      events := events + [JobAdded(villageId, job)];
    }

    /** `Handle`: refused with a warning while the account is online;
        under any other status exactly one celebration plan joins the
        village's queue and `JobUpdated` is published after it. */
    method Handle(request: CelebrationCommand)
      requires taskManager.Registered(request.accountId)
      modifies this
      ensures taskManager.GetStatus(request.accountId) == Online ==>
                jobs == old(jobs) && events == old(events) + [PauseWarning]
      ensures taskManager.GetStatus(request.accountId) != Online ==>
                && jobs == old(jobs)[request.villageId := JobsOf(old(jobs), request.villageId) + [CelebrationPlan(request.great)]]
                && events == old(events) + [JobAdded(request.villageId, CelebrationPlan(request.great)),
                                            JobUpdated(request.accountId, request.villageId)]
    {
      var accountId := request.accountId;
      var status := taskManager.GetStatus(accountId);
      if status == Online {
        events := events + [PauseWarning];
        return;
      }
      var plan := CelebrationPlan(request.great);
      var villageId := request.villageId;
      AddJob(villageId, plan);
      events := events + [JobUpdated(accountId, villageId)];
    }
  }
}
