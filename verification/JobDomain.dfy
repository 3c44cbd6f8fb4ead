/** domain/job.go: the statuses of a job and the predicates over them. */
module JobDomain {
  import opened Wrappers

  datatype Status =
    | PENDING | RUNNING | COMPLETED | FAILED | STOPPED
    | SCHEDULED | INITIALIZING | CANCELED | STOPPING | TIMEOUT

  predicate IsRunning(st: Status) { st == RUNNING }

  predicate IsScheduled(st: Status) { st == SCHEDULED }

  class Job {
    const Uuid: string
    const NodeId: string
    var Status: Status
    var ScheduledTime: Option<int>

    constructor (uuid: string, nodeId: string, status: Status, scheduledTime: Option<int>)
      ensures Uuid == uuid && NodeId == nodeId && Status == status && ScheduledTime == scheduledTime
    {
      Uuid, NodeId := uuid, nodeId;
      Status, ScheduledTime := status, scheduledTime;
    }
  }
}
