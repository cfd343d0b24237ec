/** The Lutece portal objects the plugin reads and updates. Their sources
    are not part of this model: a DaemonEntry is reduced to the fields the
    plugin touches, and the result sink (DaemonEntryJobService) to the list
    of results it has been handed. */
module Portal {
  import opened Lang

  /** The run-state fields of a daemon entry. */
  datatype RunStatus = RunStatus(lastRunDate: Option<int>, lastRunEndDate: Option<int>, inProgress: bool)

  class DaemonEntry {
    var id: string
    var cron: Option<string>
    var interval: int
    var lastRunDate: Option<int>
    var lastRunEndDate: Option<int>
    var inProgress: bool

    function Status(): RunStatus
      reads this
    {
      RunStatus(lastRunDate, lastRunEndDate, inProgress)
    }

    constructor (id: string, cron: Option<string>, interval: int)
      ensures this.id == id && this.cron == cron && this.interval == interval
      ensures Status() == RunStatus(None, None, false)
    {
      this.id := id;
      this.cron := cron;
      this.interval := interval;
      lastRunDate := None;
      lastRunEndDate := None;
      inProgress := false;
    }
  }

  /** One textual job result handed to the sink: the daemon key (null for a
      job without one), the time and the text. */
  datatype JobExecutionResult = JobExecutionResult(daemonKey: Option<string>, date: int, result: string)

  class DaemonEntryJobService {
    var received: seq<JobExecutionResult>

    constructor ()
      ensures received == []
    {
      received := [];
    }

    method JobExecuted(r: JobExecutionResult)
      modifies this
      ensures received == old(received) + [r]
    {
      received := received + [r];
    }
  }
}
