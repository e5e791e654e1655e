/**
 What a log tells of the machine that wrote it: the status, the closing, the output and the
 state of every path, each read from the commits alone.
 */
module History {
  import opened Wrappers
  import opened Machine

  /** The status after a log: its last commit that is not a lock decides. */
  function StatusTold(log: seq<LogEntry>): VMStatus {
    if log == [] then InitStatus
    else
      match log[|log| - 1].input.action
      case "close" => ClosedStatus
      case "dispute" => DisputedStatus
      case "resolve" => SpentStatus
      case "spend" => SpentStatus
      case _ => StatusTold(log[..|log| - 1])
  }

  /** The last commit after which the machine was closed or spent. */
  function LastEnding(log: seq<LogEntry>): (last: Option<VMInput>) {
    if log == [] then None
    else if StatusTold(log).ClosedStatus? || StatusTold(log).SpentStatus? then Some(log[|log| - 1].input)
    else LastEnding(log[..|log| - 1])
  }

  /** The state of a path after a log: its last commit on the path decides. */
  function PathTold(log: seq<LogEntry>, name: string, start: PathState): PathState {
    if log == [] then start
    else
      var last := log[|log| - 1].input;
      if last.path != Some(name) then PathTold(log[..|log| - 1], name, start)
      else if last.action == "dispute" then Disputed
      else if last.action == "lock" then Locked
      else Spent
  }

  /** The record is as its log tells: it was closed, at that time and on that path, by the last commit that ended it. */
  ghost predicate Told(start: seq<PathEntry>, d: MachineData) {
    EndsTold(d) && PathsTold(start, d)
  }

  ghost predicate EndsTold(d: MachineData) {
    && d.state.status == StatusTold(d.log)
    && (match LastEnding(d.log)
        case None => !d.closed && d.closedAt == None && d.output == None
        case Some(last) => d.closed && d.closedAt == Some(last.stamp) && d.output == last.path)
    && (d.output.Some? ==> d.log != [] && LastEnding(d.log) == Some(d.log[|d.log| - 1].input))
  }

  ghost predicate PathsTold(start: seq<PathEntry>, d: MachineData) {
    && PathNames(d.state.paths) == PathNames(start)
    && (Distinct(PathNames(start)) ==>
          forall i | 0 <= i < |start| :: d.state.paths[i].state == PathTold(d.log, start[i].name, start[i].state))
  }
}
