/** What every step of the downloads keeps. */
module DownloadInvariant {
  import opened Wrappers
  import opened DownloadProgress
  import opened DownloadProtocol

  /** The map holds the one entry of a key that is not over: started with a live task, or
      not started at all. */
  ghost predicate Registered(s: State) {
    && (forall key :: key in s.downloads ==> s.downloads[key] in s.entries && s.entries[s.downloads[key]].key == key)
    && (forall e :: e in s.entries ==> EntryFits(s, e))
  }

  predicate EntryFits(s: State, e: EntryId)
    requires e in s.entries
  {
    var x := s.entries[e];
    && (x.started <==> !x.task.Idle?)
    && (!x.task.Finished? ==> x.key in s.downloads && s.downloads[x.key] == e)
    && (x.task.Finished? && x.key in s.downloads ==> s.downloads[x.key] != e)
    && (x.extract || x.task.Extracting? ==> x.key in s.extracted)
  }

  /** Somebody is about to start an entry that is not started. */
  ghost predicate Starters(s: State) {
    forall e :: e in s.entries && !s.entries[e].started ==> exists r :: Starts(s, r, e)
  }

  predicate Starts(s: State, r: RequestId, e: EntryId) {
    r in s.requests && s.requests[r].entry == e && (s.requests[r].phase.Holding? || s.requests[r].phase.Subscribed?)
  }

  /** The broadcast log reports what was read, and ends with the failure if there is one. */
  ghost predicate Logs(s: State) {
    forall e :: e in s.entries ==> LogFits(s.entries[e])
  }

  predicate LogFits(x: Entry) {
    && Ascending(x.log)
    && FailureFits(x)
    && (Failed(x.log) ==> x.task.Closing? || x.task.Finished?)
    && (x.task.Idle? || x.task.Checking? || x.task.Connecting? ==> x.log == [])
    && (x.task.Fetching? ==> Fetches(x.task.fetch) && Tracks(x.task.fetch, x.log) && (x.log != [] ==>
         x.log[|x.log| - 1].Progress? && x.log[|x.log| - 1].size <= x.task.fetch.bytes))
  }

  /** A download that has failed is about to say so, or has said so. */
  predicate FailureFits(x: Entry) {
    && (x.failure.Some? <==> x.task.Failing? || Failed(x.log))
    && (x.task.Failing? ==> x.failure == Some(x.task.reason))
    && (Failed(x.log) ==> x.failure == Some(x.log[|x.log| - 1].reason))
  }

  predicate Failed(log: seq<Message>) {
    log != [] && log[|log| - 1].Failure?
  }

  /** Sizes never fall, and only the last message can be a failure. */
  predicate Ascending(log: seq<Message>) {
    && (forall i :: 0 <= i < |log| - 1 ==> log[i].Progress?)
    && (forall i, j :: 0 <= i < j < |log| && log[i].Progress? && log[j].Progress? ==> log[i].size <= log[j].size)
  }

  predicate Fetches(f: Fetch) {
    && f.taken <= |f.response|
    && f.content == Content(f.response[..f.taken])
    && f.bytes == WireBytes(f.response[..f.taken])
  }

  function Sizes(log: seq<Message>): (sizes: seq<nat>)
    ensures |sizes| == |log|
  {
    if log == [] then [] else
    var last := log[|log| - 1];
    Sizes(log[..|log| - 1]) + [if last.Progress? then last.size else 0]
  }

  /** The log is exactly what the read loop reports for the part read so far. */
  predicate Tracks(f: Fetch, log: seq<Message>) {
    && f.taken <= |f.response|
    && Sizes(log) == Reports(f.response[..f.taken], ProgressStep(f.total))
    && f.threshold == if log == [] then 0 else Sizes(log)[|log| - 1] + ProgressStep(f.total)
  }

  ghost predicate Streams(s: State) {
    forall r :: r in s.requests ==>
        s.requests[r].entry in s.entries && StreamFits(s.requests[r], s.entries[s.requests[r].entry])
  }

  /** The lines are the messages heard, in order and none twice, and in the end one line
      more if the channel closed without a failure. */
  predicate StreamFits(x: Request, entry: Entry) {
    && x.start <= x.position <= |entry.log|
    && (x.phase.Holding? || x.phase.Subscribed? || x.phase.Exchanged? ==> x.lines == [] && x.heard == [])
    && (x.phase.Exchanged? || x.phase.Streaming? ==> entry.started)
    && Heard(x.heard, x.start, x.position)
    && (!x.phase.Ended? && Failed(entry.log) && x.start < |entry.log| ==> x.position < |entry.log|)
    && (if x.phase.Ended? then EndsRight(x, entry)
        else |x.lines| == |x.heard| && Repeats(x.lines, x.heard, entry.log) && NoFailure(x.heard, entry.log))
  }

  predicate Heard(heard: seq<nat>, start: nat, position: nat) {
    && (forall i :: 0 <= i < |heard| ==> start <= heard[i] < position)
    && (forall i, j :: 0 <= i < j < |heard| ==> heard[i] < heard[j])
  }

  predicate Repeats(lines: seq<Line>, heard: seq<nat>, log: seq<Message>) {
    forall i :: 0 <= i < |heard| && i < |lines| ==> heard[i] < |log| && lines[i] == LineOf(log[heard[i]])
  }

  predicate NoFailure(heard: seq<nat>, log: seq<Message>) {
    forall i :: 0 <= i < |heard| ==> heard[i] < |log| && log[heard[i]].Progress?
  }

  /** A failure broadcast after the subscription is the last thing heard; otherwise the
      stream ends with a line of its own. */
  predicate EndsRight(x: Request, entry: Entry) {
    && (entry.task.Closing? || entry.task.Finished?)
    && x.position == |entry.log|
    && Repeats(x.lines, x.heard, entry.log)
    && if Failed(entry.log) && x.start < |entry.log| then
         |x.lines| == |x.heard| > 0 && x.heard[|x.heard| - 1] == |entry.log| - 1
             && NoFailure(x.heard[..|x.heard| - 1], entry.log)
       else
         |x.lines| == |x.heard| + 1 && (x.lines[|x.heard|] == DoneLine || x.lines[|x.heard|] == ErrorLine(None))
             && NoFailure(x.heard, entry.log)
  }

  /** A key that was never asked for with extraction holds nothing or a whole download. */
  ghost predicate Files(s: State) {
    forall key :: key in s.files && key !in s.extracted ==> Complete(s.files[key])
  }

  /** A done line means that the file is there. */
  ghost predicate DoneHasFile(s: State) {
    forall r :: r in s.requests && DoneLine in s.requests[r].lines ==>
      s.requests[r].entry in s.entries && s.entries[s.requests[r].entry].key in s.files
  }

  ghost predicate Extractions(s: State) {
    forall r :: r in s.requests && s.requests[r].extract ==>
      s.requests[r].entry in s.entries && s.entries[s.requests[r].entry].key in s.extracted
  }

  ghost predicate Inv(s: State) {
    Registered(s) && Starters(s) && Logs(s) && Streams(s) && Files(s) && DoneHasFile(s) && Extractions(s)
  }

  lemma InitHolds(s: State)
    requires Initial(s)
    ensures Inv(s)
  {
  }
}
