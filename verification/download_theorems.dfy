/** What downloads guarantee in every reachable state. */
module DownloadTheorems {
  import opened Wrappers
  import opened DownloadProgress
  import opened DownloadProtocol
  import opened DownloadInvariant
  import opened DownloadSteps

  // ---------------------------------------------------------------- the invariant over runs

  lemma StepKeeps(s: State, a: Action)
    requires Inv(s) && Can(s, a)
    ensures Inv(Next(s, a))
  {
    hide RequestCan, TaskCan, RequestNext, TaskNext, Registered, Starters, Logs, Streams, Files, DoneHasFile,
      Extractions;
    if RequestCan(s, a) {
      RequestKeepsRegistered(s, a);
      RequestKeepsStarters(s, a);
      RequestKeepsLogs(s, a);
      RequestKeepsStreams(s, a);
      RequestKeepsFiles(s, a);
      RequestKeepsDoneHasFile(s, a);
      RequestKeepsExtractions(s, a);
    } else {
      TaskKeepsRegistered(s, a);
      TaskKeepsStarters(s, a);
      TaskKeepsLogs(s, a);
      TaskKeepsStreams(s, a);
      TaskKeepsFiles(s, a);
      TaskKeepsDoneHasFile(s, a);
      TaskKeepsExtractions(s, a);
    }
  }

  lemma {:induction false} RunKeeps(s: State, actions: seq<Action>)
    requires Inv(s) && IsRun(s, actions)
    ensures Inv(Run(s, actions))
    decreases |actions|
  {
    hide Can, Next, Inv;
    if actions != [] {
      StepKeeps(s, actions[0]);
      RunKeeps(Next(s, actions[0]), actions[1..]);
    }
  }

  lemma ReachableHolds(s: State)
    requires Reachable(s)
    ensures Inv(s)
  {
    hide Inv, Initial, IsRun, Run;
    var start, actions :| Initial(start) && IsRun(start, actions) && Run(start, actions) == s;
    InitHolds(start);
    RunKeeps(start, actions);
  }

  // ---------------------------------------------------------------- one download at a time

  /** Two tasks for one key are never live together. */
  lemma OneDownloadPerKey(s: State, d: EntryId, e: EntryId)
    requires Reachable(s) && d in s.entries && e in s.entries && s.entries[d].key == s.entries[e].key
    requires Live(s.entries[d].task) && Live(s.entries[e].task)
    ensures d == e
  {
    hide Reachable;
    ReachableHolds(s);
    hide Starters, Logs, Streams, Files, DoneHasFile, Extractions;
    assert EntryFits(s, d) && EntryFits(s, e);
  }

  // ---------------------------------------------------------------- streams

  predicate Rising(lines: seq<Line>) {
    && (forall i :: 0 <= i < |lines| ==> lines[i].ProgressLine?)
    && (forall i, j :: 0 <= i < j < |lines| ==> lines[i].size <= lines[j].size)
  }

  /** Every stream is progress of non-decreasing size; one that has ended has exactly one
      done or error line, and that line is its last. */
  lemma StreamsAreWellFormed(s: State, r: RequestId)
    requires Reachable(s) && r in s.requests
    ensures var x := s.requests[r];
            if x.phase.Ended? then x.lines != [] && Rising(x.lines[..|x.lines| - 1])
                && !x.lines[|x.lines| - 1].ProgressLine?
            else Rising(x.lines)
  {
    hide Reachable;
    ReachableHolds(s);
    hide Registered, Starters, Files, DoneHasFile, Extractions;
    var x := s.requests[r];
    LinesRise(x, s.entries[x.entry]);
  }

  lemma LinesRise(x: Request, entry: Entry)
    requires StreamFits(x, entry) && LogFits(entry)
    ensures if x.phase.Ended? then x.lines != [] && Rising(x.lines[..|x.lines| - 1])
            && !x.lines[|x.lines| - 1].ProgressLine?
            else Rising(x.lines)
  {
    hide Fetches, Tracks;
    if x.phase.Ended? {
      var n := |x.lines| - 1;
      HeardRise(x.heard[..n], x.lines[..n], entry.log);
    } else {
      HeardRise(x.heard, x.lines, entry.log);
    }
  }

  lemma HeardRise(heard: seq<nat>, lines: seq<Line>, log: seq<Message>)
    requires |lines| == |heard| && Repeats(lines, heard, log) && NoFailure(heard, log) && Ascending(log)
    requires forall i, j :: 0 <= i < j < |heard| ==> heard[i] < heard[j]
    ensures Rising(lines)
  {
    forall i | 0 <= i < |lines| ensures lines[i].ProgressLine? && lines[i].size == log[heard[i]].size {
    }
  }

  /** If the download failed and the error was broadcast after the subscription, it is the
      last line of every stream that ends, however far that lagged; in no other case does a
      stream end with an error of the download. */
  lemma FailureReachesSubscribers(s: State, r: RequestId)
    requires Reachable(s) && PhaseAt(s, r).Ended?
    ensures s.requests[r].entry in s.entries && s.requests[r].lines != []
    ensures var x := s.requests[r];
            var entry, last := s.entries[x.entry], x.lines[|x.lines| - 1];
            if entry.failure.Some? && x.start < |entry.log| then last == ErrorLine(entry.failure)
            else last == DoneLine || last == ErrorLine(None)
  {
    hide Reachable;
    ReachableHolds(s);
    hide Registered, Starters, Files, DoneHasFile, Extractions, Fetches, Tracks, Ascending;
    var x := s.requests[r];
    assert StreamFits(x, s.entries[x.entry]) && LogFits(s.entries[x.entry]);
  }

  /** A running download has broadcast what the read loop reports for the part read so far. */
  lemma BroadcastsTheReports(s: State, e: EntryId)
    requires Reachable(s) && TaskAt(s, e).Fetching?
    ensures var f := TaskAt(s, e).fetch;
            f.taken <= |f.response| && Sizes(s.entries[e].log) == Reports(f.response[..f.taken], ProgressStep(f.total))
  {
    hide Reachable;
    ReachableHolds(s);
    hide Registered, Starters, Streams, Files, DoneHasFile, Extractions;
    assert LogFits(s.entries[e]);
  }

  // ---------------------------------------------------------------- files

  predicate Asks(s: State, r: RequestId, key: Key)
    requires r in s.requests
  {
    s.requests[r].entry in s.entries && s.entries[s.requests[r].entry].key == key
  }

  /** Without extraction the final path is absent or holds the complete body, whatever
      failed on the way; and a done line means it is there. */
  lemma PlainFilesAreComplete(s: State, key: Key)
    requires Reachable(s) && key !in s.extracted
    ensures key in s.files ==> s.files[key].Whole? && s.files[key].content == Content(s.files[key].response)
    ensures forall r :: r in s.requests && Asks(s, r, key) && DoneLine in s.requests[r].lines ==> key in s.files
  {
    hide Reachable;
    ReachableHolds(s);
    hide Registered, Starters, Logs, Streams, Extractions;
  }

  // ---------------------------------------------------------------- nobody hangs

  /** What can happen next for the entry: a step of its task, or of a handler that holds it. */
  predicate Moves(s: State, e: EntryId, a: Action) {
    || (TaskCan(s, a) && a.e == e)
    || (RequestCan(s, a) && (a.Subscribe? || a.Exchange? || a.Return?) && s.requests[a.r].entry == e)
  }

  /** A stream that can neither receive nor close waits for a task or a handler that can
      move: an entry is never left without anybody to finish it. */
  lemma NoSubscriberHangs(s: State, r: RequestId)
    requires Reachable(s) && PhaseAt(s, r).Streaming?
    requires !RequestCan(s, Receive(r)) && !RequestCan(s, Close(r))
    ensures exists a :: Moves(s, s.requests[r].entry, a)
  {
    hide Reachable;
    ReachableHolds(s);
    hide Files, DoneHasFile, Extractions, Starters, Registered;
    var x := s.requests[r];
    var e := x.entry;
    assert StreamFits(x, s.entries[e]);
    assert x.position == |s.entries[e].log| && !SendersGone(s, e);
    hide Streams, StreamFits, Logs;
    SomebodyMoves(s, e);
  }

  lemma SomebodyMoves(s: State, e: EntryId)
    requires Registered(s) && Starters(s) && e in s.entries && s.entries[e].started && !SendersGone(s, e)
    requires Logs(s)
    ensures exists a :: Moves(s, e, a)
  {
    hide Starters;
    var task := s.entries[e].task;
    assert EntryFits(s, e);
    if Live(task) {
      var a := TaskMove(s, e);
    } else {
      assert task.Finished?;
      assert forall key :: key in s.downloads ==> s.downloads[key] != e;
      var r :| r in s.requests && s.requests[r].entry == e && Holds(s.requests[r]);
      var a := HandlerMove(s, r);
    }
  }

  lemma TaskMove(s: State, e: EntryId) returns (a: Action)
    requires e in s.entries && Live(s.entries[e].task) && LogFits(s.entries[e])
    ensures Moves(s, e, a)
  {
    var task := s.entries[e].task;
    a := match task
      case Checking => Check(e)
      case Connecting => Fail(e, 0)
      case Fetching(f) => if f.taken < |f.response| then Read(e) else if s.entries[e].extract then Unpack(e)
          else Rename(e)
      case Extracting => Unpacked(e)
      case Placed => Succeed(e)
      case Failing(_) => Report(e)
      case _ => Remove(e);
  }

  lemma HandlerMove(s: State, r: RequestId) returns (a: Action)
    requires r in s.requests && s.requests[r].entry in s.entries && Holds(s.requests[r])
    ensures Moves(s, s.requests[r].entry, a)
  {
    a := match s.requests[r].phase
      case Holding => Subscribe(r)
      case Subscribed => Exchange(r)
      case _ => Return(r);
  }

  // ---------------------------------------------------------------- extraction

  /** Archives are written in place: here extraction fails half way, and a later request is
      told that it is done. */
  lemma PartialExtractionReportedDone() returns (s: State)
    ensures Reachable(s) && 0 in s.files && s.files[0] == Partial
    ensures 1 in s.requests && s.requests[1].entry in s.entries && s.entries[s.requests[1].entry].key == 0
    ensures s.requests[1].lines == [DoneLine]
  {
    hide Reachable, IsRun, Run, SendersGone;
    s := BrokenExtraction();
    s := Follow(s, Arrive(1, 0, false, 1));
    s := Follow(s, Subscribe(1));
    s := Follow(s, Exchange(1));
    s := Follow(s, Return(1));
    s := Follow(s, Remove(0));
    NobodyLeft(s);
    s := Follow(s, Close(1));
  }

  lemma NobodyLeft(s: State)
    requires s.downloads == map[] && TaskAt(s, 0).Finished?
    requires forall r :: r in s.requests ==> s.requests[r].phase.Streaming?
    ensures SendersGone(s, 0)
  {
  }

  lemma BrokenExtraction() returns (s: State)
    ensures Reachable(s) && s.files == map[0 := Partial] && s.downloads == map[0 := 0]
    ensures s.entries == map[0 := Entry(0, true, true, [Failure(5)], Closing, Some(5))]
    ensures s.requests == map[0 := Request(0, true, Streaming, 0, 0, [], [])]
  {
    hide Reachable, IsRun, Run, SendersGone;
    s := Started();
    s := Follow(s, Connect(0, 0, []));
    s := Follow(s, Unpack(0));
    s := Follow(s, Spill(0));
    s := Follow(s, Fail(0, 5));
    assert s.entries[0] == Entry(0, true, true, [], Failing(5), Some(5));
    s := Follow(s, Report(0));
    assert s.entries[0] == Entry(0, true, true, [Failure(5)], Closing, Some(5));
  }

  lemma Started() returns (s: State)
    ensures Reachable(s) && s.files == map[] && s.downloads == map[0 := 0]
    ensures s.entries == map[0 := Entry(0, true, true, [], Connecting, None)]
    ensures s.requests == map[0 := Request(0, true, Streaming, 0, 0, [], [])]
  {
    hide Reachable, IsRun, Run, SendersGone;
    s := Start();
    s := Follow(s, Arrive(0, 0, true, 0));
    s := Follow(s, Subscribe(0));
    s := Follow(s, Exchange(0));
    s := Follow(s, Return(0));
    s := Follow(s, Check(0));
  }

  lemma Start() returns (s: State)
    ensures Reachable(s) && s == State(map[], map[], map[], map[], {})
  {
    s := State(map[], map[], map[], map[], {});
    assert Initial(s) && IsRun(s, []) && Run(s, []) == s;
  }

  lemma Follow(s: State, a: Action) returns (s': State)
    requires Reachable(s) && Can(s, a)
    ensures s' == Next(s, a) && Reachable(s')
  {
    hide Can, Next, Initial;
    s' := Next(s, a);
    var start, actions :| Initial(start) && IsRun(start, actions) && Run(start, actions) == s;
    Extend(start, actions, a);
  }

  lemma {:induction false} Extend(s: State, actions: seq<Action>, a: Action)
    requires IsRun(s, actions) && Can(Run(s, actions), a)
    ensures IsRun(s, actions + [a]) && Run(s, actions + [a]) == Next(Run(s, actions), a)
    decreases |actions|
  {
    hide Can, Next;
    if actions == [] {
      assert [a][1..] == [] && [] + [a] == [a];
    } else {
      Extend(Next(s, actions[0]), actions[1..], a);
      assert (actions + [a])[1..] == actions[1..] + [a];
    }
  }
}
