/** Every step of the downloads keeps the invariant. */
module DownloadSteps {
  import opened Wrappers
  import opened DownloadProgress
  import opened DownloadProtocol
  import opened DownloadInvariant

  // ---------------------------------------------------------------- what steps can change

  /** A step of a request leaves files alone and changes entries only by adding or starting
      one. */
  lemma RequestEffect(s: State, a: Action) returns (r: RequestId)
    requires RequestCan(s, a)
    ensures var s' := RequestNext(s, a);
            && s'.files == s.files
            && s.extracted <= s'.extracted
            && r in s'.requests && s'.requests == s.requests[r := s'.requests[r]]
            && (r in s.requests ==>
                 s'.requests[r].entry == s.requests[r].entry && s'.requests[r].extract == s.requests[r].extract)
            && (Still(s, s', r) || Adds(s, s', r) || Launches(s, s', r))
  {
    hide SendersGone;
    r := a.r;
  }

  ghost predicate Still(s: State, s': State, r: RequestId) {
    && s'.entries == s.entries && s'.downloads == s.downloads
    && r in s'.requests
    && (forall e :: e in s.entries && !s.entries[e].started && Starts(s, r, e) ==> Starts(s', r, e))
    && (r !in s.requests ==> s'.requests[r].entry in s.downloads.Values && s'.requests[r].phase.Holding?
                             && exists key ::
                                  && key in s.downloads && s'.requests[r].entry == s.downloads[key]
                                  && (s'.requests[r].extract ==> key in s'.extracted))
  }

  ghost predicate Adds(s: State, s': State, r: RequestId) {
    && r in s'.requests && r !in s.requests
    && var x := s'.requests[r];
       x.entry !in s.entries && x.entry in s'.entries && x.phase.Holding?
       && var entry := s'.entries[x.entry];
          && !entry.started && entry.task.Idle? && !entry.extract && entry.log == [] && entry.failure.None?
          && entry.key !in s.downloads
          && s'.entries == s.entries[x.entry := entry]
          && s'.downloads == s.downloads[entry.key := x.entry]
          && (x.extract ==> entry.key in s'.extracted)
  }

  ghost predicate Launches(s: State, s': State, r: RequestId) {
    && r in s.requests && s'.downloads == s.downloads
    && s.requests[r].entry in s.entries
    && var x := s.requests[r];
       && !s.entries[x.entry].started
       && s'.entries == s.entries[x.entry := s.entries[x.entry].(started := true, extract := x.extract,
            task := Checking)]
  }

  /** A step of a task leaves requests alone; it keeps its entry's identity and extends its
      log, and it may write the file of its key. */
  lemma TaskEffect(s: State, a: Action) returns (e: EntryId)
    requires TaskCan(s, a)
    ensures var s' := TaskNext(s, a);
            && s'.requests == s.requests && s'.extracted == s.extracted
            && e in s.entries && e in s'.entries && s'.entries == s.entries[e := s'.entries[e]]
            && Live(s.entries[e].task) && !s'.entries[e].task.Idle?
            && s'.entries[e] == s.entries[e].(log := s'.entries[e].log, task := s'.entries[e].task,
                 failure := s'.entries[e].failure)
            && s.entries[e].log <= s'.entries[e].log
            && (s.entries[e].log != s'.entries[e].log ==> !s.entries[e].task.Closing?)
            && (s'.entries[e].task.Extracting? ==> s.entries[e].extract || s.entries[e].task.Extracting?)
            && (s.entries[e].task.Closing? ==> s'.entries[e].task.Finished?)
            && (if s'.entries[e].task.Finished? then s'.downloads == s.downloads - {s.entries[e].key}
                 else s'.downloads == s.downloads)
            && (s'.files == s.files || Writes(s, s', e))
  {
    hide Advance;
    e := a.e;
  }

  ghost predicate Writes(s: State, s': State, e: EntryId) {
    && e in s.entries
    && var key := s.entries[e].key;
       && key in s'.files && s'.files == s.files[key := s'.files[key]]
       && (s.entries[e].extract || s.entries[e].task.Extracting?
           || (Fetched(s.entries[e].task) && s'.files[key]
               == Whole(s.entries[e].task.fetch.response, s.entries[e].task.fetch.content)))
  }

  // ---------------------------------------------------------------- steps of requests

  lemma RequestKeepsRegistered(s: State, a: Action)
    requires RequestCan(s, a) && Registered(s) && Extractions(s)
    ensures Registered(RequestNext(s, a))
  {
    hide RequestCan, RequestNext;
    var r := RequestEffect(s, a);
    var s' := RequestNext(s, a);
    forall e | e in s'.entries ensures EntryFits(s', e) {
      assert e in s.entries ==> EntryFits(s, e);
    }
  }

  lemma RequestKeepsStarters(s: State, a: Action)
    requires RequestCan(s, a) && Registered(s) && Starters(s)
    ensures Starters(RequestNext(s, a))
  {
    hide RequestCan, RequestNext;
    var r := RequestEffect(s, a);
    var s' := RequestNext(s, a);
    forall e | e in s'.entries && !s'.entries[e].started ensures exists g :: Starts(s', g, e) {
      if e in s.entries {
        var g :| Starts(s, g, e);
        assert Starts(s', g, e);
      } else {
        assert Starts(s', r, e);
      }
    }
  }

  lemma RequestKeepsLogs(s: State, a: Action)
    requires RequestCan(s, a) && Registered(s) && Logs(s)
    ensures Logs(RequestNext(s, a))
  {
    hide RequestCan, RequestNext;
    var r := RequestEffect(s, a);
  }

  lemma RequestKeepsFiles(s: State, a: Action)
    requires RequestCan(s, a) && Files(s)
    ensures Files(RequestNext(s, a))
  {
    hide RequestCan, RequestNext;
    var r := RequestEffect(s, a);
  }

  lemma RequestKeepsExtractions(s: State, a: Action)
    requires RequestCan(s, a) && Extractions(s) && Registered(s)
    ensures Extractions(RequestNext(s, a))
  {
    hide RequestCan, RequestNext;
    var r := RequestEffect(s, a);
  }

  lemma ReceiveFits(x: Request, entry: Entry)
    requires StreamFits(x, entry) && LogFits(entry) && x.phase.Streaming? && x.position < |entry.log|
    ensures var message := entry.log[x.position];
            StreamFits(x.(position := x.position + 1, heard := x.heard + [x.position],
                lines := x.lines + [LineOf(message)],
                          phase := if message.Failure? then Ended else Streaming), entry)
  {
    hide Fetches, Tracks;
    var heard := x.heard + [x.position];
    assert heard[..|heard| - 1] == x.heard;
    assert entry.log[x.position].Failure? ==> x.position == |entry.log| - 1;
  }

  lemma CloseFits(x: Request, entry: Entry, line: Line)
    requires StreamFits(x, entry) && x.phase.Streaming? && x.position == |entry.log|
    requires entry.task.Closing? || entry.task.Finished?
    requires line == DoneLine || line == ErrorLine(None)
    ensures StreamFits(x.(lines := x.lines + [line], phase := Ended), entry)
  {
  }

  /** Moving on without hearing anything: subscribing, starting, returning, lagging. */
  lemma UnheardFits(x: Request, x': Request, entry: Entry, entry': Entry)
    requires StreamFits(x, entry) && entry'.log == entry.log && !x.phase.Ended? && !x'.phase.Ended?
    requires x'.lines == x.lines && x'.heard == x.heard
    requires Holds(x') ==> Holds(x)
    requires x'.phase.Exchanged? || x'.phase.Streaming? ==> entry'.started
    requires if x.phase.Holding? then x'.start == x'.position == |entry.log|
             else x'.start == x.start && (x'.position == x.position || x.position < x'.position < |entry.log|)
    ensures StreamFits(x', entry')
  {
  }

  lemma NewFits(x: Request, entry: Entry)
    requires x.phase.Holding? && x.lines == [] && x.heard == [] && x.start == x.position == 0
    ensures StreamFits(x, entry)
  {
  }

  /** What the stream of the acting request has heard and sent stays in step. */
  lemma ActorStreamFits(s: State, a: Action) returns (r: RequestId)
    requires RequestCan(s, a) && Registered(s) && Logs(s) && Streams(s)
    ensures var s' := RequestNext(s, a);
            && r in s'.requests && s'.requests == s.requests[r := s'.requests[r]]
            && s'.requests[r].entry in s'.entries
            && StreamFits(s'.requests[r], s'.entries[s'.requests[r].entry])
  {
    hide SendersGone, StreamFits, LogFits, LineOf;
    r := a.r;
    var s' := RequestNext(s, a);
    var x' := s'.requests[r];
    if a.Arrive? {
      NewFits(x', s'.entries[x'.entry]);
    } else {
      var x := s.requests[r];
      var entry := s.entries[x.entry];
      assert EntryFits(s, x.entry);
      HasStarted(x, entry);
      if a.Receive? {
        ReceiveFits(x, entry);
      } else if a.Close? {
        SendersGoneTask(s, x.entry);
        CloseFits(x, entry, if entry.key in s.files then DoneLine else ErrorLine(None));
      } else {
        UnheardFits(x, x', entry, s'.entries[x.entry]);
      }
    }
  }

  lemma HasStarted(x: Request, entry: Entry)
    requires StreamFits(x, entry)
    ensures x.phase.Exchanged? || x.phase.Streaming? ==> entry.started
  {
  }

  lemma SendersGoneTask(s: State, e: EntryId)
    requires SendersGone(s, e)
    ensures TaskAt(s, e).Closing? || TaskAt(s, e).Finished? || TaskAt(s, e).Idle?
  {
  }

  lemma RequestKeepsStreams(s: State, a: Action)
    requires RequestCan(s, a) && Registered(s) && Logs(s) && Streams(s)
    ensures Streams(RequestNext(s, a))
  {
    hide RequestCan, RequestNext, Ascending, Heard, Repeats, NoFailure;
    var r := RequestEffect(s, a);
    var r' := ActorStreamFits(s, a);
    var s' := RequestNext(s, a);
    forall g | g in s'.requests && g != r
      ensures s'.requests[g].entry in s'.entries && StreamFits(s'.requests[g], s'.entries[s'.requests[g].entry])
    {
      var x := s.requests[g];
      assert s'.requests[g] == x && StreamFits(x, s.entries[x.entry]) && EntryFits(s, x.entry)
          && LogFits(s.entries[x.entry]);
    }
  }

  /** Only the closing of the channel, with the file there, writes a done line. */
  lemma ActorDone(s: State, a: Action) returns (r: RequestId)
    requires RequestCan(s, a)
    ensures var s' := RequestNext(s, a);
            && r in s'.requests && s'.requests == s.requests[r := s'.requests[r]]
            && (DoneLine in s'.requests[r].lines ==>
                  && r in s.requests
                  && (DoneLine in s.requests[r].lines
                      || (s.requests[r].entry in s.entries && s.entries[s.requests[r].entry].key in s.files)))
  {
    hide SendersGone;
    r := a.r;
  }

  lemma RequestKeepsDoneHasFile(s: State, a: Action)
    requires RequestCan(s, a) && DoneHasFile(s)
    ensures DoneHasFile(RequestNext(s, a))
  {
    hide RequestCan, RequestNext;
    var r := RequestEffect(s, a);
    var r' := ActorDone(s, a);
  }

  // ---------------------------------------------------------------- steps of tasks

  lemma TaskKeepsRegistered(s: State, a: Action)
    requires TaskCan(s, a) && Registered(s)
    ensures Registered(TaskNext(s, a))
  {
    hide TaskCan, TaskNext;
    var e := TaskEffect(s, a);
    var s' := TaskNext(s, a);
    forall d | d in s'.entries ensures EntryFits(s', d) {
      assert EntryFits(s, d) && EntryFits(s, e);
    }
  }

  lemma TaskKeepsStarters(s: State, a: Action)
    requires TaskCan(s, a) && Starters(s) && Registered(s)
    ensures Starters(TaskNext(s, a))
  {
    hide TaskCan, TaskNext;
    var e := TaskEffect(s, a);
    var s' := TaskNext(s, a);
    forall d | d in s'.entries && !s'.entries[d].started ensures exists g :: Starts(s', g, d) {
      var g :| Starts(s, g, d);
      assert Starts(s', g, d);
    }
  }

  lemma TaskKeepsFiles(s: State, a: Action)
    requires TaskCan(s, a) && Files(s) && Registered(s) && Logs(s)
    ensures Files(TaskNext(s, a))
  {
    hide TaskCan, TaskNext;
    var e := TaskEffect(s, a);
    assert EntryFits(s, e) && LogFits(s.entries[e]);
    if Fetched(s.entries[e].task) {
      var f := s.entries[e].task.fetch;
      assert f.response[..f.taken] == f.response;
    }
  }

  lemma TaskKeepsDoneHasFile(s: State, a: Action)
    requires TaskCan(s, a) && DoneHasFile(s)
    ensures DoneHasFile(TaskNext(s, a))
  {
    hide TaskCan, TaskNext;
    var e := TaskEffect(s, a);
  }

  lemma TaskKeepsExtractions(s: State, a: Action)
    requires TaskCan(s, a) && Extractions(s)
    ensures Extractions(TaskNext(s, a))
  {
    hide TaskCan, TaskNext;
    var e := TaskEffect(s, a);
  }

  lemma AdvanceFits(f: Fetch)
    requires Fetches(f) && f.taken < |f.response|
    ensures Fetches(Advance(f)) && Advance(f).bytes >= f.bytes
  {
    var taken := f.response[..f.taken + 1];
    assert taken[..f.taken] == f.response[..f.taken];
  }

  lemma AdvanceTracks(f: Fetch, log: seq<Message>, log': seq<Message>)
    requires Tracks(f, log) && Fetches(f) && f.taken < |f.response|
    requires if Advance(f).bytes >= f.threshold
             then exists total :: log' == log + [Progress(Advance(f).bytes, total)] else log' == log
    ensures Tracks(Advance(f), log')
  {
    hide ProgressStep, Content;
    var taken := f.response[..f.taken + 1];
    assert taken[..f.taken] == f.response[..f.taken];
    if log' != log {
      assert log'[..|log|] == log;
    }
  }

  lemma Append(log: seq<Message>, message: Message)
    requires Ascending(log) && !Failed(log)
    requires message.Progress? && log != [] ==> log[|log| - 1].size <= message.size
    ensures Ascending(log + [message])
  {
  }

  lemma ReadFits(x: Entry, x': Entry)
    requires LogFits(x) && x.task.Fetching? && x.task.fetch.taken < |x.task.fetch.response|
    requires var f' := Advance(x.task.fetch);
             && x'.task == Fetching(f') && x'.failure == x.failure
             && (if f'.bytes >= x.task.fetch.threshold
                  then exists total :: x'.log == x.log + [Progress(f'.bytes, total)] else x'.log == x.log)
    ensures LogFits(x')
  {
    hide Fetches, Ascending, ProgressStep, Tracks, Advance;
    AdvanceFits(x.task.fetch);
    AdvanceTracks(x.task.fetch, x.log, x'.log);
    if x'.log != x.log {
      var total :| x'.log == x.log + [Progress(Advance(x.task.fetch).bytes, total)];
      Append(x.log, Progress(Advance(x.task.fetch).bytes, total));
    }
  }

  lemma ActorReadFits(s: State, e: EntryId)
    requires TaskCan(s, Read(e)) && LogFits(s.entries[e])
    ensures LogFits(TaskNext(s, Read(e)).entries[e])
  {
    hide LogFits, Advance, ProgressStep;
    ReadFits(s.entries[e], TaskNext(s, Read(e)).entries[e]);
  }

  lemma ActorLogFits(s: State, a: Action)
    requires TaskCan(s, a) && !a.Read? && LogFits(s.entries[a.e])
    ensures LogFits(TaskNext(s, a).entries[a.e])
  {
    hide Fetches, Ascending, Advance, Tracks;
    match a
    case Connect(_, total, response) =>
      StartFits(total, response);
    case Report(e) =>
      Append(s.entries[e].log, Failure(s.entries[e].task.reason));
    case _ =>
  }

  lemma TaskKeepsLogs(s: State, a: Action)
    requires TaskCan(s, a) && Logs(s)
    ensures Logs(TaskNext(s, a))
  {
    hide LogFits, Advance;
    var e := a.e;
    assert TaskNext(s, a).entries == s.entries[e := TaskNext(s, a).entries[e]];
    if a.Read? {
      ActorReadFits(s, e);
    } else {
      ActorLogFits(s, a);
    }
  }

  lemma StartFits(total: nat, response: seq<Chunk>)
    ensures Fetches(Fetch(total, response, 0, [], 0, 0)) && Tracks(Fetch(total, response, 0, [], 0, 0), [])
  {
  }

  /** A longer log of a task that is still going does not disturb a stream. */
  lemma StreamKeeps(x: Request, entry: Entry, entry': Entry)
    requires StreamFits(x, entry) && LogFits(entry)
    requires entry.log <= entry'.log && entry'.started == entry.started
    requires entry.log != entry'.log ==> !entry.task.Closing? && !entry.task.Finished?
    requires entry.task.Closing? || entry.task.Finished? ==> entry'.task.Finished?
    ensures StreamFits(x, entry')
  {
  }

  lemma TaskKeepsStreams(s: State, a: Action)
    requires TaskCan(s, a) && Logs(s) && Streams(s)
    ensures Streams(TaskNext(s, a))
  {
    hide TaskCan, TaskNext, StreamFits, LogFits;
    var e := TaskEffect(s, a);
    forall r | r in s.requests && s.requests[r].entry == e
      ensures StreamFits(s.requests[r], TaskNext(s, a).entries[e])
    {
      StreamKeeps(s.requests[r], s.entries[e], TaskNext(s, a).entries[e]);
    }
  }
}
