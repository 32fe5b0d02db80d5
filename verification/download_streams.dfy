/** What a client reads of its download: which sizes and totals the lines of a stream carry, and
    how it ends (tidewave-core/src/http_handlers.rs, `download_handler` and `perform_download`). */
module DownloadStreams {
  import opened Wrappers
  import opened DownloadProgress
  import opened DownloadProtocol
  import opened DownloadInvariant
  import opened DownloadSteps
  import opened DownloadTheorems

  // ---------------------------------------------------------------- what servers answered

  /** The answer of a server: the total it announced (zero if none) and the reads of its body. */
  datatype Answer = Answer(total: nat, response: seq<Chunk>)

  /** The answers to the connections made in these actions, by entry. */
  function Answers(earlier: map<EntryId, Answer>, actions: seq<Action>): map<EntryId, Answer>
    decreases |actions|
  {
    if actions == [] then earlier
    else if actions[0].Connect? then
      Answers(earlier[actions[0].e := Answer(actions[0].total, actions[0].response)], actions[1..])
    else Answers(earlier, actions[1..])
  }

  lemma {:induction false} AnswersAreGiven(earlier: map<EntryId, Answer>, actions: seq<Action>, e: EntryId)
    requires e in Answers(earlier, actions)
    ensures (e in earlier && Answers(earlier, actions)[e] == earlier[e])
            || Connect(e, Answers(earlier, actions)[e].total, Answers(earlier, actions)[e].response) in actions
    decreases |actions|
  {
    if actions != [] {
      var a := actions[0];
      AnswersAreGiven(if a.Connect? then earlier[a.e := Answer(a.total, a.response)] else earlier, actions[1..], e);
    }
  }

  // ---------------------------------------------------------------- sizes of an answer

  function Sized(answer: Answer): seq<nat> {
    Reports(answer.response, ProgressStep(answer.total))
  }

  /** What has been reported is not reported differently later. */
  lemma {:induction false} ReportsExtend(chunks: seq<Chunk>, step: nat, n: nat)
    requires n <= |chunks|
    ensures Reports(chunks[..n], step) <= Reports(chunks, step)
    decreases |chunks|
  {
    if n < |chunks| {
      var front := chunks[..|chunks| - 1];
      assert front[..n] == chunks[..n];
      ReportsExtend(front, step, n);
    } else {
      assert chunks[..n] == chunks;
    }
  }

  /** The total is given exactly if a positive one was announced. */
  predicate RightTotal(total: Option<nat>, announced: nat) {
    (total.Some? <==> announced > 0) && (total.Some? ==> total.value == announced)
  }

  predicate RightMessage(message: Message, answer: Answer, i: nat) {
    && message.Progress? && i < |Sized(answer)|
    && message.size == Sized(answer)[i] && RightTotal(message.total, answer.total)
  }

  /** How much of the log is progress. */
  function ProgressPart(log: seq<Message>): nat {
    if Failed(log) then |log| - 1 else |log|
  }

  /** The progress in the log is that of the answer from the beginning. */
  ghost predicate Tells(x: Entry, e: EntryId, answers: map<EntryId, Answer>) {
    && (x.task.Idle? || x.task.Checking? || x.task.Connecting? ==> e !in answers)
    && (x.task.Fetching? ==> e in answers && answers[e] == Answer(x.task.fetch.total, x.task.fetch.response))
    && (e !in answers ==> ProgressPart(x.log) == 0)
    && (e in answers ==> forall i :: 0 <= i < ProgressPart(x.log) ==> RightMessage(x.log[i], answers[e], i))
  }

  ghost predicate AllTell(s: State, answers: map<EntryId, Answer>) {
    && (forall e :: e in answers ==> e in s.entries)
    && (forall e :: e in s.entries ==> Tells(s.entries[e], e, answers))
  }

  lemma RequestTells(s: State, a: Action, answers: map<EntryId, Answer>)
    requires Inv(s) && RequestCan(s, a) && AllTell(s, answers)
    ensures AllTell(RequestNext(s, a), answers) && !a.Connect?
  {
    hide SendersGone, RightMessage, LogFits, Starters, Streams, Files, DoneHasFile, Extractions, Logs;
    forall e | e in RequestNext(s, a).entries ensures Tells(RequestNext(s, a).entries[e], e, answers) {
      if e in s.entries {
        assert EntryFits(s, e) && Tells(s.entries[e], e, answers);
      }
    }
  }

  function Answered(answers: map<EntryId, Answer>, a: Action): map<EntryId, Answer> {
    if a.Connect? then answers[a.e := Answer(a.total, a.response)] else answers
  }

  predicate OfTask(a: Action) {
    a.Check? || a.Connect? || a.Read? || a.Rename? || a.Unpack? || a.Spill? || a.Unpacked? || a.Succeed? || a.Fail?
    || a.Report? || a.Remove?
  }

  lemma TaskActs(s: State, a: Action)
    requires TaskCan(s, a)
    ensures OfTask(a)
  {
  }

  lemma TaskTells(s: State, a: Action, answers: map<EntryId, Answer>)
    requires Inv(s) && TaskCan(s, a) && Inv(TaskNext(s, a)) && AllTell(s, answers)
    ensures AllTell(TaskNext(s, a), Answered(answers, a))
  {
    hide TaskCan, TaskNext, RightMessage, LogFits, Registered, Starters, Streams, Files, DoneHasFile, Extractions;
    TaskActs(s, a);
    var e, s' := a.e, TaskNext(s, a);
    OnlyActor(s, a);
    assert Tells(s.entries[e], e, answers) && LogFits(s.entries[e]) && LogFits(s'.entries[e]);
    if a.Read? {
      ReadChanges(s, e);
      ReadTells(s.entries[e], s'.entries[e], e, answers);
    } else {
      OtherChanges(s, a);
      OtherTells(s.entries[e], s'.entries[e], e, answers, a);
    }
    forall d | d in s'.entries && d != e ensures Tells(s'.entries[d], d, Answered(answers, a)) {
      assert Tells(s.entries[d], d, answers);
    }
  }

  lemma OnlyActor(s: State, a: Action)
    requires TaskCan(s, a)
    ensures a.e in s.entries && a.e in TaskNext(s, a).entries
    ensures TaskNext(s, a).entries == s.entries[a.e := TaskNext(s, a).entries[a.e]]
  {
    hide Advance;
  }

  lemma ReadChanges(s: State, e: EntryId)
    requires TaskCan(s, Read(e))
    ensures var x, x' := s.entries[e], TaskNext(s, Read(e)).entries[e];
            && x.task.Fetching? && x'.task.Fetching? && x.log <= x'.log && |x'.log| <= |x.log| + 1
            && x'.task.fetch.response == x.task.fetch.response && x'.task.fetch.total == x.task.fetch.total
            && (|x'.log| > |x.log| ==>
                  x'.log[|x.log|].Progress? && RightTotal(x'.log[|x.log|].total, x.task.fetch.total))
  {
    hide ProgressStep;
  }

  lemma OtherChanges(s: State, a: Action)
    requires TaskCan(s, a) && !a.Read? && (LogFits(s.entries[a.e]))
    ensures var x, x' := s.entries[a.e], TaskNext(s, a).entries[a.e];
            && !x.task.Idle? && (x'.log == x.log || Extended(x, x'))
            && if a.Connect? then
                 x.task.Connecting? && x'.task == Fetching(Fetch(a.total, a.response, 0, [], 0, 0)) && x'.log == x.log
               else !x'.task.Idle? && !x'.task.Fetching? && !x'.task.Checking?
                    && (x'.task.Connecting? ==> x.task.Checking?)
  {
    hide Advance, Fetches, Tracks, Ascending;
  }

  lemma OtherTells(x: Entry, x': Entry, e: EntryId, answers: map<EntryId, Answer>, a: Action)
    requires Tells(x, e, answers) && LogFits(x) && LogFits(x') && !x.task.Idle?
    requires x'.log == x.log || Extended(x, x')
    requires if a.Connect? then
               a.e == e && x.task.Connecting? && x'.task == Fetching(Fetch(a.total, a.response, 0, [], 0, 0))
                   && x'.log == x.log
             else !x'.task.Idle? && !x'.task.Fetching? && !x'.task.Checking?
                  && (x'.task.Connecting? ==> x.task.Checking?)
    ensures Tells(x', e, Answered(answers, a))
  {
    hide RightMessage, Fetches, Tracks;
  }

  predicate Extended(x: Entry, x': Entry) {
    |x'.log| == |x.log| + 1 && x'.log[..|x.log|] == x.log && x'.log[|x.log|].Failure? && !Failed(x.log)
  }

  lemma ReadTells(x: Entry, x': Entry, e: EntryId, answers: map<EntryId, Answer>)
    requires Tells(x, e, answers) && LogFits(x) && LogFits(x')
    requires x.task.Fetching? && x'.task.Fetching? && x.log <= x'.log && |x'.log| <= |x.log| + 1
    requires x'.task.fetch.response == x.task.fetch.response && x'.task.fetch.total == x.task.fetch.total
    requires |x'.log| > |x.log| ==>
               x'.log[|x.log|].Progress? && RightTotal(x'.log[|x.log|].total, x.task.fetch.total)
    ensures Tells(x', e, answers)
  {
    hide Fetches, Ascending, RightTotal;
    var f := x'.task.fetch;
    ReportsExtend(f.response, ProgressStep(f.total), f.taken);
    forall i | 0 <= i < |x'.log| ensures x'.log[i].Progress? ==> x'.log[i].size == Sizes(x'.log)[i] {
      SizesAt(x'.log, i);
    }
    forall i | 0 <= i < ProgressPart(x'.log) ensures RightMessage(x'.log[i], answers[e], i) {
      assert i < |x.log| ==> RightMessage(x.log[i], answers[e], i) && x'.log[i] == x.log[i];
    }
  }

  lemma {:induction false} SizesAt(log: seq<Message>, i: nat)
    requires i < |log| && log[i].Progress?
    ensures Sizes(log)[i] == log[i].size
  {
    if i < |log| - 1 {
      var front := log[..|log| - 1];
      SizesAt(front, i);
    }
  }

  lemma {:induction false} TellOverRun(s: State, actions: seq<Action>, answers: map<EntryId, Answer>)
    requires Inv(s) && IsRun(s, actions) && AllTell(s, answers)
    ensures AllTell(Run(s, actions), Answers(answers, actions))
    decreases |actions|
  {
    hide Inv, RequestCan, RequestNext, TaskCan, TaskNext, AllTell;
    if actions != [] {
      StepKeeps(s, actions[0]);
      if RequestCan(s, actions[0]) {
        RequestTells(s, actions[0], answers);
      } else {
        TaskTells(s, actions[0], answers);
      }
      TellOverRun(Next(s, actions[0]), actions[1..], Answered(answers, actions[0]));
    }
  }

  // ---------------------------------------------------------------- lines

  /** The progress lines of a stream: all but the one that ends it. */
  function ProgressLines(x: Request): seq<Line> {
    if x.phase.Ended? && x.lines != [] then x.lines[..|x.lines| - 1] else x.lines
  }

  predicate RightLine(line: Line, answer: Answer, i: nat) {
    && line.ProgressLine? && i < |Sized(answer)|
    && line.size == Sized(answer)[i] && RightTotal(line.total, answer.total)
  }

  /** The lines are reports of the answer, in order and none twice, none from before `start`. */
  predicate Among(lines: seq<Line>, answer: Answer, reports: seq<nat>, start: nat) {
    && |reports| == |lines|
    && (forall i :: 0 <= i < |reports| ==> start <= reports[i] && RightLine(lines[i], answer, reports[i]))
    && (forall i, j :: 0 <= i < j < |reports| ==> reports[i] < reports[j])
  }

  /** From the start of any run: the progress lines of a stream are reports of what the server
      of its download answered, with the total it announced, if any. */
  lemma LinesAreReports(start: State, actions: seq<Action>, r: RequestId) returns (reports: seq<nat>)
    requires Initial(start) && IsRun(start, actions) && r in Run(start, actions).requests
    ensures var x, answers := Run(start, actions).requests[r], Answers(map[], actions);
            ProgressLines(x) != [] ==>
              && x.entry in answers
              && Connect(x.entry, answers[x.entry].total, answers[x.entry].response) in actions
              && Among(ProgressLines(x), answers[x.entry], reports, x.start)
    ensures reports <= Run(start, actions).requests[r].heard
    ensures |reports| == |ProgressLines(Run(start, actions).requests[r])|
  {
    hide Inv, AllTell, IsRun, Run, Among, Answers;
    InitHolds(start);
    NothingTold(start);
    RunKeeps(start, actions);
    TellOverRun(start, actions, map[]);
    var s, answers := Run(start, actions), Answers(map[], actions);
    var x := s.requests[r];
    StreamOf(s, r);
    TellsOf(s, x.entry, answers);
    reports := x.heard[..|ProgressLines(x)|];
    if ProgressLines(x) != [] {
      LinesTell(x, s.entries[x.entry], answers);
      AnswersAreGiven(map[], actions, x.entry);
    }
  }

  lemma NothingTold(s: State)
    requires Initial(s)
    ensures AllTell(s, map[])
  {
  }

  lemma StreamOf(s: State, r: RequestId)
    requires Inv(s) && r in s.requests
    ensures var x := s.requests[r];
            x.entry in s.entries && StreamFits(x, s.entries[x.entry]) && LogFits(s.entries[x.entry])
    ensures |ProgressLines(s.requests[r])| <= |s.requests[r].heard|
  {
    hide Registered, Starters, Files, DoneHasFile, Extractions;
  }

  lemma TellsOf(s: State, e: EntryId, answers: map<EntryId, Answer>)
    requires AllTell(s, answers) && e in s.entries
    ensures Tells(s.entries[e], e, answers)
  {
  }

  lemma LinesTell(x: Request, entry: Entry, answers: map<EntryId, Answer>)
    requires StreamFits(x, entry) && LogFits(entry) && Tells(entry, x.entry, answers) && ProgressLines(x) != []
    requires |ProgressLines(x)| <= |x.heard|
    ensures x.entry in answers
    ensures Among(ProgressLines(x), answers[x.entry], x.heard[..|ProgressLines(x)|], x.start)
  {
    hide Fetches, Tracks, RightTotal, Sized;
    var lines, log := ProgressLines(x), entry.log;
    forall i | 0 <= i < |lines| ensures x.heard[i] < ProgressPart(log) && lines[i] == LineOf(log[x.heard[i]]) {
      assert log[x.heard[i]].Progress?;
    }
    assert 0 <= x.heard[0] < ProgressPart(log);
    forall i | 0 <= i < |lines| ensures RightLine(lines[i], answers[x.entry], x.heard[i]) {
      assert RightMessage(log[x.heard[i]], answers[x.entry], x.heard[i]);
    }
  }

  // ---------------------------------------------------------------- streams that never lag

  /** It has heard everything from its subscription up to its position. */
  predicate HeardAll(x: Request) {
    && x.start <= x.position && |x.heard| == x.position - x.start
    && forall i :: 0 <= i < |x.heard| ==> x.heard[i] == x.start + i
  }

  predicate EndsInFailure(x: Request) {
    x.phase.Ended? && x.lines != [] && var last := x.lines[|x.lines| - 1]; last.ErrorLine? && last.reason.Some?
  }

  predicate Lags(a: Action, r: RequestId) {
    a.Lag? && a.r == r
  }

  lemma HeardAllStep(s: State, a: Action, r: RequestId)
    requires Can(s, a) && !Lags(a, r) && (r in s.requests ==> HeardAll(s.requests[r]))
    requires r in s.requests && s.requests[r].phase.Holding? ==> s.requests[r].heard == []
    ensures r in Next(s, a).requests ==> HeardAll(Next(s, a).requests[r])
  {
    hide RequestCan, RequestNext, TaskCan, TaskNext, HeardAll, Lags;
    if RequestCan(s, a) { RequestHearsAll(s, a, r); } else { FilesStay(s, a); }
  }

  lemma RequestHearsAll(s: State, a: Action, r: RequestId)
    requires RequestCan(s, a) && !Lags(a, r) && (r in s.requests ==> HeardAll(s.requests[r]))
    requires r in s.requests && s.requests[r].phase.Holding? ==> s.requests[r].heard == []
    ensures r in RequestNext(s, a).requests ==> HeardAll(RequestNext(s, a).requests[r])
  {
    hide SendersGone;
  }

  lemma {:induction false} HeardAllOverRun(s: State, actions: seq<Action>, r: RequestId)
    requires Inv(s) && IsRun(s, actions) && (r in s.requests ==> HeardAll(s.requests[r]))
    requires forall a :: a in actions ==> !Lags(a, r)
    ensures r in Run(s, actions).requests ==> HeardAll(Run(s, actions).requests[r])
    decreases |actions|
  {
    hide Inv, Can, Next, HeardAll, Lags;
    if actions != [] {
      if r in s.requests { StreamOf(s, r); }
      HeardAllStep(s, actions[0], r);
      StepKeeps(s, actions[0]);
      HeardAllOverRun(Next(s, actions[0]), actions[1..], r);
    }
  }

  /** A stream that never lagged has a line for every report from its subscription up to its
      position, but for a failure that ended it. */
  lemma UnlaggedLinesAreAllReports(start: State, actions: seq<Action>, r: RequestId)
    requires Initial(start) && IsRun(start, actions) && r in Run(start, actions).requests
    requires forall a :: a in actions ==> !Lags(a, r)
    ensures var x, answers := Run(start, actions).requests[r], Answers(map[], actions);
            var lines := ProgressLines(x);
            && x.start <= x.position
            && (lines != [] ==> x.entry in answers)
            && (forall i :: 0 <= i < |lines| ==> RightLine(lines[i], answers[x.entry], x.start + i))
            && (|lines| == x.position - x.start
                || (|lines| == x.position - x.start - 1 && EndsInFailure(x)))
  {
    hide Inv, IsRun, Run, Answers, RightLine, Lags;
    var reports := LinesAreReports(start, actions, r);
    InitHolds(start);
    HeardAllOverRun(start, actions, r);
    RunKeeps(start, actions);
    var s := Run(start, actions);
    var x := s.requests[r];
    StreamOf(s, r);
    LineCount(x, s.entries[x.entry]);
    forall i | 0 <= i < |reports| ensures reports[i] == x.start + i {
    }
  }

  lemma LineCount(x: Request, entry: Entry)
    requires StreamFits(x, entry) && LogFits(entry)
    ensures |ProgressLines(x)| == |x.heard|
            || (|ProgressLines(x)| == |x.heard| - 1 && EndsInFailure(x))
  {
    hide Fetches, Tracks, Ascending;
  }

  // ---------------------------------------------------------------- success

  /** A download that is over and has not failed has its file; and a stream of it that has
      ended said so. */
  ghost predicate Successes(s: State) {
    && (forall e :: e in s.entries ==> HasFile(s, e))
    && (forall r :: r in s.requests ==> SaysDone(s, r))
  }

  predicate HasFile(s: State, e: EntryId)
    requires e in s.entries
  {
    var x := s.entries[e];
    (x.task.Placed? || x.task.Closing? || x.task.Finished?) && x.failure.None? ==> x.key in s.files
  }

  predicate SaysDone(s: State, r: RequestId)
    requires r in s.requests
  {
    var x := s.requests[r];
    x.phase.Ended? && x.entry in s.entries && s.entries[x.entry].failure.None? ==>
      x.lines != [] && x.lines[|x.lines| - 1] == DoneLine
  }

  lemma SuccessStep(s: State, a: Action)
    requires Inv(s) && Can(s, a) && Successes(s)
    ensures Successes(Next(s, a))
  {
    hide Inv, RequestCan, RequestNext, TaskCan, TaskNext, HasFile, SaysDone;
    if RequestCan(s, a) {
      RequestSucceeds(s, a);
    } else {
      TaskSucceeds(s, a);
    }
  }

  lemma RequestSucceeds(s: State, a: Action)
    requires Inv(s) && RequestCan(s, a) && Successes(s)
    ensures Successes(RequestNext(s, a))
  {
    hide RequestCan, RequestNext, Starters, Files, DoneHasFile, Extractions, LogFits, HasFile, SaysDone, StreamFits,
      EntryFits;
    var g := RequestEffect(s, a);
    var s' := RequestNext(s, a);
    forall e | e in s'.entries ensures HasFile(s', e) {
      if e in s.entries { assert HasFile(s, e) && EntryFits(s, e); }
      EntrySucceeds(s, a, e);
    }
    forall r | r in s'.requests ensures SaysDone(s', r) {
      if r in s.requests {
        assert SaysDone(s, r) && StreamFits(s.requests[r], s.entries[s.requests[r].entry]);
        assert HasFile(s, s.requests[r].entry) && EntryFits(s, s.requests[r].entry);
        ActorSucceeds(s, a, r);
      } else {
        NewcomerSucceeds(s, a, r);
      }
    }
  }

  lemma EntrySucceeds(s: State, a: Action, e: EntryId)
    requires RequestCan(s, a) && e in RequestNext(s, a).entries
    requires e in s.entries ==> HasFile(s, e) && EntryFits(s, e)
    ensures HasFile(RequestNext(s, a), e)
  {
    hide SendersGone;
  }

  lemma ActorSucceeds(s: State, a: Action, r: RequestId)
    requires RequestCan(s, a) && r in s.requests && SaysDone(s, r) && s.requests[r].entry in s.entries
    requires HasFile(s, s.requests[r].entry) && EntryFits(s, s.requests[r].entry)
    requires StreamFits(s.requests[r], s.entries[s.requests[r].entry]) && LogFits(s.entries[s.requests[r].entry])
    ensures r in RequestNext(s, a).requests && SaysDone(RequestNext(s, a), r)
  {
    hide Fetches, Tracks, Heard, Repeats, NoFailure, EndsRight, SendersGone;
    if a == Close(r) { SendersGoneTask(s, s.requests[r].entry); }
  }

  lemma NewcomerSucceeds(s: State, a: Action, r: RequestId)
    requires RequestCan(s, a) && r !in s.requests && r in RequestNext(s, a).requests
    ensures SaysDone(RequestNext(s, a), r)
  {
    hide SendersGone;
  }

  lemma TaskSucceeds(s: State, a: Action)
    requires Inv(s) && TaskCan(s, a) && Successes(s)
    ensures Successes(TaskNext(s, a))
  {
    hide TaskCan, TaskNext, Starters, Files, DoneHasFile, Extractions, Registered, HasFile, SaysDone, StreamFits,
      LogFits;
    var s' := TaskNext(s, a);
    OnlyActor(s, a);
    FilesStay(s, a);
    forall e | e in s'.entries ensures HasFile(s', e) {
      assert HasFile(s, e) && LogFits(s.entries[e]);
      TaskHasFile(s, a, e);
    }
    forall r | r in s'.requests ensures SaysDone(s', r) {
      assert SaysDone(s, r) && StreamFits(s.requests[r], s.entries[s.requests[r].entry]);
      TaskLeavesDone(s, a, r);
    }
  }

  lemma FilesStay(s: State, a: Action)
    requires TaskCan(s, a)
    ensures s.files.Keys <= TaskNext(s, a).files.Keys && TaskNext(s, a).requests == s.requests
  {
    hide Advance;
  }

  lemma TaskHasFile(s: State, a: Action, e: EntryId)
    requires TaskCan(s, a) && e in s.entries && HasFile(s, e) && LogFits(s.entries[e])
    ensures e in TaskNext(s, a).entries && HasFile(TaskNext(s, a), e)
  {
    hide Advance, Fetches, Tracks, Ascending;
  }

  lemma TaskLeavesDone(s: State, a: Action, r: RequestId)
    requires TaskCan(s, a) && r in s.requests && SaysDone(s, r) && s.requests[r].entry in s.entries
    requires StreamFits(s.requests[r], s.entries[s.requests[r].entry])
    ensures r in TaskNext(s, a).requests && SaysDone(TaskNext(s, a), r)
  {
    hide Advance, Heard, Repeats, NoFailure;
  }

  lemma {:induction false} SuccessOverRun(s: State, actions: seq<Action>)
    requires Inv(s) && IsRun(s, actions) && Successes(s)
    ensures Successes(Run(s, actions))
    decreases |actions|
  {
    hide Inv, Can, Next, Successes;
    if actions != [] {
      StepKeeps(s, actions[0]);
      SuccessStep(s, actions[0]);
      SuccessOverRun(Next(s, actions[0]), actions[1..]);
    }
  }

  /** Whoever streams a download that does not fail is told that it is done, and then the file
      is there. */
  lemma SuccessReachesEverybody(s: State, r: RequestId)
    requires Reachable(s) && PhaseAt(s, r).Ended? && s.requests[r].entry in s.entries
    requires s.entries[s.requests[r].entry].failure.None?
    ensures s.requests[r].lines != [] && s.requests[r].lines[|s.requests[r].lines| - 1] == DoneLine
    ensures s.entries[s.requests[r].entry].key in s.files
  {
    hide Initial, IsRun, Run, Inv, Successes;
    var start, actions :| Initial(start) && IsRun(start, actions) && Run(start, actions) == s;
    InitHolds(start);
    NothingYet(start);
    SuccessOverRun(start, actions);
    RunKeeps(start, actions);
    StreamOf(s, r);
    DoneOf(s, r);
  }

  lemma NothingYet(s: State)
    requires Initial(s)
    ensures Successes(s)
  {
  }

  lemma DoneOf(s: State, r: RequestId)
    requires Successes(s) && PhaseAt(s, r).Ended? && s.requests[r].entry in s.entries
    requires s.entries[s.requests[r].entry].failure.None? && StreamFits(s.requests[r], s.entries[s.requests[r].entry])
    ensures s.requests[r].lines != [] && s.requests[r].lines[|s.requests[r].lines| - 1] == DoneLine
    ensures s.entries[s.requests[r].entry].key in s.files
  {
    assert SaysDone(s, r) && HasFile(s, s.requests[r].entry);
  }

  // ---------------------------------------------------------------- what was asked for

  /** Some request in these actions asks for the key with extraction. */
  predicate AsksExtraction(actions: seq<Action>, key: Key) {
    exists i :: 0 <= i < |actions| && ExtractsKey(actions[i], key)
  }

  predicate ExtractsKey(a: Action, key: Key) {
    a.Arrive? && a.key == key && a.extract
  }

  lemma ExtractedStep(s: State, a: Action, key: Key)
    requires Can(s, a)
    ensures key in Next(s, a).extracted <==> key in s.extracted || ExtractsKey(a, key)
  {
    hide SendersGone, Advance;
  }

  lemma {:induction false} ExtractedOverRun(s: State, actions: seq<Action>, key: Key)
    requires IsRun(s, actions)
    ensures key in Run(s, actions).extracted <==> key in s.extracted || AsksExtraction(actions, key)
    decreases |actions|
  {
    hide Can, Next, ExtractsKey;
    if actions != [] {
      ExtractedStep(s, actions[0], key);
      ExtractedOverRun(Next(s, actions[0]), actions[1..], key);
      if AsksExtraction(actions[1..], key) {
        var i :| 0 <= i < |actions[1..]| && ExtractsKey(actions[1..][i], key);
        assert ExtractsKey(actions[i + 1], key);
      }
      if AsksExtraction(actions, key) && !ExtractsKey(actions[0], key) {
        var i :| 0 <= i < |actions| && ExtractsKey(actions[i], key);
        assert ExtractsKey(actions[1..][i - 1], key);
      }
    }
  }

  /** From the start of any run in which nobody asks for the key with extraction: its file is
      absent or whole, whatever failed on the way. */
  lemma PlainRunsLeaveWholeFiles(start: State, actions: seq<Action>, key: Key)
    requires Initial(start) && IsRun(start, actions) && !AsksExtraction(actions, key)
    ensures var files := Run(start, actions).files;
            key in files ==> files[key].Whole? && files[key].content == Content(files[key].response)
  {
    hide IsRun, Run, AsksExtraction;
    ExtractedOverRun(start, actions, key);
    PlainFilesAreComplete(Run(start, actions), key);
  }

  /** A request waits for the key, and with the extraction, that it was made with. */
  predicate Made(a: Action, r: RequestId, key: Key, extract: bool) {
    a.Arrive? && a.r == r && a.key == key && a.extract == extract
  }

  lemma MadeStep(s: State, a: Action, r: RequestId)
    requires Inv(s) && Can(s, a) && r in Next(s, a).requests
    ensures var s' := Next(s, a);
            var x := s'.requests[r];
            && x.entry in s'.entries
            && if r in s.requests then
                 s.requests[r].entry in s.entries && x.extract == s.requests[r].extract
                 && s'.entries[x.entry].key == s.entries[s.requests[r].entry].key
               else Made(a, r, s'.entries[x.entry].key, x.extract)
  {
    hide Inv, RequestCan, RequestNext, TaskCan, TaskNext;
    if r in s.requests { StreamOf(s, r); }
    if RequestCan(s, a) {
      RequestMade(s, a, r);
    } else {
      FilesStay(s, a);
      KeysStay(s, a);
    }
  }

  lemma KeysStay(s: State, a: Action)
    requires TaskCan(s, a)
    ensures forall e :: e in s.entries ==>
              e in TaskNext(s, a).entries && TaskNext(s, a).entries[e].key == s.entries[e].key
  {
    hide Advance;
  }

  lemma RequestMade(s: State, a: Action, r: RequestId)
    requires Inv(s) && RequestCan(s, a) && r in RequestNext(s, a).requests
    requires r in s.requests ==> s.requests[r].entry in s.entries
    ensures var s' := RequestNext(s, a);
            var x := s'.requests[r];
            && x.entry in s'.entries
            && if r in s.requests then
                 x.extract == s.requests[r].extract
                 && s'.entries[x.entry].key == s.entries[s.requests[r].entry].key
               else Made(a, r, s'.entries[x.entry].key, x.extract)
  {
    hide SendersGone, Starters, Logs, Streams, Files, DoneHasFile, Extractions;
  }

  lemma {:induction false} MadeOverRun(s: State, actions: seq<Action>, r: RequestId)
    requires Inv(s) && IsRun(s, actions) && r in Run(s, actions).requests
    ensures var s' := Run(s, actions);
            var x := s'.requests[r];
            && x.entry in s'.entries
            && if r in s.requests then
                 s.requests[r].entry in s.entries && x.extract == s.requests[r].extract
                 && s'.entries[x.entry].key == s.entries[s.requests[r].entry].key
               else exists i :: 0 <= i < |actions| && Made(actions[i], r, s'.entries[x.entry].key, x.extract)
    decreases |actions|
  {
    hide Inv, Can, Next, Made;
    if actions == [] {
      StreamOf(s, r);
    } else {
      var s1, rest := Next(s, actions[0]), actions[1..];
      StepKeeps(s, actions[0]);
      MadeOverRun(s1, rest, r);
      var s' := Run(s, actions);
      if r in s1.requests {
        MadeStep(s, actions[0], r);
      } else {
        if r in s.requests { RequestStays(s, actions[0], r); }
        var i :| 0 <= i < |rest| && Made(rest[i], r, s'.entries[s'.requests[r].entry].key, s'.requests[r].extract);
        assert Made(actions[i + 1], r, s'.entries[s'.requests[r].entry].key, s'.requests[r].extract);
      }
    }
  }

  lemma RequestStays(s: State, a: Action, r: RequestId)
    requires Can(s, a) && r in s.requests
    ensures r in Next(s, a).requests
  {
    hide SendersGone, Advance;
  }

  /** From the start of any run: every request streams the key it asked for. */
  lemma RequestsStreamTheirKey(start: State, actions: seq<Action>, r: RequestId)
    requires Initial(start) && IsRun(start, actions) && r in Run(start, actions).requests
    ensures var s := Run(start, actions);
            && s.requests[r].entry in s.entries
            && exists i :: 0 <= i < |actions| && Made(actions[i], r, s.entries[s.requests[r].entry].key,
                 s.requests[r].extract)
  {
    hide IsRun, Run, Inv, Made;
    InitHolds(start);
    MadeOverRun(start, actions, r);
  }
}
