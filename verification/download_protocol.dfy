/** Single-flight downloads (tidewave-core/src/http_handlers.rs, `download_handler`) as a
    transition system over any number of concurrent requests.

    Requests for a key share one entry of the `downloads` map. The first to set its
    `started` flag spawns a download task; everybody streams the entry's broadcast channel. A slow
    receiver may be moved forward, but never past the newest message. What servers,
    archives and the file system do is left open. */
module DownloadProtocol {
  import opened Wrappers
  import opened DownloadProgress

  type Key = nat
  type EntryId = nat
  type RequestId = nat

  // ---------------------------------------------------------------- state

  datatype Message =
    | Progress(size: nat, total: Option<nat>)
    | Failure(reason: nat)

  datatype Line =
    | ProgressLine(size: nat, total: Option<nat>)
    | DoneLine
    | ErrorLine(reason: Option<nat>)     // none: the file is not there

  /** A response being read into a temporary file. */
  datatype Fetch = Fetch(total: nat, response: seq<Chunk>, taken: nat, content: seq<Byte>, bytes: nat, threshold: nat)

  datatype Task =
    | Idle
    | Checking                // is the file there already?
    | Connecting
    | Fetching(fetch: Fetch)
    | Extracting
    | Placed                  // the final path is there; the executable bit may still fail
    | Failing(reason: nat)    // about to broadcast the error
    | Closing                 // sender dropped; about to leave the map
    | Finished

  /** `log` is everything broadcast; `failure` is kept for the proofs only, and says whether
      and why the download failed. */
  datatype Entry = Entry(key: Key, started: bool, extract: bool, log: seq<Message>, task: Task, failure: Option<nat>)

  /** What the final path holds: a renamed download, or something out of an archive. */
  datatype File =
    | Whole(response: seq<Chunk>, content: seq<Byte>)
    | Extracted
    | Partial

  datatype Phase = Holding | Subscribed | Exchanged | Streaming | Ended | Dropped

  /** A request; up to `Exchanged` its handler holds the entry. `start`, `position` and
      `heard` are indices into the entry's broadcast log; `heard` is kept for the proofs
      only, and says which messages the stream has received. */
  datatype Request = Request(entry: EntryId, extract: bool, phase: Phase, start: nat, position: nat, heard: seq<nat>,
      lines: seq<Line>)

  /** `extracted` collects the keys for which extraction was ever requested. */
  datatype State = State(
    downloads: map<Key, EntryId>,
    entries: map<EntryId, Entry>,
    requests: map<RequestId, Request>,
    files: map<Key, File>,
    extracted: set<Key>)

  datatype Action =
    | Arrive(r: RequestId, key: Key, extract: bool, unused: EntryId)
    | Subscribe(r: RequestId)
    | Exchange(r: RequestId)
    | Return(r: RequestId)
    | Receive(r: RequestId)
    | Lag(r: RequestId, newest: nat)
    | Close(r: RequestId)
    | Drop(r: RequestId)
    | Check(e: EntryId)
    | Connect(e: EntryId, total: nat, response: seq<Chunk>)
    | Read(e: EntryId)
    | Rename(e: EntryId)
    | Unpack(e: EntryId)
    | Spill(e: EntryId)
    | Unpacked(e: EntryId)
    | Succeed(e: EntryId)
    | Fail(e: EntryId, reason: nat)
    | Report(e: EntryId)
    | Remove(e: EntryId)

  // ---------------------------------------------------------------- observations

  function TaskAt(s: State, e: EntryId): Task {
    if e in s.entries then s.entries[e].task else Finished
  }

  function PhaseAt(s: State, r: RequestId): Phase {
    if r in s.requests then s.requests[r].phase else Dropped
  }

  /** The handler of the request has not returned. */
  predicate Holds(x: Request) {
    x.phase.Holding? || x.phase.Subscribed? || x.phase.Exchanged?
  }

  /** It may still touch files or the map. */
  predicate Live(task: Task) {
    !task.Idle? && !task.Finished?
  }

  /** Nothing keeps the broadcast channel of the entry open. */
  predicate SendersGone(s: State, e: EntryId) {
    && (TaskAt(s, e).Closing? || TaskAt(s, e).Finished? || TaskAt(s, e).Idle?)
    && (forall key :: key in s.downloads ==> s.downloads[key] != e)
    && (forall r :: r in s.requests && s.requests[r].entry == e ==> !Holds(s.requests[r]))
  }

  // ---------------------------------------------------------------- requests

  predicate RequestCan(s: State, a: Action) {
    match a
    case Arrive(r, key, _, unused) => r !in s.requests && unused !in s.entries
    case Subscribe(r) => PhaseAt(s, r).Holding? && s.requests[r].entry in s.entries
    case Exchange(r) => PhaseAt(s, r).Subscribed? && s.requests[r].entry in s.entries
    case Return(r) => PhaseAt(s, r).Exchanged?
    case Receive(r) => PhaseAt(s, r).Streaming? && s.requests[r].entry in s.entries
        && s.requests[r].position < |s.entries[s.requests[r].entry].log|
    case Lag(r, newest) => PhaseAt(s, r).Streaming? && s.requests[r].entry in s.entries
        && s.requests[r].position < newest < |s.entries[s.requests[r].entry].log|
    case Close(r) =>
      && PhaseAt(s, r).Streaming? && s.requests[r].entry in s.entries
      && s.requests[r].position == |s.entries[s.requests[r].entry].log|
      && SendersGone(s, s.requests[r].entry)
    case Drop(r) => PhaseAt(s, r).Streaming?
    case _ => false
  }

  function PutRequest(s: State, r: RequestId, x: Request): State {
    s.(requests := s.requests[r := x])
  }

  function PutEntry(s: State, e: EntryId, x: Entry): State {
    s.(entries := s.entries[e := x])
  }

  function LineOf(message: Message): Line {
    match message
    case Progress(size, total) => ProgressLine(size, total)
    case Failure(reason) => ErrorLine(Some(reason))
  }

  function RequestNext(s: State, a: Action): State
    requires RequestCan(s, a)
  {
    match a
    case Arrive(r, key, extract, unused) =>
      var s' := s.(extracted := if extract then s.extracted + {key} else s.extracted);
      if key in s.downloads then PutRequest(s', r, Request(s.downloads[key], extract, Holding, 0, 0, [], []))
      else PutRequest(PutEntry(s', unused, Entry(key, false, false, [], Idle, None)), r,
          Request(unused, extract, Holding, 0, 0, [], [])).(downloads := s.downloads[key := unused])
    case Subscribe(r) =>
      var x := s.requests[r];
      var tail := |s.entries[x.entry].log|;
      PutRequest(s, r, x.(phase := Subscribed, start := tail, position := tail))
    case Exchange(r) =>
      var x := s.requests[r];
      var entry := s.entries[x.entry];
      var s' := PutRequest(s, r, x.(phase := Exchanged));
      if entry.started then s' else PutEntry(s', x.entry,
          entry.(started := true, extract := x.extract, task := Checking))
    case Return(r) => PutRequest(s, r, s.requests[r].(phase := Streaming))
    case Receive(r) =>
      var x := s.requests[r];
      var message := s.entries[x.entry].log[x.position];
      PutRequest(s, r, x.(position := x.position + 1,
                          heard := x.heard + [x.position],
                          lines := x.lines + [LineOf(message)],
                          phase := if message.Failure? then Ended else Streaming))
    case Lag(r, newest) => PutRequest(s, r, s.requests[r].(position := newest))
    case Close(r) =>
      var x := s.requests[r];
      var line := if s.entries[x.entry].key in s.files then DoneLine else ErrorLine(None);
      PutRequest(s, r, x.(lines := x.lines + [line], phase := Ended))
    case Drop(r) => PutRequest(s, r, s.requests[r].(phase := Dropped))
  }

  // ---------------------------------------------------------------- steps of download tasks

  predicate TaskCan(s: State, a: Action) {
    match a
    case Check(e) => TaskAt(s, e).Checking?
    case Connect(e, _, _) => TaskAt(s, e).Connecting?
    case Read(e) => TaskAt(s, e).Fetching? && TaskAt(s, e).fetch.taken < |TaskAt(s, e).fetch.response|
    case Rename(e) => Fetched(TaskAt(s, e)) && !s.entries[e].extract
    case Unpack(e) => Fetched(TaskAt(s, e)) && s.entries[e].extract
    case Spill(e) => TaskAt(s, e).Extracting?
    case Unpacked(e) => TaskAt(s, e).Extracting?
    case Succeed(e) => TaskAt(s, e).Placed?
    case Fail(e, _) => TaskAt(s, e).Connecting? || TaskAt(s, e).Fetching? || TaskAt(s, e).Extracting?
        || TaskAt(s, e).Placed?
    case Report(e) => TaskAt(s, e).Failing?
    case Remove(e) => TaskAt(s, e).Closing?
    case _ => false
  }

  predicate Fetched(task: Task) {
    task.Fetching? && task.fetch.taken == |task.fetch.response|
  }

  function Turn(s: State, e: EntryId, task: Task): State
    requires e in s.entries
  {
    PutEntry(s, e, s.entries[e].(task := task))
  }

  /** One round of the read loop. */
  function Advance(f: Fetch): Fetch
    requires f.taken < |f.response|
  {
    var chunk := f.response[f.taken];
    var bytes := f.bytes + chunk.wire;
    f.(taken := f.taken + 1,
       content := f.content + chunk.data,
       bytes := bytes,
       threshold := if bytes >= f.threshold then bytes + ProgressStep(f.total) else f.threshold)
  }

  function TaskNext(s: State, a: Action): State
    requires TaskCan(s, a)
  {
    match a
    case Check(e) => Turn(s, e, if s.entries[e].key in s.files then Closing else Connecting)
    case Connect(e, total, response) => Turn(s, e, Fetching(Fetch(total, response, 0, [], 0, 0)))
    case Read(e) =>
      var f := TaskAt(s, e).fetch;
      var f' := Advance(f);
      var entry := s.entries[e].(task := Fetching(f'));
      if f'.bytes >= f.threshold then PutEntry(s, e,
          entry.(log := entry.log + [Progress(f'.bytes, if f.total > 0 then Some(f.total) else None)]))
      else PutEntry(s, e, entry)
    case Rename(e) =>
      var f := TaskAt(s, e).fetch;
      Turn(s, e, Placed).(files := s.files[s.entries[e].key := Whole(f.response, f.content)])
    case Unpack(e) => Turn(s, e, Extracting)
    case Spill(e) => s.(files := s.files[s.entries[e].key := Partial])
    case Unpacked(e) => Turn(s, e, Placed).(files := s.files[s.entries[e].key := Extracted])
    case Succeed(e) => Turn(s, e, Closing)
    case Fail(e, reason) => PutEntry(s, e, s.entries[e].(task := Failing(reason), failure := Some(reason)))
    case Report(e) =>
      PutEntry(s, e, s.entries[e].(log := s.entries[e].log + [Failure(TaskAt(s, e).reason)], task := Closing))
    case Remove(e) =>
      Turn(s, e, Finished).(downloads := s.downloads - {s.entries[e].key})
  }

  // ---------------------------------------------------------------- runs

  predicate Can(s: State, a: Action) {
    RequestCan(s, a) || TaskCan(s, a)
  }

  function Next(s: State, a: Action): State
    requires Can(s, a)
  {
    if RequestCan(s, a) then RequestNext(s, a) else TaskNext(s, a)
  }

  /** Before the first request, complete files of earlier processes may be there. */
  predicate Initial(s: State) {
    && s.downloads == map[] && s.entries == map[] && s.requests == map[] && s.extracted == {}
    && forall key :: key in s.files ==> Complete(s.files[key])
  }

  predicate Complete(file: File) {
    file.Whole? && file.content == Content(file.response)
  }

  predicate IsRun(s: State, actions: seq<Action>)
    decreases |actions|
  {
    actions == [] || (Can(s, actions[0]) && IsRun(Next(s, actions[0]), actions[1..]))
  }

  function Run(s: State, actions: seq<Action>): State
    requires IsRun(s, actions)
    decreases |actions|
  {
    if actions == [] then s else Run(Next(s, actions[0]), actions[1..])
  }

  ghost predicate Reachable(s: State) {
    exists start, actions :: Initial(start) && IsRun(start, actions) && Run(start, actions) == s
  }
}
