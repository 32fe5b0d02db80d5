/** Archives are extracted in place: when is what an extraction left half-way reported as done?
    (tidewave-core/src/http_handlers.rs, `perform_download` and `download_handler`) */
module DownloadExtraction {
  import opened Wrappers
  import opened DownloadProtocol
  import opened DownloadInvariant
  import opened DownloadTheorems

  predicate IsPartial(s: State, key: Key) {
    key in s.files && s.files[key].Partial?
  }

  /** An extraction for the key is running. */
  ghost predicate Breakable(s: State, key: Key) {
    exists e :: e in s.entries && s.entries[e].key == key && s.entries[e].task.Extracting?
  }

  /** The step begins an extraction for the key. */
  predicate Unpacks(s: State, a: Action, key: Key) {
    a.Unpack? && a.e in s.entries && s.entries[a.e].key == key
  }

  ghost predicate NoneBegins(s: State, actions: seq<Action>, key: Key)
    requires IsRun(s, actions)
    decreases |actions|
  {
    actions == [] || (!Unpacks(s, actions[0], key) && NoneBegins(Next(s, actions[0]), actions[1..], key))
  }

  /** A request for the key that is told that the download is done, while the file is partial. */
  predicate Misled(s: State, r: RequestId, key: Key) {
    IsPartial(s, key) && r in s.requests && Asks(s, r, key) && s.requests[r].lines == [DoneLine]
  }

  /** Some continuation that begins no extraction for the key misleads a new request. */
  ghost predicate CanMislead(s: State, key: Key) {
    exists r, actions :: r !in s.requests && IsRun(s, actions) && NoneBegins(s, actions,
        key) && Misled(Run(s, actions), r, key)
  }

  /** A partial extraction can be reported as done to a later request if and only if there is
      one, or an extraction is running that may still break off. */
  lemma MisleadsExactlyWhenBreakable(s: State, key: Key)
    requires Reachable(s)
    ensures CanMislead(s, key) <==> IsPartial(s, key) || Breakable(s, key)
  {
    hide Reachable, Inv, IsRun, Run, NoneBegins, Misled, CanMislead;
    ReachableHolds(s);
    if IsPartial(s, key) || Breakable(s, key) {
      BreaksOff(s, key);
    } else {
      if CanMislead(s, key) { NotMisled(s, key); }
    }
  }

  // ---------------------------------------------------------------- where partial files come from

  /** The entries whose task fails during extraction in this run. */
  ghost function BrokenOff(s: State, actions: seq<Action>): set<EntryId>
    requires IsRun(s, actions)
    decreases |actions|
  {
    if actions == [] then {}
    else (if actions[0].Fail? && TaskAt(s, actions[0].e).Extracting? then {actions[0].e} else {})
         + BrokenOff(Next(s, actions[0]), actions[1..])
  }

  /** Every partial file belongs to an extraction that is running or among these. */
  ghost predicate Explained(s: State, broken: set<EntryId>) {
    forall key :: IsPartial(s, key) ==>
      exists e :: e in s.entries && s.entries[e].key == key && (s.entries[e].task.Extracting? || e in broken)
  }

  /** What a step does to one entry, and to partial files. */
  lemma EntryStep(s: State, a: Action, e: EntryId)
    requires Can(s, a) && e in s.entries && (s.entries[e].task.Extracting? ==> s.entries[e].started)
    ensures var s' := Next(s, a);
            && e in s'.entries && s'.entries[e].key == s.entries[e].key
            && (s.entries[e].task.Extracting? ==>
                  s'.entries[e].task.Extracting? || a == Unpacked(e) || (a.Fail? && a.e == e))
  {
    hide SendersGone, Advance;
  }

  lemma PartialStep(s: State, a: Action, key: Key)
    requires Can(s, a) && IsPartial(Next(s, a), key)
    ensures (IsPartial(s, key) && !(a.Unpacked? && a.e in s.entries && s.entries[a.e].key == key))
            || (a.Spill? && a.e in s.entries && s.entries[a.e].key == key && TaskAt(s, a.e).Extracting?)
  {
    hide SendersGone, Advance;
  }

  lemma ExplainedStep(s: State, a: Action, broken: set<EntryId>)
    requires Inv(s) && Can(s, a) && Explained(s, broken)
    ensures Explained(Next(s, a), broken + if a.Fail? && TaskAt(s, a.e).Extracting? then {a.e} else {})
  {
    hide Can, Next, IsPartial, Starters, Logs, Streams, Files, DoneHasFile, Extractions;
    var s', broken' := Next(s, a), broken + if a.Fail? && TaskAt(s, a.e).Extracting? then {a.e} else {};
    forall key | IsPartial(s', key)
      ensures exists e ::
                e in s'.entries && s'.entries[e].key == key && (s'.entries[e].task.Extracting? || e in broken')
    {
      PartialStep(s, a, key);
      var e: EntryId;
      if IsPartial(s, key) {
        e :| e in s.entries && s.entries[e].key == key && (s.entries[e].task.Extracting? || e in broken);
      } else {
        e := a.e;
      }
      assert EntryFits(s, e);
      EntryStep(s, a, e);
    }
  }

  lemma {:induction false} ExplainedOverRuns(s: State, actions: seq<Action>, broken: set<EntryId>)
    requires Inv(s) && IsRun(s, actions) && Explained(s, broken)
    ensures Explained(Run(s, actions), broken + BrokenOff(s, actions))
    decreases |actions|
  {
    hide Inv, Can, Next, Explained;
    if actions != [] {
      var now := if actions[0].Fail? && TaskAt(s, actions[0].e).Extracting? then {actions[0].e} else {};
      StepKeeps(s, actions[0]);
      ExplainedStep(s, actions[0], broken);
      ExplainedOverRuns(Next(s, actions[0]), actions[1..], broken + now);
      assert broken + now + BrokenOff(Next(s, actions[0]), actions[1..]) == broken + BrokenOff(s, actions);
    } else {
      assert broken + {} == broken;
    }
  }

  /** From the start of any run: a partial file is that of an extraction of the same key that is
      running, or that failed in this run. */
  lemma PartialOnlyFromBrokenExtraction(start: State, actions: seq<Action>, key: Key)
    requires Initial(start) && IsRun(start, actions) && IsPartial(Run(start, actions), key)
    ensures Breakable(Run(start, actions), key)
            || exists e :: e in BrokenOff(start, actions) && e in Run(start, actions).entries
                           && Run(start, actions).entries[e].key == key
  {
    hide Inv, IsRun, Run, BrokenOff;
    InitHolds(start);
    ExplainedOverRuns(start, actions, {});
    var end := Run(start, actions);
    assert {} + BrokenOff(start, actions) == BrokenOff(start, actions);
    var e :| e in end.entries && end.entries[e].key == key
             && (end.entries[e].task.Extracting? || e in BrokenOff(start, actions));
  }

  // ---------------------------------------------------------------- nothing partial, nothing to break

  lemma UnbrokenStep(s: State, a: Action, key: Key)
    requires Can(s, a) && !Unpacks(s, a, key) && !IsPartial(s, key) && !Breakable(s, key)
    ensures !IsPartial(Next(s, a), key) && !Breakable(Next(s, a), key)
  {
    hide Can, Next, IsPartial, Unpacks;
    if IsPartial(Next(s, a), key) { PartialStep(s, a, key); }
    forall e | e in Next(s, a).entries && Next(s, a).entries[e].key == key
      ensures !Next(s, a).entries[e].task.Extracting?
    {
      if Next(s, a).entries[e].task.Extracting? { ExtractingStep(s, a, e); }
    }
  }

  lemma ExtractingStep(s: State, a: Action, e: EntryId)
    requires Can(s, a) && e in Next(s, a).entries && Next(s, a).entries[e].task.Extracting?
    ensures e in s.entries && s.entries[e].key == Next(s, a).entries[e].key
    ensures s.entries[e].task.Extracting? || Unpacks(s, a, s.entries[e].key)
  {
    hide RequestCan, RequestNext, TaskCan, TaskNext;
    if RequestCan(s, a) { RequestExtracts(s, a, e); } else { TaskExtracts(s, a, e); }
  }

  lemma RequestExtracts(s: State, a: Action, e: EntryId)
    requires RequestCan(s, a) && e in RequestNext(s, a).entries && RequestNext(s, a).entries[e].task.Extracting?
    ensures e in s.entries && s.entries[e].key == RequestNext(s, a).entries[e].key
    ensures s.entries[e].task.Extracting?
  {
    hide SendersGone;
  }

  lemma TaskExtracts(s: State, a: Action, e: EntryId)
    requires TaskCan(s, a) && e in TaskNext(s, a).entries && TaskNext(s, a).entries[e].task.Extracting?
    ensures e in s.entries && s.entries[e].key == TaskNext(s, a).entries[e].key
    ensures s.entries[e].task.Extracting? || Unpacks(s, a, s.entries[e].key)
  {
    hide Advance;
  }

  lemma {:induction false} UnbrokenStays(s: State, actions: seq<Action>, key: Key)
    requires IsRun(s, actions) && NoneBegins(s, actions, key) && !IsPartial(s, key) && !Breakable(s, key)
    ensures !IsPartial(Run(s, actions), key)
    decreases |actions|
  {
    hide Can, Next, Breakable, IsPartial, Unpacks;
    if actions != [] {
      UnbrokenStep(s, actions[0], key);
      UnbrokenStays(Next(s, actions[0]), actions[1..], key);
    }
  }

  lemma NotMisled(s: State, key: Key)
    requires CanMislead(s, key)
    ensures IsPartial(s, key) || Breakable(s, key)
  {
    hide IsRun, Run, NoneBegins;
    var r, actions :| r !in s.requests && IsRun(s, actions) && NoneBegins(s, actions, key)
        && Misled(Run(s, actions), r, key);
    if !IsPartial(s, key) && !Breakable(s, key) { UnbrokenStays(s, actions, key); }
  }

  // ---------------------------------------------------------------- the way to a misled request

  ghost predicate Leads(s: State, s': State, key: Key) {
    exists actions :: IsRun(s, actions) && NoneBegins(s, actions, key) && Run(s, actions) == s'
  }

  lemma {:induction false} OneMore(s: State, actions: seq<Action>, a: Action, key: Key)
    requires IsRun(s, actions) && NoneBegins(s, actions, key)
    requires Can(Run(s, actions), a) && !Unpacks(Run(s, actions), a, key)
    ensures IsRun(s, actions + [a]) && NoneBegins(s, actions + [a], key)
    ensures Run(s, actions + [a]) == Next(Run(s, actions), a)
    decreases |actions|
  {
    hide Can, Next, Unpacks;
    if actions == [] {
      assert actions + [a] == [a] && [a][1..] == [];
    } else {
      assert (actions + [a])[1..] == actions[1..] + [a];
      OneMore(Next(s, actions[0]), actions[1..], a, key);
    }
  }

  lemma On(start: State, s: State, a: Action, key: Key) returns (s': State)
    requires Inv(s) && Leads(start, s, key) && Can(s, a) && !Unpacks(s, a, key)
    ensures s' == Next(s, a) && Inv(s') && Leads(start, s', key)
  {
    hide IsRun, Run, NoneBegins, Can, Next, Unpacks, Inv;
    s' := Next(s, a);
    StepKeeps(s, a);
    var actions :| IsRun(start, actions) && NoneBegins(start, actions, key) && Run(start, actions) == s;
    OneMore(start, actions, a, key);
  }

  lemma BreaksOff(s: State, key: Key)
    requires Inv(s) && (IsPartial(s, key) || Breakable(s, key))
    ensures CanMislead(s, key)
  {
    hide Inv, Leads, CanMislead;
    assert Leads(s, s, key) by { Here(s, key); }
    var s1 := s;
    if !IsPartial(s, key) {
      var e :| e in s.entries && s.entries[e].key == key && s.entries[e].task.Extracting?;
      s1 := On(s, s, Spill(e), key);
    }
    var r, helper := FreshRequests(s.requests);
    var s2 := KeyIsFreed(s, s1, key, helper, r);
    var unused := FreshEntry(s2.entries);
    NewRequestIsMisled(s, s2, key, r, unused);
  }

  lemma Here(s: State, key: Key)
    ensures Leads(s, s, key)
  {
    assert IsRun(s, []) && NoneBegins(s, [], key) && Run(s, []) == s;
  }

  /** The current entry of the key ends, in failure if it must, and leaves the map. */
  lemma KeyIsFreed(start: State, s: State, key: Key, helper: RequestId, r: RequestId) returns (s': State)
    requires Inv(s) && Leads(start, s, key) && IsPartial(s, key)
    requires helper !in s.requests && r !in s.requests && helper != r
    ensures Inv(s') && Leads(start, s', key) && IsPartial(s', key) && key !in s'.downloads && r !in s'.requests
  {
    hide Inv, Leads;
    s' := s;
    if key in s.downloads {
      var e := s.downloads[key];
      EntryOf(s, key);
      if s.entries[e].task.Idle? {
        s' := GetsStarted(start, s, key, helper, r);
      }
      s' := TaskEnds(start, s', key, r);
    }
  }

  lemma EntryOf(s: State, key: Key)
    requires Inv(s) && key in s.downloads
    ensures var e := s.downloads[key];
            e in s.entries && s.entries[e].key == key && !s.entries[e].task.Finished?
            && (s.entries[e].started <==> !s.entries[e].task.Idle?)
  {
    hide Starters, Logs, Streams, Files, DoneHasFile, Extractions;
  }

  /** A helper's request starts an entry that nobody has started. */
  lemma GetsStarted(start: State, s: State, key: Key, helper: RequestId, r: RequestId) returns (s': State)
    requires Inv(s) && Leads(start, s, key) && IsPartial(s, key) && helper !in s.requests && r !in s.requests
             && helper != r
    requires key in s.downloads && TaskAt(s, s.downloads[key]).Idle?
    ensures Inv(s') && Leads(start, s', key) && IsPartial(s', key) && r !in s'.requests
    ensures key in s'.downloads && TaskAt(s', s'.downloads[key]).Checking?
  {
    hide Inv, Leads;
    EntryOf(s, key);
    var unused := FreshEntry(s.entries);
    s' := On(start, s, Arrive(helper, key, false, unused), key);
    s' := On(start, s', Subscribe(helper), key);
    s' := On(start, s', Exchange(helper), key);
  }

  lemma TaskEnds(start: State, s: State, key: Key, r: RequestId) returns (s': State)
    requires Inv(s) && Leads(start, s, key) && IsPartial(s, key) && r !in s.requests
    requires key in s.downloads && !TaskAt(s, s.downloads[key]).Idle?
    ensures Inv(s') && Leads(start, s', key) && IsPartial(s', key) && key !in s'.downloads && r !in s'.requests
  {
    hide Inv, Leads;
    EntryOf(s, key);
    var e := s.downloads[key];
    s' := s;
    if s.entries[e].task.Connecting? || s.entries[e].task.Fetching? || s.entries[e].task.Extracting? {
      s' := On(start, s', Fail(e, 0), key);
    }
    if s'.entries[e].task.Checking? {
      s' := On(start, s', Check(e), key);
    } else if s'.entries[e].task.Placed? {
      s' := On(start, s', Succeed(e), key);
    } else if s'.entries[e].task.Failing? {
      s' := On(start, s', Report(e), key);
    }
    s' := On(start, s', Remove(e), key);
  }

  /** With the key free, a new request gets a new entry, whose task finds the file. */
  lemma NewRequestIsMisled(start: State, s: State, key: Key, r: RequestId, e: EntryId)
    requires Inv(s) && Leads(start, s, key) && IsPartial(s, key) && key !in s.downloads
    requires r !in s.requests && e !in s.entries && r !in start.requests
    ensures CanMislead(start, key)
  {
    hide Inv, Leads, CanMislead, SendersGone, Misled;
    Unused(s, e);
    var s1 := NewRequestWaits(start, s, key, r, e);
    var s2 := On(start, s1, Check(e), key);
    var s3 := On(start, s2, Remove(e), key);
    assert s3.downloads == s.downloads;
    AllGone(s, s3, r, e);
    IsMisled(s3, r, e);
    var s4 := On(start, s3, Close(r), key);
    MisledBy(start, s4, r, key);
  }

  lemma NewRequestWaits(start: State, s: State, key: Key, r: RequestId, e: EntryId) returns (s': State)
    requires Inv(s) && Leads(start, s, key) && IsPartial(s, key) && key !in s.downloads
    requires r !in s.requests && e !in s.entries
    ensures Inv(s') && Leads(start, s', key) && s'.files == s.files && s'.downloads == s.downloads[key := e]
    ensures s'.requests == s.requests[r := Request(e, false, Streaming, 0, 0, [], [])]
    ensures s'.entries == s.entries[e := Entry(key, true, false, [], Checking, None)]
  {
    hide Inv, Leads, SendersGone;
    s' := On(start, s, Arrive(r, key, false, e), key);
    s' := On(start, s', Subscribe(r), key);
    s' := On(start, s', Exchange(r), key);
    s' := On(start, s', Return(r), key);
  }

  lemma IsMisled(s: State, r: RequestId, e: EntryId)
    requires r in s.requests && s.requests[r] == Request(e, false, Streaming, 0, 0, [], [])
    requires e in s.entries && s.entries[e].log == [] && IsPartial(s, s.entries[e].key) && SendersGone(s, e)
    ensures Can(s, Close(r)) && Misled(Next(s, Close(r)), r, s.entries[e].key)
  {
    hide SendersGone;
  }

  lemma Unused(s: State, e: EntryId)
    requires Inv(s) && e !in s.entries
    ensures forall r :: r in s.requests ==> s.requests[r].entry != e
    ensures forall key :: key in s.downloads ==> s.downloads[key] != e
  {
    hide Starters, Logs, Files, DoneHasFile, Extractions;
  }

  lemma AllGone(s: State, s': State, r: RequestId, e: EntryId)
    requires forall q :: q in s.requests ==> s.requests[q].entry != e
    requires forall key :: key in s.downloads ==> s.downloads[key] != e
    requires s'.requests == s.requests[r := Request(e, false, Streaming, 0, 0, [], [])] && s'.downloads == s.downloads
    requires TaskAt(s', e).Finished?
    ensures SendersGone(s', e)
  {
  }

  lemma MisledBy(start: State, s: State, r: RequestId, key: Key)
    requires Leads(start, s, key) && r !in start.requests && Misled(s, r, key)
    ensures CanMislead(start, key)
  {
    hide IsRun, Run, NoneBegins, Misled;
    var actions :| IsRun(start, actions) && NoneBegins(start, actions, key) && Run(start, actions) == s;
  }

  // ---------------------------------------------------------------- fresh ids

  lemma FreshRequests(requests: map<RequestId, Request>) returns (r: RequestId, helper: RequestId)
    ensures r !in requests && helper !in requests && r != helper
  {
    r := Above(requests.Keys);
    helper := r + 1;
  }

  lemma FreshEntry(entries: map<EntryId, Entry>) returns (e: EntryId)
    ensures e !in entries
  {
    e := Above(entries.Keys);
  }

  lemma Above(numbers: set<nat>) returns (n: nat)
    ensures forall m :: m in numbers ==> m < n
  {
    n := 0;
    if numbers != {} {
      var m :| m in numbers;
      n := Above(numbers - {m});
      forall k | k in numbers ensures k == m || k < n {
        assert k == m || k in numbers - {m};
      }
      n := if m >= n then m + 1 else n;
    }
  }
}
