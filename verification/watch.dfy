/** File watching and the pairing of renames (tidewave-core/src/ws/watch.rs,
    `convert_notify_event` and the loop of `init_watcher`).

    Paths are sequences of components. Whether the path of an event exists at the time it is
    converted comes with the event. */
module Watch {
  import opened Wrappers

  type Path = seq<string>

  datatype RenameMode = From | To | Any | Both | Other

  datatype EventKind = Create | Rename(mode: RenameMode) | Modify | Remove | Access

  datatype Event = Event(kind: EventKind, paths: seq<Path>, onDisk: bool)

  datatype WatchEvent =
    | Created(path: Path)
    | Modified(path: Path)
    | Deleted(path: Path)
    | Renamed(source: Path, path: Path)
    | Terminated

  /** The path below `watched`, none if it is not below it. */
  function ToRelativePath(path: Path, watched: Path): (rel: Option<Path>)
    ensures rel.Some? <==> watched <= path
    ensures rel.Some? ==> watched + rel.value == path
  {
    if watched <= path then Some(path[|watched|..]) else None
  }

  // ---------------------------------------------------------------- pairing

  /** The event remembers its path as a rename's source. */
  predicate Opens(e: Event) {
    e.kind.Rename? && e.paths != [] && (e.kind.mode.From? || (e.kind.mode.Any? && !e.onDisk))
  }

  /** The event uses up whatever source is remembered. */
  predicate Settles(e: Event) {
    e.kind.Rename? && e.paths != [] && (e.kind.mode.To? || (e.kind.mode.Any? && e.onDisk))
  }

  /** The remembered source after `events`: that of the last event that opens or settles. */
  function Pending(events: seq<Event>, watched: Path): Option<Path> {
    if events == [] then None else
    var last := events[|events| - 1];
    if Opens(last) then ToRelativePath(last.paths[0], watched)
    else if Settles(last) then None
    else Pending(events[..|events| - 1], watched)
  }

  /** The paths below `watched`, in order. */
  function Inside(paths: seq<Path>, watched: Path): seq<Path> {
    if paths == [] then [] else
    var n := |paths| - 1;
    var rel := ToRelativePath(paths[n], watched);
    if rel.Some? then Inside(paths[..n], watched) + [rel.value] else Inside(paths[..n], watched)
  }

  function Each(paths: seq<Path>, wrap: Path -> WatchEvent): (events: seq<WatchEvent>)
    ensures |events| == |paths|
    ensures forall i :: 0 <= i < |paths| ==> events[i] == wrap(paths[i])
  {
    seq(|paths|, i requires 0 <= i < |paths| => wrap(paths[i]))
  }

  /** What a removal reports: the end of the watch if it is the watched path itself. */
  function Removals(paths: seq<Path>, watched: Path): seq<WatchEvent> {
    if paths == [] then [] else
    var n := |paths| - 1;
    var rel := ToRelativePath(paths[n], watched);
    Removals(paths[..n], watched)
    + if paths[n] == watched then [Terminated] else if rel.Some? then [Deleted(rel.value)] else []
  }

  /** What an event reports when `pending` is the remembered source. */
  function Results(e: Event, watched: Path, pending: Option<Path>): seq<WatchEvent> {
    match e.kind
    case Create => Each(Inside(e.paths, watched), p => Created(p))
    case Modify => Each(Inside(e.paths, watched), p => Modified(p))
    case Remove => Removals(e.paths, watched)
    case Access => []
    case Rename(mode) =>
      if mode.Other? then Each(Inside(e.paths, watched), p => Modified(p))
      else if mode.Both? then
        if |e.paths| < 2 then [] else Moved(ToRelativePath(e.paths[0], watched), ToRelativePath(e.paths[1], watched))
      else if Settles(e) then
        var target := ToRelativePath(e.paths[0], watched);
        if target.None? && mode.To? then [] else Moved(pending, target)
      else []
  }

  /** A move from or to somewhere outside is a removal or a creation. */
  function Moved(source: Option<Path>, target: Option<Path>): seq<WatchEvent> {
    match (source, target)
    case (Some(s), Some(t)) => [Renamed(s, t)]
    case (Some(s), None) => [Deleted(s)]
    case (None, Some(t)) => [Created(t)]
    case (None, None) => []
  }

  /** What the watcher task gets: an event, an error of the watcher, its end, or a timer tick
      with the number of subscribers. */
  datatype Input = Notified(event: Event) | WatchError | WatcherGone | Tick(receivers: nat)

  function UpToTerminated(results: seq<WatchEvent>): seq<WatchEvent> {
    if results == [] then []
    else if results[0].Terminated? then [Terminated]
    else [results[0]] + UpToTerminated(results[1..])
  }

  /** Everything a watcher task sends, when it has already converted `events`. */
  function Transcript(inputs: seq<Input>, watched: Path, events: seq<Event>): seq<WatchEvent> {
    if inputs == [] then [] else
    match inputs[0]
    case Notified(e) =>
      var results := Results(e, watched, Pending(events, watched));
      if Terminated in results then UpToTerminated(results)
          else results + Transcript(inputs[1..], watched, events + [e])
    case WatchError => [Terminated]
    case WatcherGone => []
    case Tick(receivers) => if receivers == 0 then [] else Transcript(inputs[1..], watched, events)
  }

  predicate Stops(inputs: seq<Input>, watched: Path, events: seq<Event>) {
    inputs != [] &&
    match inputs[0]
    case Notified(e) =>
      Terminated in Results(e, watched, Pending(events, watched)) || Stops(inputs[1..], watched, events + [e])
    case WatchError => true
    case WatcherGone => true
    case Tick(receivers) => receivers == 0 || Stops(inputs[1..], watched, events)
  }

  // ---------------------------------------------------------------- the watcher task

  class WatcherTask {
    const watchedPath: Path
    var pendingRenameFrom: Option<Path>
    var sent: seq<WatchEvent>
    var registered: bool
    ghost var events: seq<Event>

    ghost predicate Valid()
      reads this
    {
      pendingRenameFrom == Pending(events, watchedPath)
    }

    constructor (path: Path)
      ensures Valid() && watchedPath == path && sent == [] && registered && events == []
    {
      watchedPath, pendingRenameFrom, sent, registered, events := path, None, [], true, [];
    }

    method PathsInside(paths: seq<Path>) returns (inside: seq<Path>)
      ensures inside == Inside(paths, watchedPath)
    {
      inside := [];
      for i := 0 to |paths|
        invariant inside == Inside(paths[..i], watchedPath)
      {
        assert paths[..i + 1][..i] == paths[..i];
        var rel := ToRelativePath(paths[i], watchedPath);
        if rel.Some? {
          inside := inside + [rel.value];
        }
      }
      assert paths[..|paths|] == paths;
    }

    method ConvertRemovals(paths: seq<Path>) returns (results: seq<WatchEvent>)
      ensures results == Removals(paths, watchedPath)
    {
      results := [];
      for i := 0 to |paths|
        invariant results == Removals(paths[..i], watchedPath)
      {
        assert paths[..i + 1][..i] == paths[..i];
        var path := paths[i];
        var rel := ToRelativePath(path, watchedPath);
        if path == watchedPath {
          results := results + [Terminated];
        } else if rel.Some? {
          results := results + [Deleted(rel.value)];
        }
      }
      assert paths[..|paths|] == paths;
    }

    method ConvertNotifyEvent(event: Event) returns (results: seq<WatchEvent>)
      requires Valid()
      modifies this`pendingRenameFrom, this`events
      ensures Valid() && events == old(events) + [event]
      ensures results == Results(event, watchedPath, old(pendingRenameFrom))
    {
      hide Inside, Removals, Moved;
      results := [];
      match event.kind {
        case Create =>
          var inside := PathsInside(event.paths);
          results := Each(inside, p => Created(p));
        case Modify =>
          var inside := PathsInside(event.paths);
          results := Each(inside, p => Modified(p));
        case Remove =>
          results := ConvertRemovals(event.paths);
        case Access =>
        case Rename(mode) =>
          results := ConvertRename(event, mode);
      }
      events := events + [event];
      assert events[..|events| - 1] == old(events);
    }

    method ConvertRename(event: Event, mode: RenameMode) returns (results: seq<WatchEvent>)
      requires event.kind == Rename(mode)
      modifies this`pendingRenameFrom
      ensures results == Results(event, watchedPath, old(pendingRenameFrom))
      ensures pendingRenameFrom ==
                if Opens(event) then ToRelativePath(event.paths[0], watchedPath)
                else if Settles(event) then None
                else old(pendingRenameFrom)
    {
      results := [];
      match mode {
        case From =>
          if event.paths != [] {
            pendingRenameFrom := ToRelativePath(event.paths[0], watchedPath);
          }
        case To =>
          if event.paths != [] {
            var target := ToRelativePath(event.paths[0], watchedPath);
            if target.Some? {
              if pendingRenameFrom.Some? {
                results := [Renamed(pendingRenameFrom.value, target.value)];
              } else {
                results := [Created(target.value)];
              }
            }
            pendingRenameFrom := None;
          }
        case Any =>
          if event.paths != [] {
            var path := ToRelativePath(event.paths[0], watchedPath);
            if event.onDisk {
              if path.Some? {
                if pendingRenameFrom.Some? {
                  results := [Renamed(pendingRenameFrom.value, path.value)];
                } else {
                  results := [Created(path.value)];
                }
              } else if pendingRenameFrom.Some? {
                results := [Deleted(pendingRenameFrom.value)];
              }
              pendingRenameFrom := None;
            } else {
              pendingRenameFrom := path;
            }
          }
        case Both =>
          if |event.paths| >= 2 {
            var source, target := ToRelativePath(event.paths[0], watchedPath),
                ToRelativePath(event.paths[1], watchedPath);
            if source.Some? && target.Some? {
              results := [Renamed(source.value, target.value)];
            } else if source.Some? {
              results := [Deleted(source.value)];
            } else if target.Some? {
              results := [Created(target.value)];
            }
          }
        case Other =>
          var inside := PathsInside(event.paths);
          results := Each(inside, p => Modified(p));
      }
    }

    /** The event loop: it deregisters the watch whenever it returns. */
    method Run(inputs: seq<Input>)
      requires Valid() && registered && sent == [] && events == []
      modifies this
      ensures sent == Transcript(inputs, watchedPath, [])
      ensures registered <==> !Stops(inputs, watchedPath, [])
    {
      hide Results, Pending, UpToTerminated;
      var i := 0;
      while i < |inputs|
        invariant 0 <= i <= |inputs| && Valid() && registered
        invariant Transcript(inputs, watchedPath, []) == sent + Transcript(inputs[i..], watchedPath, events)
        invariant Stops(inputs, watchedPath, []) <==> Stops(inputs[i..], watchedPath, events)
      {
        assert inputs[i..][1..] == inputs[i + 1..];
        match inputs[i] {
          case Notified(event) =>
            ghost var before := events;
            var results := ConvertNotifyEvent(event);
            var terminated := SendAll(results);
            if terminated {
              registered := false;
              return;
            }
          case WatchError =>
            sent := sent + [Terminated];
            registered := false;
            return;
          case WatcherGone =>
            registered := false;
            return;
          case Tick(receivers) =>
            if receivers == 0 {
              registered := false;
              return;
            }
        }
        i := i + 1;
      }
    }

    /** Sends events one by one, and stops after one that ends the watch. */
    method SendAll(results: seq<WatchEvent>) returns (terminated: bool)
      modifies this`sent
      ensures terminated <==> Terminated in results
      ensures sent == old(sent) + if terminated then UpToTerminated(results) else results
    {
      terminated := false;
      for j := 0 to |results|
        invariant !terminated && Terminated !in results[..j]
        invariant sent == old(sent) + results[..j]
      {
        UpToTerminatedStep(results, j);
        sent := sent + [results[j]];
        assert results[..j + 1] == results[..j] + [results[j]];
        if results[j].Terminated? {
          return true;
        }
      }
    }
  }

  lemma {:induction false} UpToTerminatedStep(results: seq<WatchEvent>, j: nat)
    requires j < |results| && Terminated !in results[..j]
    ensures results[j].Terminated? ==> UpToTerminated(results) == results[..j + 1]
  {
    if j > 0 && results[j].Terminated? {
      assert results[0] in results[..j];
      assert results[1..][..j - 1] == results[1..j];
      assert forall r :: r in results[1..j] ==> r in results[..j];
      UpToTerminatedStep(results[1..], j - 1);
      assert results[..j + 1] == [results[0]] + results[1..][..j];
    }
  }

  // ---------------------------------------------------------------- properties of every run

  /** Nothing is sent after the end of the watch was. */
  lemma {:induction false} NothingAfterTerminated(inputs: seq<Input>, watched: Path, events: seq<Event>, i: nat)
    requires i < |Transcript(inputs, watched, events)| && Transcript(inputs, watched, events)[i].Terminated?
    ensures i == |Transcript(inputs, watched, events)| - 1 && Stops(inputs, watched, events)
  {
    match inputs[0]
    case Notified(e) =>
      var results := Results(e, watched, Pending(events, watched));
      if Terminated in results {
        TerminatedEnds(results, i);
      } else {
        NoneTerminated(results);
        NothingAfterTerminated(inputs[1..], watched, events + [e], i - |results|);
      }
    case Tick(_) =>
      NothingAfterTerminated(inputs[1..], watched, events, i);
    case _ =>
  }

  lemma NoneTerminated(results: seq<WatchEvent>)
    requires Terminated !in results
    ensures forall k :: 0 <= k < |results| ==> !results[k].Terminated?
  {
  }

  lemma {:induction false} TerminatedEnds(results: seq<WatchEvent>, i: nat)
    requires i < |UpToTerminated(results)| && UpToTerminated(results)[i].Terminated?
    ensures i == |UpToTerminated(results)| - 1
  {
    if !results[0].Terminated? {
      TerminatedEnds(results[1..], i - 1);
    }
  }

  /** `j` is the latest opening event, and nothing has settled since. */
  predicate IsLatest(events: seq<Event>, j: nat) {
    && j < |events|
    && Opens(events[j])
    && forall k :: j < k < |events| ==> !Opens(events[k]) && !Settles(events[k])
  }

  lemma {:induction false} PendingHasSource(events: seq<Event>, watched: Path) returns (j: nat)
    requires Pending(events, watched).Some?
    ensures IsLatest(events, j) && events[j].paths[0] == watched + Pending(events, watched).value
  {
    var n := |events| - 1;
    if Opens(events[n]) {
      j := n;
    } else {
      j := PendingHasSource(events[..n], watched);
      assert events[j] == events[..n][j];
    }
  }

  lemma {:induction false} LatestIsPending(events: seq<Event>, watched: Path, j: nat)
    requires IsLatest(events, j)
    ensures Pending(events, watched) == ToRelativePath(events[j].paths[0], watched)
  {
    var n := |events| - 1;
    if j < n {
      assert events[..n][j] == events[j] && !Opens(events[n]) && !Settles(events[n]);
      LatestIsPending(events[..n], watched, j);
    }
  }

  /** A rename is reported for event `i` exactly if it settles inside the watched path and
      the latest source that nothing else has used up or replaced lies inside it, too; the
      two reported paths are the raw paths below the watched one. */
  lemma RenamesPair(events: seq<Event>, i: nat, watched: Path, source: Path, target: Path)
    requires i < |events| && events[i].kind.Rename? && !events[i].kind.mode.Both?
    ensures Renamed(source, target) in Results(events[i], watched, Pending(events[..i], watched)) <==>
              && Settles(events[i])
              && events[i].paths[0] == watched + target
              && exists j: nat :: IsLatest(events[..i], j) && events[j].paths[0] == watched + source
  {
    var e, before := events[i], events[..i];
    var pending := Pending(before, watched);
    if pending.Some? {
      var j := PendingHasSource(before, watched);
      assert before[j] == events[j];
    }
    forall j: nat | IsLatest(before, j) ensures pending == ToRelativePath(events[j].paths[0], watched) {
      LatestIsPending(before, watched, j);
    }
    if Settles(e) {
      assert (watched + source)[|watched|..] == source && (watched + target)[|watched|..] == target;
    }
  }

  /** No source is used twice. */
  lemma SourceUsedOnce(events: seq<Event>, i: nat, later: nat, j: nat)
    requires i < later < |events| && Settles(events[i]) && IsLatest(events[..i], j)
    ensures !IsLatest(events[..later], j)
  {
    assert events[..later][i] == events[i] && events[..i][j] == events[j];
  }

  /** A remembered source is reported exactly if the next event that matters settles, and
      not by a bare `To` outside: a second source or such a `To` loses it silently. */
  lemma SourceReportedExactlyWhen(events: seq<Event>, i: nat, j: nat, watched: Path, source: Path)
    requires i < |events| && (Opens(events[i]) || Settles(events[i]))
    requires IsLatest(events[..i], j) && events[j].paths[0] == watched + source
    ensures var results := Results(events[i], watched, Pending(events[..i], watched));
            (exists w :: w in results && source in SourcesOf(w))
            <==> Settles(events[i]) && (watched <= events[i].paths[0] || events[i].kind.mode.Any?)
  {
    var e, before := events[i], events[..i];
    LatestIsPending(before, watched, j);
    assert before[j] == events[j] && (watched + source)[|watched|..] == source;
    var results, target := Results(e, watched, Pending(before, watched)), if Settles(e)
        then ToRelativePath(e.paths[0], watched) else None;
    if Settles(e) && target.Some? {
      assert Renamed(source, target.value) in results;
    } else if Settles(e) && e.kind.mode.Any? {
      assert Deleted(source) in results;
    }
  }

  /** The path an event says has gone. */
  function SourcesOf(w: WatchEvent): set<Path> {
    match w
    case Deleted(path) => {path}
    case Renamed(source, _) => {source}
    case _ => {}
  }

  /** What does not wait for a partner is reported path by path, each under its own kind. */
  lemma EventsReportTheirPaths(e: Event, watched: Path, pending: Option<Path>, rel: Path)
    ensures var results := Results(e, watched, pending);
            && (e.kind.Create? ==> (Created(rel) in results <==> watched + rel in e.paths))
            && (e.kind.Modify? ==> (Modified(rel) in results <==> watched + rel in e.paths))
            && (e.kind.Remove? ==> (Deleted(rel) in results <==> watched + rel in e.paths && rel != []))
            && (Terminated in results <==> e.kind.Remove? && watched in e.paths)
    ensures e.kind == Rename(Both) && |e.paths| >= 2 ==>
              var results := Results(e, watched, pending);
              && (forall target :: Renamed(rel, target) in results <==>
                   e.paths[0] == watched + rel && e.paths[1] == watched + target)
              && (Deleted(rel) in results <==> e.paths[0] == watched + rel && !(watched <= e.paths[1]))
              && (Created(rel) in results <==> e.paths[1] == watched + rel && !(watched <= e.paths[0]))
  {
    InsideIsRaw(e.paths, watched);
    RemovalsReport(e.paths, watched, rel);
    assert (watched + rel)[|watched|..] == rel;
    if e.kind == Rename(Both) && |e.paths| >= 2 {
      forall target ensures (watched + target)[|watched|..] == target {
      }
    }
  }

  /** What an event is to report, kind by kind, when `pending` is the remembered source. */
  predicate Reports(e: Event, watched: Path, pending: Option<Path>, w: WatchEvent) {
    match e.kind
    case Create => w.Created? && watched + w.path in e.paths
    case Modify => w.Modified? && watched + w.path in e.paths
    case Remove => (w.Terminated? && watched in e.paths) || (w.Deleted? && w.path != [] && watched + w.path in e.paths)
    case Access => false
    case Rename(mode) =>
      match mode
      case From => false
      case Other => w.Modified? && watched + w.path in e.paths
      case Both => |e.paths| >= 2 && Moves(e.paths[0], e.paths[1], watched, w)
      case To => e.paths != [] && watched <= e.paths[0] && Arrived(pending, e.paths[0], watched, w)
      case Any => e.paths != [] && e.onDisk && Arrived(pending, e.paths[0], watched, w)
  }

  /** A move between two raw paths: a rename inside, a removal to outside, a creation from outside. */
  predicate Moves(source: Path, target: Path, watched: Path, w: WatchEvent) {
    || (w.Renamed? && source == watched + w.source && target == watched + w.path)
    || (w.Deleted? && source == watched + w.path && !(watched <= target))
    || (w.Created? && target == watched + w.path && !(watched <= source))
  }

  /** A move to a raw path from the remembered source, if there is one. */
  predicate Arrived(pending: Option<Path>, target: Path, watched: Path, w: WatchEvent) {
    || (w.Renamed? && pending == Some(w.source) && target == watched + w.path)
    || (w.Deleted? && pending == Some(w.path) && !(watched <= target))
    || (w.Created? && pending == None && target == watched + w.path)
  }

  /** Every event reports exactly that, whatever its kind and mode. */
  lemma EventsReportExactly(e: Event, watched: Path, pending: Option<Path>, w: WatchEvent)
    ensures w in Results(e, watched, pending) <==> Reports(e, watched, pending, w)
  {
    hide Inside, Removals;
    InsideExactly(e.paths, watched);
    match e.kind
    case Create => assert w.Created? ==> (w.path in Inside(e.paths, watched) <==> watched + w.path in e.paths);
    case Modify => assert w.Modified? ==> (w.path in Inside(e.paths, watched) <==> watched + w.path in e.paths);
    case Remove =>
      RemovalsRemoveOnly(e.paths, watched, w);
      RemovalsReport(e.paths, watched, if w.Deleted? then w.path else []);
    case Access =>
    case Rename(_) =>
      hide Results, Reports;
      RenamesReportExactly(e, watched, pending, w);
  }

  lemma RenamesReportExactly(e: Event, watched: Path, pending: Option<Path>, w: WatchEvent)
    requires e.kind.Rename?
    ensures w in Results(e, watched, pending) <==> Reports(e, watched, pending, w)
  {
    hide Inside, Removals;
    InsideExactly(e.paths, watched);
    if e.kind.mode.Other? {
      assert w.Modified? ==> (w.path in Inside(e.paths, watched) <==> watched + w.path in e.paths);
    } else if e.paths != [] {
      hide Moved, Moves, Arrived;
      MovedExactly(ToRelativePath(e.paths[0], watched), pending, e.paths[0], watched, w);
      if |e.paths| >= 2 { MovesExactly(e.paths[0], e.paths[1], watched, w); }
    }
  }

  lemma MovesExactly(source: Path, target: Path, watched: Path, w: WatchEvent)
    ensures w in Moved(ToRelativePath(source, watched), ToRelativePath(target, watched))
            <==> Moves(source, target, watched, w)
  {
    Rejoins(source, watched);
    Rejoins(target, watched);
  }

  lemma MovedExactly(rel: Option<Path>, pending: Option<Path>, target: Path, watched: Path, w: WatchEvent)
    requires rel == ToRelativePath(target, watched)
    ensures w in Moved(pending, rel) <==> Arrived(pending, target, watched, w)
  {
    Rejoins(target, watched);
  }

  lemma Rejoins(raw: Path, watched: Path)
    ensures forall rel :: ToRelativePath(raw, watched) == Some(rel) <==> raw == watched + rel
  {
    forall rel ensures (watched + rel)[|watched|..] == rel {
    }
  }

  lemma {:induction false} InsideExactly(paths: seq<Path>, watched: Path)
    ensures forall p :: p in Inside(paths, watched) <==> watched + p in paths
  {
    if paths != [] {
      var n := |paths| - 1;
      InsideExactly(paths[..n], watched);
      assert paths == paths[..n] + [paths[n]];
      forall p ensures (watched + p)[|watched|..] == p {
      }
    }
  }

  lemma {:induction false} RemovalsRemoveOnly(paths: seq<Path>, watched: Path, w: WatchEvent)
    ensures w in Removals(paths, watched) ==> w.Deleted? || w.Terminated?
  {
    if paths != [] { RemovalsRemoveOnly(paths[..|paths| - 1], watched, w); }
  }

  /** Paths are reported in the order in which they come. */
  lemma {:induction false} ReportsInOrder(paths: seq<Path>, more: seq<Path>, watched: Path)
    ensures Inside(paths + more, watched) == Inside(paths, watched) + Inside(more, watched)
    ensures Removals(paths + more, watched) == Removals(paths, watched) + Removals(more, watched)
    decreases |more|
  {
    if more == [] {
      assert paths + more == paths;
    } else {
      var n := |more| - 1;
      assert paths + more == (paths + more[..n]) + [more[n]];
      assert ((paths + more[..n]) + [more[n]])[..|paths| + n] == paths + more[..n];
      ReportsInOrder(paths, more[..n], watched);
    }
  }

  lemma {:induction false} RemovalsReport(paths: seq<Path>, watched: Path, rel: Path)
    ensures Deleted(rel) in Removals(paths, watched) <==> watched + rel in paths && rel != []
    ensures Terminated in Removals(paths, watched) <==> watched in paths
  {
    assert (watched + rel)[|watched|..] == rel;
    if paths != [] {
      var n := |paths| - 1;
      RemovalsReport(paths[..n], watched, rel);
      assert paths == paths[..n] + [paths[n]];
    }
  }

  function PathsOf(w: WatchEvent): set<Path> {
    match w
    case Created(path) => {path}
    case Modified(path) => {path}
    case Deleted(path) => {path}
    case Renamed(source, path) => {source, path}
    case Terminated => {}
  }

  /** Every path in the results of an event is, below the watched path, a raw path of the event
      itself or of the latest source. */
  lemma ResultPathsAreRaw(events: seq<Event>, i: nat, watched: Path, w: WatchEvent, rel: Path)
    requires i < |events| && w in Results(events[i], watched, Pending(events[..i], watched)) && rel in PathsOf(w)
    ensures watched + rel in events[i].paths
            || exists j: nat :: IsLatest(events[..i], j) && events[j].paths[0] == watched + rel
  {
    var e, before := events[i], events[..i];
    if Pending(before, watched).Some? {
      var j := PendingHasSource(before, watched);
      assert before[j] == events[j];
    }
    InsideIsRaw(e.paths, watched);
    RemovalsAreRaw(e.paths, watched);
  }

  lemma {:induction false} InsideIsRaw(paths: seq<Path>, watched: Path)
    ensures forall rel :: rel in Inside(paths, watched) <==> watched + rel in paths
  {
    if paths != [] {
      var n := |paths| - 1;
      InsideIsRaw(paths[..n], watched);
      assert paths == paths[..n] + [paths[n]];
      forall rel ensures paths[n] == watched + rel <==> ToRelativePath(paths[n], watched) == Some(rel) {
        assert (watched + rel)[|watched|..] == rel;
      }
    }
  }

  lemma {:induction false} RemovalsAreRaw(paths: seq<Path>, watched: Path)
    ensures forall w, rel :: w in Removals(paths, watched) && rel in PathsOf(w) ==> watched + rel in paths
  {
    if paths != [] {
      var n := |paths| - 1;
      RemovalsAreRaw(paths[..n], watched);
      assert paths == paths[..n] + [paths[n]];
    }
  }

  // ---------------------------------------------------------------- what is sent

  function EventsIn(inputs: seq<Input>): seq<Event> {
    if inputs == [] then [] else
    (if inputs[0].Notified? then [inputs[0].event] else []) + EventsIn(inputs[1..])
  }

  /** Input `m` is the event, and the watcher has not stopped before it. */
  predicate Arrives(inputs: seq<Input>, watched: Path, events: seq<Event>, m: nat, e: Event) {
    m < |inputs| && inputs[m] == Notified(e) && !Stops(inputs[..m], watched, events)
  }

  /** The results of the event that is input `m`. */
  function ResultsAt(inputs: seq<Input>, watched: Path, events: seq<Event>, m: nat, e: Event): seq<WatchEvent>
    requires m <= |inputs|
  {
    Results(e, watched, Pending(events + EventsIn(inputs[..m]), watched))
  }

  /** What is known at the first input carries over to the later ones. */
  lemma ArrivesLater(inputs: seq<Input>, watched: Path, events: seq<Event>, m: nat, e: Event)
    requires m < |inputs| && 0 < m
    requires var e0 := inputs[0];
             && (e0.Notified? ==> Terminated !in Results(e0.event, watched, Pending(events, watched)))
             && !e0.WatchError? && !e0.WatcherGone? && (e0.Tick? ==> e0.receivers != 0)
    ensures var events' := if inputs[0].Notified? then events + [inputs[0].event] else events;
            && (Arrives(inputs, watched, events, m, e) <==> Arrives(inputs[1..], watched, events', m - 1, e))
            && ResultsAt(inputs, watched, events, m, e) == ResultsAt(inputs[1..], watched, events', m - 1, e)
  {
    hide Results, Pending;
    assert inputs[..m][1..] == inputs[1..][..m - 1] && inputs[..m][0] == inputs[0];
    var events' := if inputs[0].Notified? then events + [inputs[0].event] else events;
    assert events + EventsIn(inputs[..m]) == events' + EventsIn(inputs[1..][..m - 1]);
  }

  lemma {:induction false} SentByEvent(inputs: seq<Input>, watched: Path, events: seq<Event>, w: WatchEvent)
    returns (m: nat, e: Event)
    requires w in Transcript(inputs, watched, events) && !w.Terminated?
    ensures Arrives(inputs, watched, events, m, e) && w in ResultsAt(inputs, watched, events, m, e)
    decreases |inputs|
  {
    hide Results, Pending;
    var e0 := inputs[0];
    if e0.Notified? && w in Results(e0.event, watched, Pending(events, watched)) {
      m, e := 0, e0.event;
      assert inputs[..0] == [] && events + [] == events;
    } else {
      if e0.Notified? && Terminated in Results(e0.event, watched, Pending(events, watched)) {
        UpToAmong(Results(e0.event, watched, Pending(events, watched)), w);
      }
      var events' := if e0.Notified? then events + [e0.event] else events;
      m, e := SentByEvent(inputs[1..], watched, events', w);
      m := m + 1;
      ArrivesLater(inputs, watched, events, m, e);
    }
  }

  lemma {:induction false} UpToAmong(results: seq<WatchEvent>, w: WatchEvent)
    requires w in UpToTerminated(results)
    ensures w in results
  {
    if w != results[0] { UpToAmong(results[1..], w); }
  }

  lemma {:induction false} EventSends(inputs: seq<Input>, watched: Path, events: seq<Event>, m: nat, e: Event,
      w: WatchEvent)
    requires Arrives(inputs, watched, events, m, e)
    requires w in ResultsAt(inputs, watched, events, m, e) && Terminated !in ResultsAt(inputs, watched, events, m, e)
    ensures w in Transcript(inputs, watched, events)
    decreases |inputs|
  {
    hide Results, Pending;
    assert inputs[..0] == [] && events + [] == events;
    if m > 0 {
      assert inputs[..m][0] == inputs[0];
      ArrivesLater(inputs, watched, events, m, e);
      EventSends(inputs[1..], watched, if inputs[0].Notified? then events + [inputs[0].event] else events, m - 1, e, w);
    }
  }

  /** Two inside paths reported together, or a settling target with the latest source. */
  ghost predicate Joins(before: seq<Event>, e: Event, watched: Path, source: Path, target: Path) {
    && e.kind.Rename?
    && if e.kind.mode.Both? then |e.paths| >= 2 && e.paths[0] == watched + source && e.paths[1] == watched + target
       else Settles(e) && e.paths[0] == watched + target
            && exists j: nat :: IsLatest(before, j) && before[j].paths[0] == watched + source
  }

  /** Over every run of the loop: a rename is sent exactly if, while the watcher had not
      stopped, an event came that joins the two paths. */
  lemma RenamesAreSentExactlyWhenJoined(inputs: seq<Input>, watched: Path, source: Path, target: Path)
    ensures Renamed(source, target) in Transcript(inputs, watched, [])
            <==> exists m: nat, e: Event ::
                   Arrives(inputs, watched, [], m, e) && Joins(EventsIn(inputs[..m]), e, watched, source, target)
  {
    var w := Renamed(source, target);
    if w in Transcript(inputs, watched, []) {
      var m, e := SentByEvent(inputs, watched, [], w);
      JoinedResult(EventsIn(inputs[..m]), e, watched, source, target);
      assert [] + EventsIn(inputs[..m]) == EventsIn(inputs[..m]);
    }
    forall m: nat, e: Event | Arrives(inputs, watched, [], m, e)
        && Joins(EventsIn(inputs[..m]), e, watched, source, target)
      ensures w in Transcript(inputs, watched, [])
    {
      JoinedResult(EventsIn(inputs[..m]), e, watched, source, target);
      assert [] + EventsIn(inputs[..m]) == EventsIn(inputs[..m]);
      EventsReportTheirPaths(e, watched, Pending(EventsIn(inputs[..m]), watched), target);
      EventSends(inputs, watched, [], m, e, w);
    }
  }

  lemma JoinedResult(before: seq<Event>, e: Event, watched: Path, source: Path, target: Path)
    ensures Renamed(source, target) in Results(e, watched, Pending(before, watched)) <==>
            Joins(before, e, watched, source, target)
  {
    var events, i := before + [e], |before|;
    assert events[i] == e && events[..i] == before;
    if e.kind.Rename? && !e.kind.mode.Both? {
      RenamesPair(events, i, watched, source, target);
      forall j: nat | IsLatest(before, j) ensures events[j] == before[j] {
      }
    } else if e.kind == Rename(Both) && |e.paths| >= 2 {
      EventsReportTheirPaths(e, watched, Pending(before, watched), source);
    } else if !e.kind.Rename? {
      RemovalsJoinNothing(e.paths, watched, source, target);
    }
  }

  lemma {:induction false} RemovalsJoinNothing(paths: seq<Path>, watched: Path, source: Path, target: Path)
    ensures Renamed(source, target) !in Removals(paths, watched)
  {
    if paths != [] { RemovalsJoinNothing(paths[..|paths| - 1], watched, source, target); }
  }

  /** Over every run of the loop: every path sent is, below the watched path, a raw path of an
      event that had come before. */
  lemma SentPathsAreRaw(inputs: seq<Input>, watched: Path, w: WatchEvent, rel: Path)
    requires w in Transcript(inputs, watched, []) && rel in PathsOf(w)
    ensures exists i :: 0 <= i < |EventsIn(inputs)| && watched + rel in EventsIn(inputs)[i].paths
  {
    var m, e := SentByEvent(inputs, watched, [], w);
    var before := EventsIn(inputs[..m]);
    assert [] + before == before;
    EventsSplit(inputs, m);
    var events := before + [e];
    assert events[|before|] == e && events[..|before|] == before;
    ResultPathsAreRaw(events, |before|, watched, w, rel);
    if watched + rel !in e.paths {
      var j: nat :| IsLatest(before, j) && events[j].paths[0] == watched + rel;
      assert EventsIn(inputs)[j] == before[j];
    }
  }

  lemma {:induction false} EventsSplit(inputs: seq<Input>, m: nat)
    requires m < |inputs| && inputs[m].Notified?
    ensures EventsIn(inputs[..m]) + [inputs[m].event] <= EventsIn(inputs)
  {
    assert inputs[..0] == [];
    if m > 0 {
      assert inputs[..m][1..] == inputs[1..][..m - 1] && inputs[..m][0] == inputs[0];
      EventsSplit(inputs[1..], m - 1);
    }
  }
}
