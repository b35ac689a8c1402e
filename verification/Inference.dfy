/** `DependencyGraph::infer` (src/minimize/dependency.rs): the loop with its four maps, against
    a declarative account of which earlier action each action requires. */
module Inference {
  import opened Common
  import opened Actions
  import opened Dependency

  function InferResources(a: Action): ResourceAccess {
    match a.kind
    case ShellCommand(_, access) => access
    case FilePatch(files) =>
      var resources := set f | f in files :: File(f.path);
      ResourceAccess(resources, resources, false)
    case SetEnvironment(key, _) => ResourceAccess({}, {EnvironmentVariable(key)}, false)
    case UnsetEnvironment(key) => ResourceAccess({}, {EnvironmentVariable(key)}, false)
    case ChangeDirectory(path) => ResourceAccess({File(path)}, {WorkingDirectory}, false)
  }

  // ---- the declarative account ----

  /** What a file patch does to paths, in the order it does it. */
  datatype FileEvent = Written(path: Path, author: Id) | Deleted(path: Path)

  function EventOf(f: FileReplacement, author: Id): FileEvent {
    if f.content.Some? then Written(f.path, author) else Deleted(f.path)
  }

  function PatchLog(files: seq<FileReplacement>, author: Id): (r: seq<FileEvent>)
    ensures |r| == |files|
    ensures forall i | 0 <= i < |r| :: r[i].path == files[i].path && (r[i].Deleted? <==> files[i].content == None)
    ensures forall i | 0 <= i < |r| && r[i].Written? :: r[i].author == author
  {
    seq(|files|, i requires 0 <= i < |files| => EventOf(files[i], author))
  }

  function FileLog(actions: seq<Action>): seq<FileEvent> {
    if actions == [] then []
    else
      var a := actions[|actions| - 1];
      FileLog(actions[..|actions| - 1]) + if a.kind.FilePatch? then PatchLog(a.kind.files, a.id) else []
  }

  /** Event `k` is the first write of `path` since its last deletion. */
  ghost predicate FirstSinceDelete(log: seq<FileEvent>, path: Path, k: int, id: Id) {
    && 0 <= k < |log| && log[k] == Written(path, id)
    && (forall m | k < m < |log| :: log[m] != Deleted(path))
    && (forall m | 0 <= m < k && log[m].Written? && log[m].path == path ::
          exists n :: m < n < k && log[n] == Deleted(path))
  }

  ghost predicate Creator(log: seq<FileEvent>, baseline: set<Path>, path: Path, id: Id) {
    path !in baseline && exists k :: FirstSinceDelete(log, path, k, id)
  }

  predicate SetsKey(a: Action, key: Key) {
    (a.kind.SetEnvironment? || a.kind.UnsetEnvironment?) && a.kind.key == key
  }

  predicate Enters(a: Action, path: Path) {
    a.kind.ChangeDirectory? && a.kind.path == path
  }

  ghost predicate LastToSet(prior: seq<Action>, key: Key, id: Id) {
    exists j :: 0 <= j < |prior| && SetsKey(prior[j], key) && prior[j].id == id
             && forall m | j < m < |prior| :: !SetsKey(prior[m], key)
  }

  ghost predicate LastToEnter(prior: seq<Action>, path: Path, id: Id) {
    exists j :: 0 <= j < |prior| && Enters(prior[j], path) && prior[j].id == id
             && forall m | j < m < |prior| :: !Enters(prior[m], path)
  }

  ghost predicate Provides(prior: seq<Action>, baseline: set<Path>, cwd: Path, r: Resource, id: Id) {
    match r
    case File(path) => Creator(FileLog(prior), baseline, path, id)
    case EnvironmentVariable(key) => LastToSet(prior, key, id)
    case WorkingDirectory => LastToEnter(prior, cwd, id)
  }

  /** What `a` itself, apart from its directory, needs of `id`: the creator of a file that it patches or of the
      directory that it enters, or a provider of what its command was recorded to read. */
  ghost predicate Uses(prior: seq<Action>, baseline: set<Path>, a: Action, id: Id) {
    match a.kind
    case ShellCommand(_, access) => exists r | r in access.readSet :: Provides(prior, baseline, a.cwdBefore, r, id)
    case FilePatch(files) => exists f | f in files :: Creator(FileLog(prior), baseline, f.path, id)
    case SetEnvironment(_, _) => false
    case UnsetEnvironment(_) => false
    case ChangeDirectory(path) => Creator(FileLog(prior), baseline, path, id)
  }

  /** `a`, recorded after `prior`, directly requires action `id`. */
  ghost predicate Requires(prior: seq<Action>, baseline: set<Path>, a: Action, id: Id) {
    Uses(prior, baseline, a, id) || (a.cwdBefore != "" && LastToEnter(prior, a.cwdBefore, id))
  }

  /** The access on record for `a`: a patch reads and writes its files, a variable and the directory are written
      without being read, a directory that is entered is read. */
  ghost predicate Accesses(a: Action, access: ResourceAccess) {
    match a.kind
    case ShellCommand(_, recorded) => access == recorded
    case FilePatch(files) =>
      && !access.isOpaque
      && (forall r :: r in access.readSet <==> exists f | f in files :: r == File(f.path))
      && (forall r :: r in access.writeSet <==> exists f | f in files :: r == File(f.path))
    case SetEnvironment(key, _) => access == ResourceAccess({}, {EnvironmentVariable(key)}, false)
    case UnsetEnvironment(key) => access == ResourceAccess({}, {EnvironmentVariable(key)}, false)
    case ChangeDirectory(path) => access == ResourceAccess({File(path)}, {WorkingDirectory}, false)
  }

  /** The resources that are looked up are the ones in the account. */
  lemma ReadsAre(prior: seq<Action>, baseline: set<Path>, a: Action, id: Id)
    ensures Accesses(a, InferResources(a))
    ensures Uses(prior, baseline, a, id) <==> exists r | r in InferResources(a).readSet :: Provides(prior, baseline, a.cwdBefore, r, id)
  {
    hide Creator, FileLog, LastToSet, LastToEnter;
    match a.kind {
      case FilePatch(files) =>
        forall f | f in files ensures Provides(prior, baseline, a.cwdBefore, File(f.path), id) <==> Creator(FileLog(prior), baseline, f.path, id) {}
        assert forall r | r in InferResources(a).readSet :: exists f | f in files :: r == File(f.path);
        if Uses(prior, baseline, a, id) {
          var f :| f in files && Creator(FileLog(prior), baseline, f.path, id);
          assert File(f.path) in InferResources(a).readSet;
        }
      case ChangeDirectory(path) =>
        assert Provides(prior, baseline, a.cwdBefore, File(path), id) <==> Creator(FileLog(prior), baseline, path, id);
        assert File(path) in InferResources(a).readSet;
      case _ =>
    }
  }

  ghost predicate Recorded(prior: seq<Action>, id: Id) {
    exists j :: 0 <= j < |prior| && prior[j].id == id
  }

  // ---- a requirement is always an earlier action ----

  lemma {:induction false} LogNamesActions(prior: seq<Action>, k: nat)
    requires k < |FileLog(prior)| && FileLog(prior)[k].Written?
    ensures Recorded(prior, FileLog(prior)[k].author)
  {
    var front := prior[..|prior| - 1];
    if k < |FileLog(front)| {
      LogNamesActions(front, k);
      var j :| 0 <= j < |front| && front[j].id == FileLog(front)[k].author;
      assert prior[j].id == FileLog(prior)[k].author;
    } else {
      assert prior[|prior| - 1].id == FileLog(prior)[k].author;
    }
  }

  lemma RequiresEarlier(prior: seq<Action>, baseline: set<Path>, a: Action, id: Id)
    requires Requires(prior, baseline, a, id)
    ensures Recorded(prior, id)
  {
    ReadsAre(prior, baseline, a, id);
    if r :| r in InferResources(a).readSet && r.File? && Provides(prior, baseline, a.cwdBefore, r, id) {
      var k :| FirstSinceDelete(FileLog(prior), r.path, k, id);
      LogNamesActions(prior, k);
    }
  }

  // ---- what one more event does to the creators ----

  lemma CreatorUnique(log: seq<FileEvent>, path: Path, j: int, a: Id, k: int, b: Id)
    requires FirstSinceDelete(log, path, j, a) && FirstSinceDelete(log, path, k, b)
    ensures j == k && a == b
  {}

  lemma CreatorKept(log: seq<FileEvent>, e: FileEvent, path: Path, k: int, id: Id)
    requires FirstSinceDelete(log, path, k, id) && e != Deleted(path)
    ensures FirstSinceDelete(log + [e], path, k, id)
  {
    forall m | 0 <= m < k && (log + [e])[m].Written? && (log + [e])[m].path == path
      ensures exists n :: m < n < k && (log + [e])[n] == Deleted(path)
    {
      var n :| m < n < k && log[n] == Deleted(path);
      assert (log + [e])[n] == Deleted(path);
    }
  }

  lemma CreatorWas(log: seq<FileEvent>, e: FileEvent, path: Path, k: int, id: Id)
    requires FirstSinceDelete(log + [e], path, k, id) && k < |log|
    ensures FirstSinceDelete(log, path, k, id)
  {
    forall m | k < m < |log| ensures log[m] != Deleted(path) {
      assert log[m] == (log + [e])[m];
    }
    forall m | 0 <= m < k && log[m].Written? && log[m].path == path
      ensures exists n :: m < n < k && log[n] == Deleted(path)
    {
      assert (log + [e])[m] == log[m];
      var n :| m < n < k && (log + [e])[n] == Deleted(path);
      assert log[n] == Deleted(path);
    }
  }

  /** Without a creator, every write of the path so far has been deleted again. */
  lemma {:induction false} NoCreatorNoLiveWrite(log: seq<FileEvent>, path: Path, m: int)
    requires forall k, id :: !FirstSinceDelete(log, path, k, id)
    requires 0 <= m < |log| && log[m].Written? && log[m].path == path
    ensures exists n :: m < n < |log| && log[n] == Deleted(path)
    decreases m
  {
    assert !FirstSinceDelete(log, path, m, log[m].author);
    if forall n | m < n < |log| :: log[n] != Deleted(path) {
      var w :| 0 <= w < m && log[w].Written? && log[w].path == path
            && !exists n :: w < n < m && log[n] == Deleted(path);
      NoCreatorNoLiveWrite(log, path, w);
      assert false;
    }
  }

  /** `created_by` holds exactly the creators. */
  ghost predicate Tracks(createdBy: map<Path, Id>, log: seq<FileEvent>, baseline: set<Path>) {
    forall path, id :: (path in createdBy && createdBy[path] == id) <==> Creator(log, baseline, path, id)
  }

  function NoteFile(createdBy: map<Path, Id>, baseline: set<Path>, e: FileEvent): map<Path, Id> {
    match e
    case Written(path, id) =>
      if path !in baseline && path !in createdBy then createdBy[path := id] else createdBy
    case Deleted(path) => createdBy - {path}
  }

  lemma NoteKeepsOthers(log: seq<FileEvent>, baseline: set<Path>, e: FileEvent, path: Path, id: Id)
    requires e.path != path
    ensures Creator(log + [e], baseline, path, id) <==> Creator(log, baseline, path, id)
  {
    if Creator(log, baseline, path, id) {
      var k :| FirstSinceDelete(log, path, k, id);
      CreatorKept(log, e, path, k, id);
    }
    if Creator(log + [e], baseline, path, id) {
      var k :| FirstSinceDelete(log + [e], path, k, id);
      CreatorWas(log, e, path, k, id);
    }
  }

  lemma NoteWritten(createdBy: map<Path, Id>, log: seq<FileEvent>, baseline: set<Path>, e: FileEvent, id: Id)
    requires Tracks(createdBy, log, baseline) && e.Written? && e.path !in baseline
    ensures Creator(log + [e], baseline, e.path, id)
        <==> id == if e.path in createdBy then createdBy[e.path] else e.author
  {
    var path, log' := e.path, log + [e];
    if path in createdBy {
      assert Creator(log, baseline, path, createdBy[path]);
      var k :| FirstSinceDelete(log, path, k, createdBy[path]);
      CreatorKept(log, e, path, k, createdBy[path]);
      if Creator(log', baseline, path, id) {
        var j :| FirstSinceDelete(log', path, j, id);
        CreatorUnique(log', path, j, id, k, createdBy[path]);
      }
    } else {
      forall k, i ensures !FirstSinceDelete(log, path, k, i) {
        assert !Creator(log, baseline, path, i);
      }
      forall m | 0 <= m < |log| && log'[m].Written? && log'[m].path == path
        ensures exists n :: m < n < |log| && log'[n] == Deleted(path)
      {
        NoCreatorNoLiveWrite(log, path, m);
        var n :| m < n < |log| && log[n] == Deleted(path);
        assert log'[n] == Deleted(path);
      }
      assert FirstSinceDelete(log', path, |log|, e.author);
      if Creator(log', baseline, path, id) {
        var j :| FirstSinceDelete(log', path, j, id);
        CreatorUnique(log', path, j, id, |log|, e.author);
      }
    }
  }

  lemma NoteTracks(createdBy: map<Path, Id>, log: seq<FileEvent>, baseline: set<Path>, e: FileEvent)
    requires Tracks(createdBy, log, baseline)
    ensures Tracks(NoteFile(createdBy, baseline, e), log + [e], baseline)
  {
    var after := NoteFile(createdBy, baseline, e);
    forall path, id
      ensures (path in after && after[path] == id) <==> Creator(log + [e], baseline, path, id)
    {
      if path != e.path {
        NoteKeepsOthers(log, baseline, e, path, id);
        assert (path in createdBy && createdBy[path] == id) <==> Creator(log, baseline, path, id);
      } else if e.Written? && path !in baseline {
        NoteWritten(createdBy, log, baseline, e, id);
      } else if e.Written? {
        assert path in createdBy ==> Creator(log, baseline, path, createdBy[path]);
      } else {
        assert (log + [e])[|log|] == Deleted(path);
      }
    }
  }

  // ---- the code ----

  /** The file arm of the match that closes the loop body. */
  method NotePatch(createdBy: map<Path, Id>, baseline: set<Path>, files: seq<FileReplacement>, author: Id, ghost log: seq<FileEvent>)
    returns (after: map<Path, Id>)
    requires Tracks(createdBy, log, baseline)
    ensures Tracks(after, log + PatchLog(files, author), baseline)
  {
    after := createdBy;
    assert log + PatchLog(files, author)[..0] == log;
    for i := 0 to |files|
      invariant Tracks(after, log + PatchLog(files, author)[..i], baseline)
    {
      var file := files[i];
      ghost var before := after;
      if file.content.Some? && file.path !in baseline {
        if file.path !in after {
          after := after[file.path := author];
        }
      } else if file.content.None? {
        after := after - {file.path};
      }
      assert after == NoteFile(before, baseline, EventOf(file, author));
      NoteTracks(before, log + PatchLog(files, author)[..i], baseline, EventOf(file, author));
      assert log + PatchLog(files, author)[..i + 1] == log + PatchLog(files, author)[..i] + [EventOf(file, author)];
    }
    assert PatchLog(files, author)[..|files|] == PatchLog(files, author);
  }

  ghost predicate TracksKeys(writers: map<Key, Id>, prior: seq<Action>) {
    forall key, id :: (key in writers && writers[key] == id) <==> LastToSet(prior, key, id)
  }

  ghost predicate TracksDirectories(writers: map<Path, Id>, prior: seq<Action>) {
    forall path, id :: (path in writers && writers[path] == id) <==> LastToEnter(prior, path, id)
  }

  lemma LastToSetStep(prior: seq<Action>, a: Action, key: Key, id: Id)
    ensures LastToSet(prior + [a], key, id) <==> if SetsKey(a, key) then id == a.id else LastToSet(prior, key, id)
  {
    var all := prior + [a];
    assert all[|prior|] == a;
    if SetsKey(a, key) {
      assert SetsKey(all[|prior|], key);
    } else {
      if LastToSet(prior, key, id) {
        var j :| 0 <= j < |prior| && SetsKey(prior[j], key) && prior[j].id == id
              && forall m | j < m < |prior| :: !SetsKey(prior[m], key);
        assert all[j] == prior[j];
      }
      if LastToSet(all, key, id) {
        var j :| 0 <= j < |all| && SetsKey(all[j], key) && all[j].id == id
              && forall m | j < m < |all| :: !SetsKey(all[m], key);
        assert prior[j] == all[j];
        assert forall m | j < m < |prior| :: prior[m] == all[m];
      }
    }
  }

  lemma LastToEnterStep(prior: seq<Action>, a: Action, path: Path, id: Id)
    ensures LastToEnter(prior + [a], path, id) <==> if Enters(a, path) then id == a.id else LastToEnter(prior, path, id)
  {
    var all := prior + [a];
    assert all[|prior|] == a;
    if Enters(a, path) {
      assert Enters(all[|prior|], path);
    } else {
      if LastToEnter(prior, path, id) {
        var j :| 0 <= j < |prior| && Enters(prior[j], path) && prior[j].id == id
              && forall m | j < m < |prior| :: !Enters(prior[m], path);
        assert all[j] == prior[j];
      }
      if LastToEnter(all, path, id) {
        var j :| 0 <= j < |all| && Enters(all[j], path) && all[j].id == id
              && forall m | j < m < |all| :: !Enters(all[m], path);
        assert prior[j] == all[j];
        assert forall m | j < m < |prior| :: prior[m] == all[m];
      }
    }
  }

  /** The dependencies of one action, looked up in the three maps. */
  method RequiredBy(a: Action, createdBy: map<Path, Id>, environmentWriter: map<Key, Id>, cwdWriters: map<Path, Id>,
                    ghost prior: seq<Action>, ghost baseline: set<Path>)
    returns (dependencies: set<Id>)
    requires Tracks(createdBy, FileLog(prior), baseline)
    requires TracksKeys(environmentWriter, prior) && TracksDirectories(cwdWriters, prior)
    ensures forall id :: id in dependencies <==> Requires(prior, baseline, a, id)
  {
    dependencies := {};
    var all := InferResources(a).readSet;
    var rest := all;
    while rest != {}
      invariant rest <= all
      invariant forall id :: id in dependencies <==>
        exists r | r in all && r !in rest :: Provides(prior, baseline, a.cwdBefore, r, id)
    {
      var resource :| resource in rest;
      ghost var before, handled := dependencies, all - rest;
      match resource {
        case File(path) =>
          if path in createdBy { dependencies := dependencies + {createdBy[path]}; }
        case EnvironmentVariable(key) =>
          if key in environmentWriter { dependencies := dependencies + {environmentWriter[key]}; }
        case WorkingDirectory =>
          if a.cwdBefore in cwdWriters { dependencies := dependencies + {cwdWriters[a.cwdBefore]}; }
      }
      assert forall id :: id in dependencies <==> id in before || Provides(prior, baseline, a.cwdBefore, resource, id);
      rest := rest - {resource};
      assert forall r :: (r in all && r !in rest) <==> r in handled || r == resource;
    }
    forall id ensures id in dependencies <==> Uses(prior, baseline, a, id) { ReadsAre(prior, baseline, a, id); }
    if a.cwdBefore != "" && a.cwdBefore in cwdWriters {
      dependencies := dependencies + {cwdWriters[a.cwdBefore]};
    }
  }

  /** Position `i` is the last one that holds its id (the map keeps the last insertion). */
  ghost predicate Final(ordered: seq<Action>, i: nat)
    requires i < |ordered|
  {
    forall j | i < j < |ordered| :: ordered[j].id != ordered[i].id
  }

  ghost predicate Explains(g: Graph, ordered: seq<Action>, n: nat, baseline: set<Path>)
    requires n <= |ordered|
  {
    && (forall id :: id in g.hard <==> Recorded(ordered[..n], id))
    && g.accesses.Keys == g.hard.Keys
    && forall i | 0 <= i < n && Final(ordered[..n], i) ::
         && Accesses(ordered[i], g.accesses[ordered[i].id])
         && forall id :: id in g.hard[ordered[i].id] <==> Requires(ordered[..i], baseline, ordered[i], id)
  }

  /** Every edge of an inferred graph leads to the id of an action recorded earlier. */
  ghost predicate EdgesEarlier(g: Graph, ordered: seq<Action>) {
    forall i, id | 0 <= i < |ordered| && Final(ordered, i) && ordered[i].id in g.hard && id in g.hard[ordered[i].id] ::
      Recorded(ordered[..i], id)
  }

  lemma NothingTracked(baseline: set<Path>)
    ensures Tracks(map[], FileLog([]), baseline) && TracksKeys(map[], []) && TracksDirectories(map[], [])
    ensures forall ordered :: Explains(Graph(map[], map[]), ordered, 0, baseline)
  {}

  /** The match that closes the loop body. */
  method NoteAction(createdBy: map<Path, Id>, environmentWriter: map<Key, Id>, cwdWriters: map<Path, Id>,
                    action: Action, baseline: set<Path>, ghost prior: seq<Action>)
    returns (created: map<Path, Id>, environment: map<Key, Id>, directories: map<Path, Id>)
    requires Tracks(createdBy, FileLog(prior), baseline)
    requires TracksKeys(environmentWriter, prior) && TracksDirectories(cwdWriters, prior)
    ensures Tracks(created, FileLog(prior + [action]), baseline)
    ensures TracksKeys(environment, prior + [action]) && TracksDirectories(directories, prior + [action])
  {
    created, environment, directories := createdBy, environmentWriter, cwdWriters;
    WritersStep(prior, action);
    LogStep(prior, action);
    hide FileLog, Tracks, LastToSet, LastToEnter;
    match action.kind {
      case FilePatch(files) => created := NotePatch(createdBy, baseline, files, action.id, FileLog(prior));
      case SetEnvironment(key, _) => environment := environmentWriter[key := action.id];
      case UnsetEnvironment(key) => environment := environmentWriter[key := action.id];
      case ChangeDirectory(path) => directories := cwdWriters[path := action.id];
      case ShellCommand(_, _) =>
    }
  }

  lemma WritersStep(prior: seq<Action>, action: Action)
    ensures forall key, id :: LastToSet(prior + [action], key, id) <==>
      if SetsKey(action, key) then id == action.id else LastToSet(prior, key, id)
    ensures forall path, id :: LastToEnter(prior + [action], path, id) <==>
      if Enters(action, path) then id == action.id else LastToEnter(prior, path, id)
  {
    forall key, id ensures LastToSet(prior + [action], key, id) <==>
      if SetsKey(action, key) then id == action.id else LastToSet(prior, key, id)
    {
      LastToSetStep(prior, action, key, id);
    }
    forall path, id ensures LastToEnter(prior + [action], path, id) <==>
      if Enters(action, path) then id == action.id else LastToEnter(prior, path, id)
    {
      LastToEnterStep(prior, action, path, id);
    }
  }

  lemma LogStep(prior: seq<Action>, action: Action)
    ensures FileLog(prior + [action])
      == FileLog(prior) + match action.kind { case FilePatch(files) => PatchLog(files, action.id) case _ => [] }
    ensures !action.kind.FilePatch? ==> FileLog(prior + [action]) == FileLog(prior)
  {
    assert (prior + [action])[..|prior|] == prior;
  }

  method Infer(actions: seq<Action>, baseline: set<Path>) returns (g: Graph)
    ensures Explains(g, SortByOrder(actions), |SortByOrder(actions)|, baseline)
    ensures EdgesEarlier(g, SortByOrder(actions))
    ensures EdgesKnown(g, set a | a in actions :: a.id)
  {
    hide *;
    NothingTracked(baseline);
    var ordered := SortByOrder(actions);
    var createdBy: map<Path, Id>, environmentWriter: map<Key, Id>, cwdWriters: map<Path, Id> := map[], map[], map[];
    g := Graph(map[], map[]);
    for n := 0 to |ordered|
      invariant Tracks(createdBy, FileLog(ordered[..n]), baseline)
      invariant TracksKeys(environmentWriter, ordered[..n])
      invariant TracksDirectories(cwdWriters, ordered[..n])
      invariant Explains(g, ordered, n, baseline)
    {
      var action := ordered[n];
      var access := InferResources(action);
      var dependencies := RequiredBy(action, createdBy, environmentWriter, cwdWriters, ordered[..n], baseline);
      ghost var before := g;
      g := Graph(g.hard[action.id := dependencies], g.accesses[action.id := access]);
      ReadsAre(ordered[..n], baseline, action, action.id);
      ExplainsStep(before, g, ordered, n, baseline, dependencies, access);
      createdBy, environmentWriter, cwdWriters :=
        NoteAction(createdBy, environmentWriter, cwdWriters, action, baseline, ordered[..n]);
      assert ordered[..n + 1] == ordered[..n] + [action];
    }
    assert ordered[..|ordered|] == ordered;
    ExplainedEdges(g, actions, baseline);
  }

  lemma RecordedStep(prior: seq<Action>, a: Action, id: Id)
    ensures Recorded(prior + [a], id) <==> Recorded(prior, id) || id == a.id
  {
    var all := prior + [a];
    assert all[|prior|] == a;
    if j :| 0 <= j < |prior| && prior[j].id == id {
      assert all[j].id == id;
    }
    if j :| 0 <= j < |all| && all[j].id == id {
      assert j == |prior| || prior[j].id == id;
    }
  }

  lemma FinalStep(prior: seq<Action>, a: Action, i: nat)
    requires i < |prior| && Final(prior + [a], i)
    ensures Final(prior, i) && prior[i].id != a.id
  {
    var all := prior + [a];
    assert all[|prior|].id != all[i].id;
    assert forall j | i < j < |prior| :: prior[j] == all[j];
  }

  lemma ExplainsStep(before: Graph, g: Graph, ordered: seq<Action>, n: nat, baseline: set<Path>, dependencies: set<Id>, access: ResourceAccess)
    requires n < |ordered| && Explains(before, ordered, n, baseline) && Accesses(ordered[n], access)
    requires forall id :: id in dependencies <==> Requires(ordered[..n], baseline, ordered[n], id)
    requires g == Graph(before.hard[ordered[n].id := dependencies], before.accesses[ordered[n].id := access])
    ensures Explains(g, ordered, n + 1, baseline)
  {
    hide Requires, Accesses, Recorded, Final;
    var prior, all := ordered[..n], ordered[..n + 1];
    assert all == prior + [ordered[n]];
    forall id ensures id in g.hard <==> Recorded(all, id) {
      RecordedStep(prior, ordered[n], id);
    }
    forall i | 0 <= i < n && Final(all, i)
      ensures Final(prior, i) && ordered[i].id != ordered[n].id
    {
      FinalStep(prior, ordered[n], i);
    }
  }

  lemma ExplainedEdges(g: Graph, actions: seq<Action>, baseline: set<Path>)
    requires Explains(g, SortByOrder(actions), |SortByOrder(actions)|, baseline)
    ensures EdgesEarlier(g, SortByOrder(actions))
    ensures EdgesKnown(g, set a | a in actions :: a.id)
  {
    var ordered := SortByOrder(actions);
    assert ordered[..|ordered|] == ordered;
    forall i, id | 0 <= i < |ordered| && Final(ordered, i) && ordered[i].id in g.hard && id in g.hard[ordered[i].id]
      ensures Recorded(ordered[..i], id)
    {
      RequiresEarlier(ordered[..i], baseline, ordered[i], id);
    }
    SortKeeps(actions);
    var known := set a | a in actions :: a.id;
    forall a, id | a in known && id in DependenciesOf(g, a) ensures id in known {
      assert Recorded(ordered, a);
      var i := LastIndex(ordered, a);
      var j :| 0 <= j < i && ordered[..i][j].id == id;
      assert ordered[j] in multiset(actions);
    }
  }

  lemma {:induction false} LastIndex(ordered: seq<Action>, id: Id) returns (i: nat)
    requires Recorded(ordered, id)
    ensures i < |ordered| && ordered[i].id == id && Final(ordered, i)
  {
    i :| i < |ordered| && ordered[i].id == id;
    while !Final(ordered, i)
      invariant i < |ordered| && ordered[i].id == id
      decreases |ordered| - i
    {
      var later :| i < later < |ordered| && ordered[later].id == id;
      i := later;
    }
  }
}
