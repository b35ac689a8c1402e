/** Snapshots of a project as trees: how two of them differ (src/domain/snapshot.rs), the file patch recorded
    for the difference (src/recorder/patch.rs), and its replay (src/replay/executor.rs). */
module Patch {
  import opened Common

  type Path = seq<string>

  /** What `read_to_string` accepts, or not. */
  datatype Content = Text(text: string) | Binary(bytes: seq<Byte>)

  datatype Entry = Dir(mode: nat) | File(content: Content, mode: nat) | Symlink(target: string, mode: nat)

  /** Paths relative to the root, which is not listed. */
  type Tree = map<Path, Entry>

  datatype Replacement = Replacement(path: Path, content: Option<string>, unixMode: Option<nat>)

  datatype PatchError = NonReplayable | NotUtf8 | UnsafePath | NotADirectory | IsADirectory

  datatype Delta = Delta(created: seq<Path>, deleted: seq<Path>, contentModified: seq<Path>, permissionModified: seq<Path>)

  /** The modes the environment gives to what a patch creates. */
  const NEW_DIR_MODE: nat := 493
  const NEW_FILE_MODE: nat := 420

  /** Nothing lies below anything but a directory. */
  ghost predicate WellFormed(tree: Tree) {
    && [] !in tree
    && forall p | p in tree && |p| > 1 :: p[..|p| - 1] in tree && tree[p[..|p| - 1]].Dir?
  }

  lemma {:induction false} Ancestors(tree: Tree, q: Path, p: Path)
    requires WellFormed(tree) && p in tree && q < p && q != []
    ensures q in tree && tree[q].Dir?
    decreases |p|
  {
    var parent := p[..|p| - 1];
    if q != parent {
      Ancestors(tree, q, parent);
    }
  }

  function RegularFiles(tree: Tree): Tree { map p | p in tree && tree[p].File? :: tree[p] }

  // ---- the difference ----

  predicate ContentDiffers(a: Entry, b: Entry) {
    match (a, b)
    case (Dir(_), Dir(_)) => false
    case (File(x, _), File(y, _)) => x != y
    case (Symlink(x, _), Symlink(y, _)) => x != y
    case _ => true
  }

  /** Two entries differ in content exactly if more than their modes would have to be made equal. */
  lemma DiffersExactly(a: Entry, b: Entry)
    ensures ContentDiffers(a, b) <==> a.(mode := b.mode) != b
  {}

  /** `order` walks the paths of both trees, each once. */
  ghost predicate Walks(order: seq<Path>, before: Tree, after: Tree) {
    Distinct(order) && forall p :: p in order <==> p in before || p in after
  }

  /** The members of a set in that order. */
  function Listed(order: seq<Path>, members: set<Path>): seq<Path> {
    if order == [] then []
    else
      var front, last := Listed(order[..|order| - 1], members), order[|order| - 1];
      if last in members then front + [last] else front
  }

  lemma {:induction false} ListedMembers(order: seq<Path>, members: set<Path>)
    requires Distinct(order)
    ensures Distinct(Listed(order, members))
    ensures forall p :: p in Listed(order, members) <==> p in order && p in members
  {
    if order != [] {
      var front, last := order[..|order| - 1], order[|order| - 1];
      assert order == front + [last];
      ListedMembers(front, members);
      DistinctSnoc(Listed(front, members), last);
      DistinctSnoc(front, last);
    }
  }

  function Created(before: Tree, after: Tree): set<Path> { after.Keys - before.Keys }

  function ContentModified(before: Tree, after: Tree): set<Path> {
    set p | p in before && p in after && ContentDiffers(before[p], after[p])
  }

  function ModeModified(before: Tree, after: Tree): set<Path> {
    set p | p in before && p in after && before[p].mode != after[p].mode
  }

  function Changed(before: Tree, after: Tree): set<Path> {
    Created(before, after) + ContentModified(before, after) + ModeModified(before, after)
  }

  /** Path by path: created, modified in content, modified in mode; together, whatever is there and is not the same. */
  lemma ChangesAre(before: Tree, after: Tree, p: Path)
    ensures p in Created(before, after) <==> p !in before && p in after
    ensures p in ContentModified(before, after) <==> p in before && p in after && before[p].(mode := after[p].mode) != after[p]
    ensures p in ModeModified(before, after) <==> p in before && p in after && before[p].mode != after[p].mode
    ensures p in Changed(before, after) <==> p in after && !(p in before && before[p] == after[p])
  {
    if p in before && p in after { DiffersExactly(before[p], after[p]); }
  }

  method Diff(before: Tree, after: Tree, order: seq<Path>) returns (delta: Delta)
    ensures delta.created == Listed(order, Created(before, after)) && delta.deleted == Listed(order, Created(after, before))
    ensures delta.contentModified == Listed(order, ContentModified(before, after))
    ensures delta.permissionModified == Listed(order, ModeModified(before, after))
  {
    var contentModified: seq<Path>, permissionModified: seq<Path> := [], [];
    for i := 0 to |order|
      invariant contentModified == Listed(order[..i], ContentModified(before, after))
      invariant permissionModified == Listed(order[..i], ModeModified(before, after))
    {
      var path := order[i];
      assert order[..i + 1][..i] == order[..i];
      if path in before && path in after {
        if ContentDiffers(before[path], after[path]) { contentModified := contentModified + [path]; }
        if before[path].mode != after[path].mode { permissionModified := permissionModified + [path]; }
      }
    }
    assert order[..|order|] == order;
    delta := Delta(Listed(order, Created(before, after)), Listed(order, Created(after, before)), contentModified, permissionModified);
  }

  predicate HasSameContent(a: Tree, b: Tree) {
    |a| == |b| && forall p | p in a :: p in b && !ContentDiffers(a[p], b[p])
  }

  /** Equal counts and one-way agreement are agreement: same content is no creation, deletion or modification. */
  lemma SameContentExactly(before: Tree, after: Tree)
    ensures HasSameContent(before, after)
      <==> Created(before, after) == {} && Created(after, before) == {} && ContentModified(before, after) == {}
  {
    assert |before| == |before.Keys| && |after| == |after.Keys|;
    if HasSameContent(before, after) {
      if before.Keys < after.Keys { ProperSubsetSmaller(before.Keys, after.Keys); }
      assert before.Keys == after.Keys;
    } else if Created(before, after) == {} && Created(after, before) == {} {
      assert before.Keys == after.Keys;
      var p :| p in before && ContentDiffers(before[p], after[p]);
      assert p in ContentModified(before, after);
    }
  }

  /** It is an equivalence. */
  lemma SameContentIsEquivalence(a: Tree, b: Tree, c: Tree)
    ensures HasSameContent(a, a)
    ensures HasSameContent(a, b) ==> HasSameContent(b, a)
    ensures HasSameContent(a, b) && HasSameContent(b, c) ==> HasSameContent(a, c)
  {
    SameContentExactly(a, b);
  }

  // ---- the patch ----

  function Written(before: Tree, after: Tree): set<Path> { set p | p in Changed(before, after) && after[p].File? }

  function Dropped(before: Tree, after: Tree): set<Path> { set p | p in before && p !in after && !before[p].Symlink? }

  predicate Replaceable(entry: Entry) { entry.Dir? || (entry.File? && entry.content.Text?) }

  function Problem(entry: Entry): PatchError { if entry.Symlink? then NonReplayable else NotUtf8 }

  function FirstProblem(after: Tree, paths: seq<Path>): Option<PatchError>
    requires forall p | p in paths :: p in after
  {
    if paths == [] then None
    else
      var front, last := paths[..|paths| - 1], after[paths[|paths| - 1]];
      match FirstProblem(after, front)
      case Some(e) => Some(e)
      case None => if Replaceable(last) then None else Some(Problem(last))
  }

  function Write(after: Tree, p: Path): Replacement
    requires p in after && after[p].File? && after[p].content.Text?
  {
    Replacement(p, Some(after[p].content.text), Some(after[p].mode))
  }

  predicate Restorable(after: Tree, paths: seq<Path>) {
    forall p | p in paths :: p in after && after[p].File? && after[p].content.Text?
  }

  function Writes(after: Tree, paths: seq<Path>): (r: seq<Replacement>)
    requires Restorable(after, paths)
    ensures |r| == |paths| && forall i | 0 <= i < |r| :: r[i] == Write(after, paths[i])
  {
    seq(|paths|, i requires 0 <= i < |paths| => Write(after, paths[i]))
  }

  function Deletes(paths: seq<Path>): (r: seq<Replacement>)
    ensures |r| == |paths| && forall i | 0 <= i < |r| :: r[i] == Replacement(paths[i], None, None)
  {
    seq(|paths|, i requires 0 <= i < |paths| => Replacement(paths[i], None, None))
  }

  predicate AllReplaceable(before: Tree, after: Tree) { forall p | p in Changed(before, after) :: Replaceable(after[p]) }

  function Replacements(before: Tree, after: Tree, order: seq<Path>): seq<Replacement>
    requires Walks(order, before, after) && AllReplaceable(before, after)
  {
    ListedMembers(order, Written(before, after));
    Writes(after, Listed(order, Written(before, after))) + Deletes(Listed(order, Dropped(before, after)))
  }

  lemma {:induction false} FirstProblemExactly(after: Tree, paths: seq<Path>)
    requires forall p | p in paths :: p in after
    ensures FirstProblem(after, paths).None? <==> forall p | p in paths :: Replaceable(after[p])
  {
    if paths != [] {
      var front, last := paths[..|paths| - 1], paths[|paths| - 1];
      assert paths == front + [last];
      FirstProblemExactly(after, front);
    }
  }

  /** The first changed path that is neither a directory nor a text file is the problem: a symbolic link cannot be
      replayed, a file that is no text not be written down. */
  lemma {:induction false} FirstProblemIs(after: Tree, paths: seq<Path>, i: nat)
    requires (forall p | p in paths :: p in after) && i < |paths|
    requires forall k | 0 <= k < i :: after[paths[k]].Dir? || (after[paths[k]].File? && after[paths[k]].content.Text?)
    ensures after[paths[i]].Symlink? ==> FirstProblem(after, paths) == Some(NonReplayable)
    ensures after[paths[i]].File? && after[paths[i]].content.Binary? ==> FirstProblem(after, paths) == Some(NotUtf8)
  {
    assert forall p | p in paths[..i] :: p in paths;
    FirstProblemExactly(after, paths[..i]);
    if after[paths[i]].Symlink? || (after[paths[i]].File? && after[paths[i]].content.Binary?) { FirstStays(after, paths, i); }
  }

  lemma ChangedListed(order: seq<Path>, before: Tree, after: Tree)
    requires Walks(order, before, after)
    ensures forall p :: p in Listed(order, Changed(before, after)) <==> p in Changed(before, after)
    ensures forall p | p in Listed(order, Changed(before, after)) :: p in after
  {
    ListedMembers(order, Changed(before, after));
  }

  lemma ListedSnoc(order: seq<Path>, last: Path, members: set<Path>)
    ensures Listed(order + [last], members) == if last in members then Listed(order, members) + [last] else Listed(order, members)
  {
    assert (order + [last])[..|order|] == order;
  }

  lemma {:induction false} ListedTwice(order: seq<Path>, outer: set<Path>, inner: set<Path>)
    requires inner <= outer
    ensures Listed(Listed(order, outer), inner) == Listed(order, inner)
  {
    if order != [] {
      var front, last := order[..|order| - 1], order[|order| - 1];
      ListedTwice(front, outer, inner);
      if last in outer { ListedSnoc(Listed(front, outer), last, inner); }
    }
  }

  lemma WritesSnoc(after: Tree, paths: seq<Path>, last: Path)
    requires Restorable(after, paths) && last in after && after[last].File? && after[last].content.Text?
    ensures Restorable(after, paths + [last]) && Writes(after, paths + [last]) == Writes(after, paths) + [Write(after, last)]
  {}

  lemma DeletesSnoc(paths: seq<Path>, last: Path)
    ensures Deletes(paths + [last]) == Deletes(paths) + [Replacement(last, None, None)]
  {}

  /** The patch, or the first changed path that a patch cannot restore. */
  method ReplacementsBetween(before: Tree, after: Tree, order: seq<Path>) returns (r: Result<seq<Replacement>, PatchError>)
    requires Walks(order, before, after)
    ensures r.Ok? <==> AllReplaceable(before, after)
    ensures r.Ok? ==> r.value == Replacements(before, after, order)
    ensures forall p | p in Listed(order, Changed(before, after)) :: p in after
    ensures r.Err? ==> FirstProblem(after, Listed(order, Changed(before, after))) == Some(r.error)
  {
    var delta := Diff(before, after, order);
    var paths := Listed(order, Changed(before, after));
    var replacements := RestoreChanged(before, after, paths, order);
    ChangedListed(order, before, after);
    FirstProblemExactly(after, paths);
    match replacements {
      case Err(error) => return Err(error);
      case Ok(writes) =>
        var deletes := DeleteDropped(before, after, delta.deleted, order);
        r := Ok(writes + deletes);
    }
  }

  /** The loop over the changed paths. */
  method RestoreChanged(before: Tree, after: Tree, paths: seq<Path>, ghost order: seq<Path>) returns (r: Result<seq<Replacement>, PatchError>)
    requires Walks(order, before, after) && paths == Listed(order, Changed(before, after))
    ensures forall p | p in paths :: p in after
    ensures r.Err? ==> FirstProblem(after, paths) == Some(r.error)
    ensures r.Ok? ==> FirstProblem(after, paths) == None
    ensures r.Ok? ==> Restorable(after, Listed(order, Written(before, after)))
    ensures r.Ok? ==> r.value == Writes(after, Listed(order, Written(before, after)))
  {
    ChangedListed(order, before, after);
    ListedTwice(order, Changed(before, after), Written(before, after));
    ghost var wanted := Written(before, after);
    assert forall p | p in Changed(before, after) :: p in wanted <==> after[p].File?;
    hide Changed, Written, Listed, FirstProblem, Restorable, Walks;
    var replacements: seq<Replacement> := [];
    EmptyLists(after, wanted);
    for i := 0 to |paths|
      invariant FirstProblem(after, paths[..i]) == None
      invariant Restorable(after, Listed(paths[..i], wanted)) && replacements == Writes(after, Listed(paths[..i], wanted))
    {
      var path := paths[i];
      assert paths[..i + 1] == paths[..i] + [path];
      assert path in paths && path in Changed(before, after);
      ListedSnoc(paths[..i], path, wanted);
      FirstSnoc(after, paths[..i], path);
      match after[path] {
        case File(Text(text), mode) =>
          WritesSnoc(after, Listed(paths[..i], wanted), path);
          replacements := replacements + [Replacement(path, Some(text), Some(mode))];
        case File(Binary(_), _) => FirstStays(after, paths, i); return Err(NotUtf8);
        case Dir(_) =>
        case Symlink(_, _) => FirstStays(after, paths, i); return Err(NonReplayable);
      }
    }
    assert paths[..|paths|] == paths;
    r := Ok(replacements);
  }

  lemma EmptyLists(after: Tree, members: set<Path>)
    ensures FirstProblem(after, []) == None && Restorable(after, Listed([], members)) && Writes(after, Listed([], members)) == []
  {}

  lemma FirstSnoc(after: Tree, paths: seq<Path>, last: Path)
    requires forall p | p in paths + [last] :: p in after
    ensures (forall p | p in paths :: p in after) && last in after
    ensures FirstProblem(after, paths) == None && Replaceable(after[last]) ==> FirstProblem(after, paths + [last]) == None
  {
    assert (paths + [last])[..|paths|] == paths;
    assert forall p | p in paths :: p in paths + [last];
    assert last in paths + [last];
  }

  lemma {:induction false} FirstStays(after: Tree, paths: seq<Path>, i: nat)
    requires i < |paths| && forall p | p in paths :: p in after
    requires FirstProblem(after, paths[..i]) == None && !Replaceable(after[paths[i]])
    ensures FirstProblem(after, paths) == Some(Problem(after[paths[i]]))
    decreases |paths|
  {
    var front := paths[..|paths| - 1];
    if i < |front| {
      assert front[..i] == paths[..i];
      FirstStays(after, front, i);
    } else {
      assert front == paths[..i];
    }
  }

  /** The loop over the deleted paths: symbolic links stay. */
  method DeleteDropped(before: Tree, after: Tree, deleted: seq<Path>, ghost order: seq<Path>) returns (replacements: seq<Replacement>)
    requires Walks(order, before, after) && deleted == Listed(order, Created(after, before))
    ensures replacements == Deletes(Listed(order, Dropped(before, after)))
  {
    ListedMembers(order, Created(after, before));
    ghost var wanted := Dropped(before, after);
    replacements := [];
    for i := 0 to |deleted|
      invariant replacements == Deletes(Listed(deleted[..i], wanted))
    {
      var path := deleted[i];
      assert deleted[..i + 1][..i] == deleted[..i] && deleted[..i + 1][i] == path;
      assert path in deleted;
      if path in before && !before[path].Symlink? {
        DeletesSnoc(Listed(deleted[..i], wanted), path);
        replacements := replacements + [Replacement(path, None, None)];
      }
    }
    assert deleted[..|deleted|] == deleted;
    ListedTwice(order, Created(after, before), wanted);
  }

  // ---- the replay ----

  datatype Metadata = Found(entry: Entry) | NotFound | BelowFile

  /** `symlink_metadata`, for a path with no symbolic link above it. */
  function Stat(tree: Tree, path: Path): Metadata {
    if exists q | q in tree :: q < path && tree[q].File? then BelowFile
    else if path in tree then Found(tree[path])
    else NotFound
  }

  /** `safe_write_path` from the component `k` on. */
  function RefusalFrom(tree: Tree, path: Path, k: nat): Option<PatchError>
    requires 1 <= k <= |path| + 1
    decreases |path| + 1 - k
  {
    if k > |path| then None
    else
      match Stat(tree, path[..k])
      case Found(Symlink(_, _)) => Some(UnsafePath)
      case BelowFile => Some(NotADirectory)
      case _ => RefusalFrom(tree, path, k + 1)
  }

  function Refusal(tree: Tree, path: Path): Option<PatchError> { RefusalFrom(tree, path, 1) }

  /** No symbolic link on the way, and no file above. */
  ghost predicate Clear(tree: Tree, path: Path) {
    forall q | q in tree && q <= path && q != [] :: !tree[q].Symlink? && (q < path ==> !tree[q].File?)
  }

  lemma {:induction false} RefusalFromExactly(tree: Tree, path: Path, k: nat)
    requires 1 <= k <= |path| + 1 && [] !in tree
    requires forall q | q in tree && q <= path && |q| < k :: !tree[q].Symlink?
    requires forall q | q in tree && q < path && |q| < k - 1 :: !tree[q].File?
    ensures RefusalFrom(tree, path, k) == None <==> Clear(tree, path)
    decreases |path| + 1 - k
  {
    if k <= |path| {
      var c := path[..k];
      if Stat(tree, c).BelowFile? {
        var q :| q in tree && q < c && tree[q].File?;
        assert q < path;
      } else if !(c in tree && tree[c].Symlink?) {
        forall q | q in tree && q <= path && |q| < k + 1 ensures !tree[q].Symlink? {
          if |q| == k { assert q == c; }
        }
        forall q | q in tree && q < path && |q| < k ensures !tree[q].File? {
          if |q| == k - 1 {
            assert q < c;
          }
        }
        RefusalFromExactly(tree, path, k + 1);
      }
    } else {
      forall q | q in tree && q <= path && q != [] ensures !tree[q].Symlink? && (q < path ==> !tree[q].File?) {}
    }
  }

  /** A refused path is unsafe exactly if it is a symbolic link that comes first on the way, and otherwise runs into a file. */
  lemma {:induction false} RefusalIs(tree: Tree, path: Path, k: nat)
    requires 1 <= k <= |path| + 1
    ensures RefusalFrom(tree, path, k) in {None, Some(UnsafePath), Some(NotADirectory)}
    ensures RefusalFrom(tree, path, k) == Some(UnsafePath) ==>
      exists j :: k <= j <= |path| && path[..j] in tree && tree[path[..j]].Symlink?
                  && (forall q | q in tree && q < path[..j] :: !tree[q].File?)
                  && (forall i | k <= i < j && path[..i] in tree :: !tree[path[..i]].Symlink?)
    ensures RefusalFrom(tree, path, k) == Some(NotADirectory) ==>
      exists q :: q in tree && q < path && tree[q].File? && (forall i | k <= i <= |q| && path[..i] in tree :: !tree[path[..i]].Symlink?)
    decreases |path| + 1 - k
  {
    if k <= |path| {
      var c := path[..k];
      if Stat(tree, c).BelowFile? {
        var q :| q in tree && q < c && tree[q].File?;
        assert q < path;
      } else if c in tree && tree[c].Symlink? {
        assert path[..k] in tree && tree[path[..k]].Symlink?;
      } else {
        RefusalIs(tree, path, k + 1);
      }
    }
  }

  predicate IsDirectory(tree: Tree, path: Path) {
    path == [] || (match Stat(tree, path) { case Found(Dir(_)) => true case _ => false })
  }

  function Parents(path: Path): set<Path> { set k | 1 <= k < |path| :: path[..k] }

  /** `create_dir_all` of the parent. */
  function WithParents(tree: Tree, path: Path): Tree {
    map p | p in tree.Keys + Parents(path) :: if p in tree then tree[p] else Dir(NEW_DIR_MODE)
  }

  function ModeAfter(tree: Tree, r: Replacement): nat {
    if r.unixMode.Some? then r.unixMode.value else if r.path in tree then tree[r.path].mode else NEW_FILE_MODE
  }

  function Without(tree: Tree, path: Path): Tree { map p | p in tree && !(path <= p) :: tree[p] }

  function Applied(tree: Tree, r: Replacement): Result<Tree, PatchError> {
    match Refusal(tree, r.path)
    case Some(e) => Err(e)
    case None =>
      match r.content
      case Some(text) =>
        if IsDirectory(tree, r.path) then Err(IsADirectory)
        else Ok(WithParents(tree, r.path)[r.path := File(Text(text), ModeAfter(tree, r))])
      case None =>
        if IsDirectory(tree, r.path) then Ok(Without(tree, r.path))
        else Ok(tree - {r.path})
  }

  /** The replacements in turn, up to the first that fails. */
  function Patched(tree: Tree, rs: seq<Replacement>): (Tree, Option<PatchError>) {
    if rs == [] then (tree, None)
    else
      var (t, failed) := Patched(tree, rs[..|rs| - 1]);
      if failed.Some? then (t, failed)
      else
        match Applied(t, rs[|rs| - 1])
        case Ok(t') => (t', None)
        case Err(e) => (t, Some(e))
  }

  class Workspace {
    var tree: Tree

    constructor (tree: Tree)
      ensures this.tree == tree
    {
      this.tree := tree;
    }

    method SafeWritePath(path: Path) returns (refusal: Option<PatchError>)
      ensures refusal == Refusal(tree, path)
    {
      var k := 1;
      while k <= |path|
        invariant 1 <= k <= |path| + 1 && Refusal(tree, path) == RefusalFrom(tree, path, k)
      {
        match Stat(tree, path[..k]) {
          case Found(Symlink(_, _)) => return Some(UnsafePath);
          case BelowFile => return Some(NotADirectory);
          case _ =>
        }
        k := k + 1;
      }
      refusal := None;
    }

    method ApplyFileReplacement(r: Replacement) returns (failed: Option<PatchError>)
      modifies this
      ensures match Applied(old(tree), r) {
        case Ok(t) => tree == t && failed == None
        case Err(e) => tree == old(tree) && failed == Some(e)
      }
    {
      var refusal := SafeWritePath(r.path);
      if refusal.Some? { return refusal; }
      var directory := IsDirectory(tree, r.path);
      match r.content {
        case Some(text) =>
          if directory { return Some(IsADirectory); }
          var mode := ModeAfter(tree, r);
          tree := WithParents(tree, r.path);
          tree := tree[r.path := File(Text(text), mode)];
        case None =>
          if directory { tree := Without(tree, r.path); } else { tree := tree - {r.path}; }
      }
      failed := None;
    }

    /** A recorded file patch, replayed. */
    method Replay(files: seq<Replacement>) returns (failed: Option<PatchError>)
      modifies this
      ensures (tree, failed) == Patched(old(tree), files)
    {
      failed := None;
      for i := 0 to |files|
        invariant failed == None && (tree, failed) == Patched(old(tree), files[..i])
      {
        assert files[..i + 1][..i] == files[..i];
        failed := ApplyFileReplacement(files[i]);
        if failed.Some? {
          FailureStays(old(tree), files, i + 1);
          return;
        }
      }
      assert files[..|files|] == files;
    }
  }

  lemma {:induction false} FailureStays(tree: Tree, rs: seq<Replacement>, i: nat)
    requires i <= |rs| && Patched(tree, rs[..i]).1.Some?
    ensures Patched(tree, rs) == Patched(tree, rs[..i])
    decreases |rs|
  {
    if i < |rs| {
      var front := rs[..|rs| - 1];
      assert front[..i] == rs[..i];
      FailureStays(tree, front, i);
    } else {
      assert rs[..i] == rs;
    }
  }
}
