/** What replaying a recorded file patch restores, and exactly when: the patch between two trees against
    `apply_file_replacement`. */
module PatchReplay {
  import opened Common
  import opened Patch

  /** No path that both trees have changes between file and directory, no symbolic link makes way for a file or
      for a directory with a file below. */
  ghost predicate KindsKept(before: Tree, after: Tree) {
    forall p | p in before && p in after ::
      && (before[p].File? ==> !after[p].Dir?)
      && (before[p].Dir? ==> !after[p].File?)
      && (before[p].Symlink? ==> !after[p].File? && (after[p].Dir? ==> !HoldsFile(after, p)))
  }

  ghost predicate HoldsFile(tree: Tree, p: Path) { exists f :: f in tree && p < f && tree[f].File? }

  // ---- one replacement ----

  lemma RefusalExactly(tree: Tree, path: Path)
    requires [] !in tree
    ensures Refusal(tree, path) == None <==> Clear(tree, path)
  {
    RefusalFromExactly(tree, path, 1);
  }

  /** A write succeeds exactly on a clear path that is not a directory, and touches only the path and missing parents. */
  lemma WriteExactly(tree: Tree, r: Replacement)
    requires [] !in tree && r.path != [] && r.content.Some? && r.unixMode.Some?
    ensures Applied(tree, r).Ok? <==> Clear(tree, r.path) && !(r.path in tree && tree[r.path].Dir?)
    ensures Clear(tree, r.path) && Applied(tree, r).Err? ==> Applied(tree, r).error == IsADirectory
    ensures var t := WithParents(tree, r.path)[r.path := File(Text(r.content.value), r.unixMode.value)];
      Applied(tree, r).Ok? ==> Applied(tree, r).value == t
  {
    RefusalExactly(tree, r.path);
    if Clear(tree, r.path) { ClearStat(tree, r.path); }
    hide Refusal, Clear, Stat;
  }

  lemma ClearStat(tree: Tree, path: Path)
    requires Clear(tree, path) && [] !in tree
    ensures Stat(tree, path) == if path in tree then Found(tree[path]) else NotFound
  {}

  /** A deletion on a clear path takes the path and everything below a directory. */
  lemma DeleteExactly(tree: Tree, path: Path)
    requires [] !in tree && path != [] && Clear(tree, path)
    ensures Applied(tree, Replacement(path, None, None))
      == Ok(if path in tree && tree[path].Dir? then Without(tree, path) else tree - {path})
  {
    RefusalExactly(tree, path);
    ClearStat(tree, path);
    hide Refusal, Clear, Stat;
  }

  /** Entry by entry: a write puts the text under its path, with the mode that it carries or else the one that was
      there or that new files get; makes the directories that are missing above; and leaves all else as it is. */
  lemma WriteTouches(tree: Tree, r: Replacement, q: Path)
    requires [] !in tree && r.path != [] && r.content.Some? && Applied(tree, r).Ok?
    ensures var t := Applied(tree, r).value; var fallback := if r.path in tree then tree[r.path].mode else NEW_FILE_MODE;
      && (q in t <==> q in tree || (q <= r.path && q != []))
      && (q == r.path ==> q in t && t[q] == File(Text(r.content.value), if r.unixMode.Some? then r.unixMode.value else fallback))
      && (q in t && q != r.path ==> t[q] == if q in tree then tree[q] else Dir(NEW_DIR_MODE))
  {
    ParentsAre(r.path, q);
    assert q <= r.path <==> q < r.path || q == r.path;
    hide Refusal, Stat;
  }

  /** A deletion takes what lies at the path; with a directory, all that lies below; and leaves all else as it is. */
  lemma DeleteTouches(tree: Tree, path: Path, q: Path)
    requires WellFormed(tree) && path != [] && Clear(tree, path)
    ensures Applied(tree, Replacement(path, None, None)).Ok?
    ensures var t := Applied(tree, Replacement(path, None, None)).value;
      (q in t <==> q in tree && !(path <= q)) && (q in t ==> t[q] == tree[q])
  {
    DeleteExactly(tree, path);
    hide Applied, Clear;
    assert path <= q <==> path < q || path == q;
    if q in tree && path < q { Ancestors(tree, path, q); }
  }

  lemma ParentsAre(path: Path, q: Path)
    ensures q in Parents(path) <==> q < path && q != []
  {
    if q < path && q != [] { assert q == path[..|q|]; }
  }

  // ---- the writes ----

  /** Part way through the writes: `written` holds the files restored so far, all else stands as before, apart
      from directories on the way to a restored file. */
  ghost predicate PartlyWritten(before: Tree, after: Tree, written: set<Path>, t: Tree) {
    && [] !in t
    && (forall p | p in written :: p in after && p in t && t[p] == after[p])
    && (forall p | p in before && p !in written :: p in t && t[p] == before[p])
    && (forall p | p in t && p !in written && p !in before :: t[p].Dir? && p in after && after[p].Dir?)
  }

  lemma WriteIsClear(before: Tree, after: Tree, written: set<Path>, t: Tree, w: Path)
    requires WellFormed(after) && KindsKept(before, after) && PartlyWritten(before, after, written, t)
    requires w in after && after[w].File? && w !in written && forall p | p in written :: p in after && after[p].File?
    ensures Clear(t, w) && !(w in t && t[w].Dir?)
  {
    forall q | q in t && q <= w && q != [] ensures !t[q].Symlink? && (q < w ==> !t[q].File?) && (q == w ==> !t[q].Dir?) {
      if q < w {
        Ancestors(after, q, w);
        assert q !in written && HoldsFile(after, q);
      } else {
        assert q == w;
      }
    }
  }

  lemma WrittenOne(before: Tree, after: Tree, written: set<Path>, t: Tree, w: Path)
    requires WellFormed(after) && KindsKept(before, after) && PartlyWritten(before, after, written, t)
    requires w in after && after[w].File? && after[w].content.Text? && w !in written
    requires forall p | p in written :: p in after && after[p].File?
    ensures Applied(t, Write(after, w)).Ok? && PartlyWritten(before, after, written + {w}, Applied(t, Write(after, w)).value)
  {
    WriteIsClear(before, after, written, t, w);
    WriteExactly(t, Write(after, w));
    hide Applied, Clear, KindsKept, WithParents, WellFormed, PartlyWritten;
    var t' := Applied(t, Write(after, w)).value;
    WrittenWhere(after, t, w, w);
    forall p | p in t ensures p in t' && (p != w ==> t'[p] == t[p]) { WrittenWhere(after, t, w, p); }
    forall p | p in t' && p !in t && p != w ensures p != [] && t'[p].Dir? && p in after && after[p].Dir? { WrittenWhere(after, t, w, p); }
    OneMore(before, after, written, t, t', w);
  }

  /** What a write does to one path, when the file is to be written as it is in `after`. */
  lemma WrittenWhere(after: Tree, t: Tree, w: Path, p: Path)
    requires WellFormed(after) && [] !in t && w in after && after[w].File? && after[w].content.Text? && Applied(t, Write(after, w)).Ok?
    ensures var t' := Applied(t, Write(after, w)).value;
      && (p in t ==> p in t') && (p == w ==> p in t' && t'[p] == after[p])
      && (p in t' && p != w ==> if p in t then t'[p] == t[p] else p != [] && t'[p].Dir? && p in after && after[p].Dir?)
  {
    assert after[w] == File(Text(after[w].content.text), after[w].mode);
    WriteTouches(t, Write(after, w), p);
    if p <= w && p != w && p != [] { Ancestors(after, p, w); }
    hide Applied, WellFormed;
  }

  lemma OneMore(before: Tree, after: Tree, written: set<Path>, t: Tree, t': Tree, w: Path)
    requires PartlyWritten(before, after, written, t) && w !in written && w != [] && w in t' && w in after && t'[w] == after[w]
    requires forall p | p in t :: p in t' && (p != w ==> t'[p] == t[p])
    requires forall p | p in t' && p !in t && p != w :: p != [] && t'[p].Dir? && p in after && after[p].Dir?
    ensures PartlyWritten(before, after, written + {w}, t')
  {}

  function Members(paths: seq<Path>): set<Path> { set p | p in paths }

  lemma PatchedSnoc(tree: Tree, rs: seq<Replacement>, last: Replacement)
    ensures Patched(tree, rs).1.None? ==>
      Patched(tree, rs + [last]) == match Applied(Patched(tree, rs).0, last) case Ok(t) => (t, None) case Err(e) => (Patched(tree, rs).0, Some(e))
    ensures Patched(tree, rs).1.Some? ==> Patched(tree, rs + [last]) == Patched(tree, rs)
  {
    assert (rs + [last])[..|rs|] == rs;
  }

  lemma RestorableFront(after: Tree, front: seq<Path>, last: Path)
    requires Restorable(after, front + [last])
    ensures Restorable(after, front) && Restorable(after, [last])
    ensures last in after && after[last].File? && after[last].content.Text?
    ensures forall p | p in Members(front) :: p in after && after[p].File?
  {
    assert forall p | p in front :: p in front + [last];
    assert last in front + [last];
  }

  lemma {:induction false} AllWritten(before: Tree, after: Tree, paths: seq<Path>)
    requires WellFormed(before) && WellFormed(after) && KindsKept(before, after)
    requires Distinct(paths) && Restorable(after, paths)
    ensures Patched(before, Writes(after, paths)).1.None?
    ensures PartlyWritten(before, after, Members(paths), Patched(before, Writes(after, paths)).0)
  {
    if paths == [] {
      NothingWritten(before, after);
    } else {
      var front, last := paths[..|paths| - 1], paths[|paths| - 1];
      assert paths == front + [last];
      DistinctSnoc(front, last);
      RestorableFront(after, front, last);
      hide Patched, PartlyWritten, WellFormed, KindsKept, Restorable, Distinct;
      AllWritten(before, after, front);
      WrittenNext(before, after, front, last);
    }
  }

  lemma NothingWritten(before: Tree, after: Tree)
    requires WellFormed(before)
    ensures Patched(before, Writes(after, [])) == (before, None) && PartlyWritten(before, after, Members([]), before)
  {}

  lemma WrittenNext(before: Tree, after: Tree, front: seq<Path>, last: Path)
    requires WellFormed(after) && KindsKept(before, after) && Restorable(after, front) && last !in front
    requires last in after && after[last].File? && after[last].content.Text?
    requires Patched(before, Writes(after, front)).1.None?
    requires PartlyWritten(before, after, Members(front), Patched(before, Writes(after, front)).0)
    ensures Restorable(after, front + [last]) && Patched(before, Writes(after, front + [last])).1.None?
    ensures PartlyWritten(before, after, Members(front + [last]), Patched(before, Writes(after, front + [last])).0)
  {
    var t := Patched(before, Writes(after, front)).0;
    assert Members(front + [last]) == Members(front) + {last};
    assert forall p | p in Members(front) :: p in after && after[p].File?;
    WritesSnoc(after, front, last);
    hide Patched, Applied, PartlyWritten, WellFormed, KindsKept, Restorable, Members, Writes, Write;
    WrittenOne(before, after, Members(front), t, last);
    PatchedSnoc(before, Writes(after, front), Write(after, last));
  }

  // ---- the deletions ----

  /** Part way through the deletions: the files of `after` stand, and what else is left is still to be deleted. */
  ghost predicate PartlyDeleted(before: Tree, after: Tree, deleted: set<Path>, t: Tree) {
    && [] !in t
    && (forall p | p in after && after[p].File? :: p in t && t[p] == after[p])
    && (forall p | p in t && p !in after :: p in before && t[p] == before[p] && p !in deleted)
    && (forall p | p in t && p in after && p in before :: t[p] == before[p] || (after[p].File? && t[p] == after[p]))
    && (forall p | p in t && p in after && p !in before :: t[p].Dir? || (after[p].File? && t[p] == after[p]))
  }

  lemma WritesDone(before: Tree, after: Tree, t: Tree)
    requires AllReplaceable(before, after) && PartlyWritten(before, after, Written(before, after), t)
    ensures PartlyDeleted(before, after, {}, t)
  {
    forall p | p in after && after[p].File? ensures p in t && t[p] == after[p] {
      if p !in Written(before, after) { assert p in before && before[p] == after[p]; }
    }
  }

  lemma DeletedOne(before: Tree, after: Tree, deleted: set<Path>, t: Tree, x: Path)
    requires WellFormed(before) && WellFormed(after) && KindsKept(before, after) && PartlyDeleted(before, after, deleted, t)
    requires x in before && x !in after && !before[x].Symlink?
    ensures var r := Applied(t, Replacement(x, None, None)); r.Ok? && PartlyDeleted(before, after, deleted + {x}, r.value)
  {
    forall q | q in t && q <= x && q != [] ensures !t[q].Symlink? && (q < x ==> !t[q].File?) {
      if q < x { Ancestors(before, q, x); } else { assert q == x; }
    }
    DeleteExactly(t, x);
    hide Applied;
    forall p | p in after && x <= p ensures false {
      if x != p { Ancestors(after, x, p); }
    }
  }

  lemma {:induction false} AllDeleted(before: Tree, after: Tree, t: Tree, paths: seq<Path>)
    requires WellFormed(before) && WellFormed(after) && KindsKept(before, after) && PartlyDeleted(before, after, {}, t)
    requires forall p | p in paths :: p in before && p !in after && !before[p].Symlink?
    ensures Patched(t, Deletes(paths)).1.None?
    ensures PartlyDeleted(before, after, Members(paths), Patched(t, Deletes(paths)).0)
  {
    if paths == [] {
      assert Members(paths) == {};
    } else {
      var front, last := paths[..|paths| - 1], paths[|paths| - 1];
      assert paths == front + [last];
      hide Patched, PartlyDeleted, WellFormed, KindsKept;
      AllDeleted(before, after, t, front);
      DeletedNext(before, after, t, front, last);
    }
  }

  lemma DeletedNext(before: Tree, after: Tree, t: Tree, front: seq<Path>, last: Path)
    requires WellFormed(before) && WellFormed(after) && KindsKept(before, after)
    requires last in before && last !in after && !before[last].Symlink?
    requires Patched(t, Deletes(front)).1.None? && PartlyDeleted(before, after, Members(front), Patched(t, Deletes(front)).0)
    ensures Patched(t, Deletes(front + [last])).1.None?
    ensures PartlyDeleted(before, after, Members(front + [last]), Patched(t, Deletes(front + [last])).0)
  {
    assert Members(front + [last]) == Members(front) + {last};
    DeletesSnoc(front, last);
    hide Patched, Applied, PartlyDeleted, WellFormed, KindsKept, Members, Deletes;
    DeletedOne(before, after, Members(front), Patched(t, Deletes(front)).0, last);
    PatchedSnoc(t, Deletes(front), Replacement(last, None, None));
  }

  lemma DeletesDone(before: Tree, after: Tree, t: Tree)
    requires KindsKept(before, after) && AllReplaceable(before, after) && PartlyDeleted(before, after, Dropped(before, after), t)
    ensures RegularFiles(t) == RegularFiles(after)
  {
    forall p | p in t && t[p].File? ensures p in after && after[p].File? && t[p] == after[p] {}
  }

  lemma {:induction false} PatchedAppend(tree: Tree, a: seq<Replacement>, b: seq<Replacement>)
    requires Patched(tree, a).1.None?
    ensures Patched(tree, a + b) == Patched(Patched(tree, a).0, b)
  {
    if b == [] {
      assert a + b == a;
    } else {
      assert (a + b)[..|a + b| - 1] == a + b[..|b| - 1];
      PatchedAppend(tree, a, b[..|b| - 1]);
    }
  }

  // ---- where it does not ----

  /** A write leaves every other path that is there as it is. */
  lemma WriteLeaves(tree: Tree, r: Replacement, q: Path)
    requires [] !in tree && r.path != [] && r.content.Some? && r.unixMode.Some? && q in tree && q != r.path && Applied(tree, r).Ok?
    ensures var t := Applied(tree, r).value; [] !in t && q in t && t[q] == tree[q]
  {
    WriteExactly(tree, r);
    ParentsAre(r.path, []);
  }

  lemma {:induction false} WritesLeave(before: Tree, after: Tree, paths: seq<Path>, q: Path)
    requires [] !in before && [] !in after && Restorable(after, paths) && q in before && q !in paths
    requires Patched(before, Writes(after, paths)).1.None?
    ensures var t := Patched(before, Writes(after, paths)).0; [] !in t && q in t && t[q] == before[q]
  {
    if paths != [] {
      var front, last := paths[..|paths| - 1], paths[|paths| - 1];
      assert paths == front + [last];
      RestorableFront(after, front, last);
      WritesSnoc(after, front, last);
      hide Restorable, Applied;
      PatchedSnoc(before, Writes(after, front), Write(after, last));
      WritesLeave(before, after, front, q);
      WriteLeaves(Patched(before, Writes(after, front)).0, Write(after, last), q);
    }
  }

  /** A write that meets a symbolic link on its way, or a directory at its end, is refused: the patch fails. */
  lemma WriteRefused(before: Tree, after: Tree, paths: seq<Path>, i: nat, q: Path)
    requires [] !in before && [] !in after && Restorable(after, paths) && i < |paths|
    requires q in before && q !in paths[..i] && q <= paths[i]
    requires before[q].Symlink? || (before[q].Dir? && q == paths[i])
    ensures Patched(before, Writes(after, paths)).1.Some?
  {
    var front, w := paths[..i], paths[i];
    assert paths[..i + 1] == front + [w];
    assert Restorable(after, paths[..i + 1]) by { assert forall p | p in paths[..i + 1] :: p in paths; }
    RestorableFront(after, front, w);
    WritesSnoc(after, front, w);
    assert Writes(after, paths)[..i + 1] == Writes(after, paths[..i + 1]);
    hide Restorable, Applied;
    if Patched(before, Writes(after, front)).1.None? {
      var t := Patched(before, Writes(after, front)).0;
      WritesLeave(before, after, front, q);
      WriteExactly(t, Write(after, w));
      assert !(Clear(t, w) && !(w in t && t[w].Dir?));
    }
    PatchedSnoc(before, Writes(after, front), Write(after, w));
    FailureStays(before, Writes(after, paths), i + 1);
  }

  /** A deletion leaves alone what `after` still has. */
  lemma DeleteLeaves(after: Tree, t: Tree, path: Path, q: Path)
    requires WellFormed(after) && q in after && q in t && path !in after && path != [] && Applied(t, Replacement(path, None, None)).Ok?
    ensures var t' := Applied(t, Replacement(path, None, None)).value; q in t' && t'[q] == t[q]
  {
    if path <= q && path != q { Ancestors(after, path, q); }
    hide Refusal, Stat, WellFormed;
  }

  lemma {:induction false} DeletesLeave(after: Tree, t: Tree, paths: seq<Path>, q: Path)
    requires WellFormed(after) && q in after && q in t && forall p | p in paths :: p !in after && p != []
    requires Patched(t, Deletes(paths)).1.None?
    ensures var t' := Patched(t, Deletes(paths)).0; q in t' && t'[q] == t[q]
  {
    if paths != [] {
      var front, last := paths[..|paths| - 1], paths[|paths| - 1];
      assert paths == front + [last];
      DeletesSnoc(front, last);
      PatchedSnoc(t, Deletes(front), Replacement(last, None, None));
      hide Patched, Applied, Deletes, WellFormed;
      DeletesLeave(after, t, front, q);
      DeleteLeaves(after, Patched(t, Deletes(front)).0, last, q);
    }
  }

  /** The write of a changed file meets what `q` was before. */
  lemma ChangedWriteRefused(before: Tree, after: Tree, order: seq<Path>, w: Path, q: Path)
    requires WellFormed(before) && WellFormed(after) && Walks(order, before, after) && AllReplaceable(before, after)
    requires w in Written(before, after) && q in before && q <= w && q != []
    requires before[q].Symlink? || (before[q].Dir? && q == w)
    requires q == w || q !in Written(before, after)
    ensures Patched(before, Replacements(before, after, order)).1.Some?
  {
    var paths := Listed(order, Written(before, after));
    ListedMembers(order, Written(before, after));
    assert w in paths;
    var i :| 0 <= i < |paths| && paths[i] == w;
    assert q !in paths[..i];
    WriteRefused(before, after, paths, i, q);
    var rs := Replacements(before, after, order);
    assert rs[..|paths|] == Writes(after, paths);
    FailureStays(before, rs, |paths|);
  }

  /** A file that gives way to a directory is not in the patch, and stays. */
  lemma FileStays(before: Tree, after: Tree, order: seq<Path>, q: Path)
    requires WellFormed(before) && WellFormed(after) && Walks(order, before, after) && AllReplaceable(before, after)
    requires q in before && q in after && before[q].File? && after[q].Dir?
    ensures var (t, failed) := Patched(before, Replacements(before, after, order));
      failed.Some? || RegularFiles(t) != RegularFiles(after)
  {
    var written, dropped := Listed(order, Written(before, after)), Listed(order, Dropped(before, after));
    ListedMembers(order, Written(before, after));
    ListedMembers(order, Dropped(before, after));
    var rs := Replacements(before, after, order);
    assert rs[..|written|] == Writes(after, written);
    if Patched(before, rs).1.None? {
      if Patched(before, Writes(after, written)).1.Some? { FailureStays(before, rs, |written|); }
      WritesLeave(before, after, written, q);
      PatchedAppend(before, Writes(after, written), Deletes(dropped));
      var t := Patched(before, Writes(after, written)).0;
      DeletesLeave(after, t, dropped, q);
      assert q in RegularFiles(Patched(before, rs).0) && q !in RegularFiles(after);
    }
  }

  // ---- exactly when it does ----

  lemma ReplacementsAre(before: Tree, after: Tree, order: seq<Path>)
    requires Walks(order, before, after) && AllReplaceable(before, after)
    ensures var written, dropped := Listed(order, Written(before, after)), Listed(order, Dropped(before, after));
      && Members(written) == Written(before, after) && Members(dropped) == Dropped(before, after)
      && Distinct(written) && Restorable(after, written)
      && (forall p | p in dropped :: p in before && p !in after && !before[p].Symlink?)
      && Replacements(before, after, order) == Writes(after, written) + Deletes(dropped)
  {
    ListedMembers(order, Written(before, after));
    ListedMembers(order, Dropped(before, after));
    hide Listed;
  }

  lemma PatchRestores(before: Tree, after: Tree, order: seq<Path>)
    requires WellFormed(before) && WellFormed(after) && Walks(order, before, after)
    requires AllReplaceable(before, after) && KindsKept(before, after)
    ensures var (t, failed) := Patched(before, Replacements(before, after, order));
      failed == None && RegularFiles(t) == RegularFiles(after)
  {
    var written, dropped := Listed(order, Written(before, after)), Listed(order, Dropped(before, after));
    ReplacementsAre(before, after, order);
    hide Replacements, Patched, Listed, Walks, Restorable, Writes, Deletes, PartlyWritten, PartlyDeleted, WellFormed, KindsKept, Members,
         RegularFiles, AllReplaceable;
    AllWritten(before, after, written);
    var t := Patched(before, Writes(after, written)).0;
    WritesDone(before, after, t);
    AllDeleted(before, after, t, dropped);
    PatchedAppend(before, Writes(after, written), Deletes(dropped));
    DeletesDone(before, after, Patched(t, Deletes(dropped)).0);
  }

  lemma KindChangeBreaks(before: Tree, after: Tree, order: seq<Path>)
    requires WellFormed(before) && WellFormed(after) && Walks(order, before, after)
    requires AllReplaceable(before, after) && !KindsKept(before, after)
    ensures var (t, failed) := Patched(before, Replacements(before, after, order));
      failed.Some? || RegularFiles(t) != RegularFiles(after)
  {
    var q :| q in before && q in after && !(
      && (before[q].File? ==> !after[q].Dir?)
      && (before[q].Dir? ==> !after[q].File?)
      && (before[q].Symlink? ==> !after[q].File? && (after[q].Dir? ==> !HoldsFile(after, q))));
    hide Patched, Replacements, RegularFiles, Walks, AllReplaceable;
    if before[q].File? {
      FileStays(before, after, order, q);
    } else if after[q].File? {
      assert q in Written(before, after);
      ChangedWriteRefused(before, after, order, q, q);
    } else {
      var f :| f in after && q < f && after[f].File?;
      if f in before { Ancestors(before, q, f); }
      assert f in Written(before, after);
      ChangedWriteRefused(before, after, order, f, q);
    }
  }

  /** For all well-formed trees and whatever the order of the paths: a patch can be recorded exactly when no
      changed path is a symbolic link or a file that is not UTF-8; and replaying it on `before` then succeeds
      with exactly the regular files of `after`, contents and modes, if and only if no kind changed. */
  lemma PatchRestoresExactly(before: Tree, after: Tree, order: seq<Path>)
    requires WellFormed(before) && WellFormed(after) && Walks(order, before, after) && AllReplaceable(before, after)
    ensures var (t, failed) := Patched(before, Replacements(before, after, order));
      (failed == None && RegularFiles(t) == RegularFiles(after)) <==> KindsKept(before, after)
  {
    if KindsKept(before, after) {
      PatchRestores(before, after, order);
    } else {
      KindChangeBreaks(before, after, order);
    }
  }
}
