/**
  When a crashed patching can always be undone: exactly if no file ever has two contents besides its original.

  Restore walks the journal backwards and recognises at each entry the content that was backed up and the one
  that was written. Cut short, it leaves a file at any of its earlier versions, and the next attempt begins
  again at the last entry; a third version would be foreign to it.
 */
module PatchRecovery {
  import opened Wrappers
  import opened PatchJournals

  type Files = map<Path, Content>

  ghost predicate Injective(hash: Content -> int) { forall x: Content, y: Content :: hash(x) == hash(y) ==> x == y }

  /** The files after all changes, and whether each change found its file. */
  function Patched(files: Files, changes: seq<Change>): (r: (Files, bool))
    ensures r.0.Keys == files.Keys
  {
    if changes == [] then (files, true)
    else
      var c := changes[|changes| - 1];
      var before := Patched(files, changes[..|changes| - 1]);
      if !before.1 || c.path !in before.0 then (before.0, false)
      else (before.0[c.path := c.transform(before.0[c.path])], true)
  }

  /** What a file holds after the first k changes. */
  function VersionAt(files: Files, changes: seq<Change>, path: Path, k: nat): Content
    requires path in files && k <= |changes|
  {
    Patched(files, changes[..k]).0[path]
  }

  /** No file ever has two contents besides its original. */
  ghost predicate TwoVersions(files: Files, changes: seq<Change>) {
    forall path, j: nat, k: nat :: path in files && j <= |changes| && k <= |changes|
      && VersionAt(files, changes, path, j) != files[path] && VersionAt(files, changes, path, k) != files[path]
      ==> VersionAt(files, changes, path, j) == VersionAt(files, changes, path, k)
  }

  ghost predicate Recovered(files: Files, hash: Content -> int, changes: seq<Change>, cut: nat, budgets: seq<nat>, last: nat) {
    var r := RestoreAgain(PatchAll(Fresh(files, cut), hash, changes), hash, budgets + [last]);
    r.files == files && r.stop == None
  }

  /** Wherever patching crashes and however often restore is cut short, an attempt with writes enough undoes it all. */
  ghost predicate AlwaysRecovers(files: Files, hash: Content -> int, changes: seq<Change>) {
    forall cut, budgets, last :: last >= |changes| ==> Recovered(files, hash, changes, cut, budgets, last)
  }

  // ---------------------------------------------------------------------------
  // Two versions
  // ---------------------------------------------------------------------------

  predicate IsVersion(files: Files, other: Files, path: Path, c: Content)
    requires other.Keys == files.Keys && path in files
  {
    c == files[path] || c == other[path]
  }

  function Twin(files: Files, other: Files, path: Path, c: Content): Content
    requires other.Keys == files.Keys && path in files
  {
    if c == files[path] then other[path] else files[path]
  }

  /** Entry i backed up one of the two versions and announced the other. */
  ghost predicate EntryGood(m: Machine, hash: Content -> int, files: Files, other: Files, i: nat)
    requires other.Keys == files.Keys && i < |m.journal|
  {
    var p := m.journal[i];
    && p.backup in m.backups && p.path in files
    && IsVersion(files, other, p.path, m.backups[p.backup])
    && p.newHash == hash(Twin(files, other, p.path, m.backups[p.backup]))
  }

  predicate Journaled(m: Machine, n: nat, path: Path)
    requires n <= |m.journal|
  {
    exists i :: 0 <= i < n && m.journal[i].path == path
  }

  /** The first entry of a file keeps its original. */
  predicate FirstGood(m: Machine, files: Files, i: nat)
    requires i < |m.journal|
  {
    var p := m.journal[i];
    Journaled(m, i, p.path) || (p.backup in m.backups && p.path in files && m.backups[p.backup] == files[p.path])
  }

  predicate Same(m: Machine, files: Files, path: Path) {
    path in m.files && path in files && m.files[path] == files[path]
  }

  ghost predicate FilesGood(m: Machine, files: Files, other: Files, n: nat)
    requires other.Keys == files.Keys && n <= |m.journal|
  {
    && m.files.Keys == files.Keys
    && (forall path :: path in files ==> IsVersion(files, other, path, m.files[path]))
    && (forall path :: path in files && !Journaled(m, n, path) ==> Same(m, files, path))
  }

  ghost predicate EntriesGood(m: Machine, hash: Content -> int, files: Files, other: Files, n: nat)
    requires other.Keys == files.Keys && n <= |m.journal|
  {
    forall i: nat :: i < n ==> EntryGood(m, hash, files, other, i) && FirstGood(m, files, i)
  }

  /** The first n entries can be undone: two versions of each file, and the first entry of a file keeps its original. */
  ghost predicate Repairable(m: Machine, hash: Content -> int, files: Files, other: Files, n: nat) {
    && other.Keys == files.Keys && n <= |m.journal|
    && FilesGood(m, files, other, n) && EntriesGood(m, hash, files, other, n)
  }

  predicate SameBackup(m: Machine, w: Machine, k: nat) {
    k in m.backups && k in w.backups && w.backups[k] == m.backups[k]
  }

  /** Entries are about backups and the journal alone. */
  lemma SameEntries(m: Machine, w: Machine, hash: Content -> int, files: Files, other: Files, n: nat)
    requires other.Keys == files.Keys && n <= |m.journal| && EntriesGood(m, hash, files, other, n)
    requires n <= |w.journal| && w.journal[..n] == m.journal[..n]
    requires forall i :: 0 <= i < n && m.journal[i].backup in m.backups ==> SameBackup(m, w, m.journal[i].backup)
    ensures EntriesGood(w, hash, files, other, n)
    ensures forall k: nat, path :: k <= n ==> Journaled(w, k, path) == Journaled(m, k, path)
  {
    forall k: nat | k < n ensures w.journal[k] == m.journal[k] {
      assert w.journal[..n][k] == m.journal[..n][k];
    }
    forall k: nat, path | k <= n ensures Journaled(w, k, path) == Journaled(m, k, path) {
    }
    forall i: nat | i < n ensures EntryGood(w, hash, files, other, i) && FirstGood(w, files, i) {
      assert EntryGood(m, hash, files, other, i) && FirstGood(m, files, i);
    }
  }

  lemma SameDisk(m: Machine, w: Machine, hash: Content -> int, files: Files, other: Files, n: nat)
    requires Repairable(m, hash, files, other, n) && w.files == m.files && n <= |w.journal| && w.journal[..n] == m.journal[..n]
    requires forall i :: 0 <= i < n && m.journal[i].backup in m.backups ==> SameBackup(m, w, m.journal[i].backup)
    ensures Repairable(w, hash, files, other, n)
  {
    SameEntries(m, w, hash, files, other, n);
    hide EntriesGood, IsVersion, Journaled;
  }

  /** A file with an entry takes one of its versions. */
  lemma PutVersion(m: Machine, hash: Content -> int, files: Files, other: Files, n: nat, path: Path, c: Content, q: Machine)
    requires Repairable(m, hash, files, other, n) && path in files && IsVersion(files, other, path, c) && Journaled(m, n, path)
    requires q.files == m.files[path := c] && q.journal == m.journal && q.backups == m.backups
    ensures Repairable(q, hash, files, other, n)
  {
    SameEntries(m, q, hash, files, other, n);
    hide EntriesGood, Journaled, IsVersion;
    forall x | x in files && !Journaled(q, n, x) ensures Same(q, files, x) {
      assert !Journaled(m, n, x) && Same(m, files, x);
    }
  }

  /** Entry k is put back, skipped or not reached. */
  ghost predicate Stepped(m: Machine, k: nat, q: Machine)
    requires k < |m.journal|
  {
    var p := m.journal[k];
    && q.journal == m.journal && q.backups == m.backups
    && (if q.stop.None? then
          && p.path in m.files && p.backup in m.backups && q.files == m.files[p.path := m.backups[p.backup]]
          && q.budget == (if m.files[p.path] == m.backups[p.backup] then m.budget else m.budget - 1)
        else q.files == m.files && q.stop == Some(Crash) && m.budget == 0)
  }

  /** At a good entry restore skips, writes or crashes, and never refuses. */
  lemma GoodStep(m: Machine, hash: Content -> int, files: Files, other: Files, n: nat, k: nat) returns (q: Machine)
    requires Repairable(m, hash, files, other, n) && k < n && m.stop.None?
    ensures Repairable(q, hash, files, other, n) && Stepped(m, k, q) && q.journal == m.journal
    ensures q.stop.None? || q.stop == Some(Crash)
    ensures RestoreFrom(m, hash, k + 1) == RestoreFrom(q, hash, k)
  {
    hide RestoreFrom;
    RestoreCases(m, hash, k + 1);
    var p := m.journal[k];
    GoodEntry(m, hash, files, other, n, k);
    hide EntriesGood, FilesGood, IsVersion;
    if m.files[p.path] == m.backups[p.backup] {
      q := m;
      assert m.files[p.path := m.backups[p.backup]] == m.files;
    } else if m.budget == 0 {
      q := m.(stop := Some(Crash));
      SameDisk(m, q, hash, files, other, n);
      RestoreCases(q, hash, k);
    } else {
      q := m.(files := m.files[p.path := m.backups[p.backup]], budget := m.budget - 1);
      PutVersion(m, hash, files, other, n, p.path, m.backups[p.backup], q);
    }
  }

  lemma GoodEntry(m: Machine, hash: Content -> int, files: Files, other: Files, n: nat, k: nat)
    requires Repairable(m, hash, files, other, n) && k < n
    ensures var p := m.journal[k];
      && p.path in m.files && p.path in files && p.backup in m.backups && Journaled(m, n, p.path)
      && IsVersion(files, other, p.path, m.backups[p.backup])
      && (m.files[p.path] != m.backups[p.backup] ==> hash(m.files[p.path]) == p.newHash)
  {
    assert EntryGood(m, hash, files, other, k);
    assert IsVersion(files, other, m.journal[k].path, m.files[m.journal[k].path]);
  }

  /** Unless it was cut short, restore has put back the files of the first k entries; others it left alone. */
  ghost predicate Undone(m: Machine, files: Files, k: nat, r: Machine)
    requires k <= |m.journal|
  {
    && r.journal == m.journal && r.backups == m.backups
    && (r.stop.None? || r.stop == Some(Crash))
    && (m.stop.None? && m.budget >= k ==> r.stop.None?)
    && (r.stop.None? ==> forall i :: 0 <= i < k ==> Same(r, files, m.journal[i].path))
    && (forall path :: path in m.files && !Journaled(m, k, path) ==> Same(r, m.files, path))
  }

  /** Restore keeps the disk repairable, never refuses, and if it is not cut short undoes every entry. */
  lemma {:induction false} RestoreKeeps(m: Machine, hash: Content -> int, files: Files, other: Files, n: nat, k: nat)
    requires Repairable(m, hash, files, other, n) && k <= n && (m.stop.None? || m.stop == Some(Crash))
    ensures Repairable(RestoreFrom(m, hash, k), hash, files, other, n) && Undone(m, files, k, RestoreFrom(m, hash, k))
    decreases k
  {
    hide EntriesGood, FilesGood, RestoreFrom, Undone, Stepped, Journaled, FirstGood, Same, EntryGood, IsVersion;
    if m.stop.Some? || k == 0 {
      StopsAtOnce(m, hash, files, k);
    } else {
      var q := GoodStep(m, hash, files, other, n, k - 1);
      RestoreKeeps(q, hash, files, other, n, k - 1);
      FirstEntry(m, hash, files, other, n, k - 1);
      SteppedStop(m, hash, k - 1, q);
      UndoneBefore(m, files, k - 1, q, RestoreFrom(q, hash, k - 1));
    }
  }

  lemma StopsAtOnce(m: Machine, hash: Content -> int, files: Files, k: nat)
    requires k <= |m.journal| && (m.stop == Some(Crash) || (k == 0 && m.stop.None?))
    ensures RestoreFrom(m, hash, k) == m && Undone(m, files, k, m)
  {
  }

  lemma SteppedStop(m: Machine, hash: Content -> int, k: nat, q: Machine)
    requires k < |m.journal| && Stepped(m, k, q)
    ensures k <= |q.journal|
    ensures q.stop.Some? ==> RestoreFrom(q, hash, k).stop.Some?
  {
  }

  lemma FirstEntry(m: Machine, hash: Content -> int, files: Files, other: Files, n: nat, k: nat)
    requires Repairable(m, hash, files, other, n) && k < n
    ensures FirstGood(m, files, k) && m.files.Keys == files.Keys
  {
  }

  lemma UndoneBefore(m: Machine, files: Files, k: nat, q: Machine, r: Machine)
    requires k < |m.journal| && m.stop.None? && Stepped(m, k, q) && FirstGood(m, files, k)
    requires Undone(q, files, k, r) && (q.stop.Some? ==> r.stop.Some?)
    ensures Undone(m, files, k + 1, r)
  {
    var p := m.journal[k];
    forall path | path in m.files && !Journaled(m, k + 1, path) ensures Same(r, m.files, path) {
      assert p.path != path;
      assert !Journaled(q, k, path);
    }
    if r.stop.None? {
      if !Journaled(m, k, p.path) {
        assert !Journaled(q, k, p.path);
        assert Same(r, q.files, p.path);
      } else {
        var j :| 0 <= j < k && m.journal[j].path == p.path;
        assert Same(r, files, q.journal[j].path);
      }
    }
  }

  // ---------------------------------------------------------------------------
  // Patching
  // ---------------------------------------------------------------------------

  predicate Numbered(m: Machine) { forall i :: 0 <= i < |m.journal| ==> m.journal[i].backup == i }

  /** A backup under a number no entry uses. */
  lemma SavedRepairable(m: Machine, hash: Content -> int, files: Files, other: Files, c: Content) returns (q: Machine)
    requires Repairable(m, hash, files, other, |m.journal|) && Numbered(m)
    ensures q == m.(backups := m.backups[|m.journal| := c]) && Repairable(q, hash, files, other, |q.journal|)
  {
    q := m.(backups := m.backups[|m.journal| := c]);
    hide EntriesGood, FilesGood;
    SameDisk(m, q, hash, files, other, |m.journal|);
  }

  /** The entry of a change from one version to the other. */
  lemma LoggedRepairable(m: Machine, hash: Content -> int, files: Files, other: Files, path: Path, changed: Content) returns (q: Machine)
    requires Repairable(m, hash, files, other, |m.journal|) && path in m.files
    requires |m.journal| in m.backups && m.backups[|m.journal|] == m.files[path] != changed && IsVersion(files, other, path, changed)
    ensures q == m.(journal := m.journal + [Entry(path, |m.journal|, hash(changed))])
    ensures Repairable(q, hash, files, other, |q.journal|) && Journaled(q, |q.journal|, path)
  {
    hide EntriesGood, EntryGood, FirstGood, FilesGood, IsVersion, Journaled;
    var n := |m.journal|;
    q := m.(journal := m.journal + [Entry(path, n, hash(changed))]);
    assert q.journal[..n] == m.journal[..n];
    SameEntries(m, q, hash, files, other, n);
    LastEntry(m, q, hash, files, other, path, changed);
    LoggedFiles(m, q, files, other);
    MoreEntries(q, hash, files, other, n);
  }

  lemma MoreEntries(m: Machine, hash: Content -> int, files: Files, other: Files, n: nat)
    requires other.Keys == files.Keys && n < |m.journal| && EntriesGood(m, hash, files, other, n)
    requires EntryGood(m, hash, files, other, n) && FirstGood(m, files, n)
    ensures EntriesGood(m, hash, files, other, n + 1)
  {
    hide EntryGood, FirstGood;
  }

  lemma LoggedFiles(m: Machine, q: Machine, files: Files, other: Files)
    requires other.Keys == files.Keys && FilesGood(m, files, other, |m.journal|)
    requires q.files == m.files && |q.journal| == |m.journal| + 1 && q.journal[..|m.journal|] == m.journal
    ensures FilesGood(q, files, other, |q.journal|)
  {
    hide IsVersion;
    forall x | x in files && !Journaled(q, |q.journal|, x) ensures Same(q, files, x) {
      forall i | 0 <= i < |m.journal| ensures m.journal[i].path != x {
        assert q.journal[..|m.journal|][i] == m.journal[i];
      }
      assert Same(m, files, x);
    }
  }

  lemma LastEntry(m: Machine, q: Machine, hash: Content -> int, files: Files, other: Files, path: Path, changed: Content)
    requires other.Keys == files.Keys && FilesGood(m, files, other, |m.journal|) && path in m.files && IsVersion(files, other, path, changed)
    requires |m.journal| in m.backups && m.backups[|m.journal|] == m.files[path] != changed
    requires q == m.(journal := m.journal + [Entry(path, |m.journal|, hash(changed))])
    requires Journaled(q, |m.journal|, path) == Journaled(m, |m.journal|, path)
    ensures EntryGood(q, hash, files, other, |m.journal|) && FirstGood(q, files, |m.journal|) && Journaled(q, |q.journal|, path)
  {
    assert IsVersion(files, other, path, m.files[path]);
    assert q.journal[|m.journal|].path == path;
    if !Journaled(q, |m.journal|, path) {
      assert Same(m, files, path);
    }
  }

  /** The three writes of one patch, or as many of them as there were. */
  lemma JournalStep(m: Machine, hash: Content -> int, files: Files, other: Files, c: Change)
    requires Repairable(m, hash, files, other, |m.journal|) && Numbered(m) && m.stop.None? && m.patches == m.journal
    requires c.path in m.files && m.files[c.path] != c.transform(m.files[c.path])
    requires c.path in files && IsVersion(files, other, c.path, c.transform(m.files[c.path]))
    ensures Repairable(PatchFile(m, hash, c), hash, files, other, |PatchFile(m, hash, c).journal|)
  {
    var changed := c.transform(m.files[c.path]);
    var saved := SavedRepairable(m, hash, files, other, m.files[c.path]);
    var logged := LoggedRepairable(saved, hash, files, other, c.path, changed);
    var written := logged.(files := m.files[c.path := changed]);
    PutVersion(logged, hash, files, other, |logged.journal|, c.path, changed, written);
    hide PatchFile, EntriesGood, FilesGood, IsVersion, Journaled;
    PatchFileCases(m, hash, c);
    var after := PatchFile(m, hash, c);
    SameDisk(if m.budget == 0 then m else if m.budget == 1 then saved else if m.budget == 2 then logged else written,
             after, hash, files, other, |after.journal|);
  }

  /** A content the file has, or that an entry keeps. */
  ghost predicate Kept(m: Machine, path: Path, c: Content) {
    || (path in m.files && m.files[path] == c)
    || exists i :: 0 <= i < |m.journal| && m.journal[i].path == path && m.journal[i].backup in m.backups && m.backups[m.journal[i].backup] == c
  }

  /** While nothing has stopped it, patching follows the changes, and every earlier version is kept. */
  ghost predicate Following(m: Machine, files: Files, done: seq<Change>) {
    && Numbered(m) && m.files.Keys == files.Keys
    && (m.stop.None? ==>
          && m.patches == m.journal && Patched(files, done) == (m.files, true)
          && forall path, j: nat :: path in files && j <= |done| ==> Kept(m, path, VersionAt(files, done, path, j)))
  }

  lemma PatchedSnoc(files: Files, done: seq<Change>, c: Change)
    ensures Patched(files, done + [c]) ==
            var before := Patched(files, done);
            if !before.1 || c.path !in before.0 then (before.0, false)
            else (before.0[c.path := c.transform(before.0[c.path])], true)
    ensures forall path, j: nat :: path in files && j <= |done| ==>
      VersionAt(files, done + [c], path, j) == VersionAt(files, done, path, j)
    ensures forall path :: path in files ==> VersionAt(files, done + [c], path, |done| + 1) == Patched(files, done + [c]).0[path]
    ensures forall path :: path in files ==> VersionAt(files, done, path, |done|) == Patched(files, done).0[path]
  {
    var more := done + [c];
    assert more[..|done|] == done && more[..|done| + 1] == more && done[..|done|] == done;
    forall j: nat | j <= |done| ensures more[..j] == done[..j] {
    }
  }

  lemma KeptStays(m: Machine, q: Machine, path: Path, c: Content, changed: Path)
    requires Kept(m, path, c) && Numbered(m) && changed in m.files
    requires |m.journal| <= |q.journal| && q.journal[..|m.journal|] == m.journal
    requires q.backups == m.backups || q.backups == m.backups[|m.journal| := m.files[changed]]
    requires q.files == m.files || (|q.journal| == |m.journal| + 1 && q.journal[|m.journal|].path == changed
               && q.journal[|m.journal|].backup == |m.journal| && q.backups == m.backups[|m.journal| := m.files[changed]]
               && forall x :: x in m.files && x != changed ==> x in q.files && q.files[x] == m.files[x])
    ensures Kept(q, path, c)
  {
    if path in m.files && m.files[path] == c {
      if q.files != m.files && path == changed {
        assert q.journal[|m.journal|].path == path;
      }
    } else {
      var i :| 0 <= i < |m.journal| && m.journal[i].path == path && m.journal[i].backup in m.backups && m.backups[m.journal[i].backup] == c;
      assert q.journal[..|m.journal|][i] == m.journal[i];
      assert q.journal[i].path == path;
    }
  }

  lemma FollowingStep(m: Machine, hash: Content -> int, files: Files, done: seq<Change>, c: Change)
    requires Following(m, files, done)
    ensures Following(PatchFile(m, hash, c), files, done + [c])
  {
    var q := PatchFile(m, hash, c);
    PatchFileCases(m, hash, c);
    PatchedSnoc(files, done, c);
    hide PatchFile, Kept, Patched, VersionAt;
    if m.stop.None? && q.stop.None? {
      assert q.files == m.files[c.path := c.transform(m.files[c.path])];
      forall path, j: nat | path in files && j <= |done + [c]| ensures Kept(q, path, VersionAt(files, done + [c], path, j)) {
        if j <= |done| {
          KeptStays(m, q, path, VersionAt(files, done, path, j), c.path);
        } else {
          CurrentKept(q, path);
        }
      }
    }
  }

  lemma CurrentKept(m: Machine, path: Path)
    requires path in m.files
    ensures Kept(m, path, m.files[path])
  {
  }

  ghost predicate AllVersions(files: Files, other: Files, changes: seq<Change>) {
    && other.Keys == files.Keys
    && forall path, k: nat :: path in files && k <= |changes| ==> IsVersion(files, other, path, VersionAt(files, changes, path, k))
  }

  lemma {:induction false} PatchAllFollows(files: Files, hash: Content -> int, budget: nat, changes: seq<Change>)
    ensures Following(PatchAll(Fresh(files, budget), hash, changes), files, changes)
  {
    hide PatchFile, Following;
    if changes == [] {
      FreshFollows(files, budget);
    } else {
      var n := |changes| - 1;
      PatchAllFollows(files, hash, budget, changes[..n]);
      FollowingStep(PatchAll(Fresh(files, budget), hash, changes[..n]), hash, files, changes[..n], changes[n]);
      assert changes == changes[..n] + [changes[n]];
    }
  }

  lemma FreshFollows(files: Files, budget: nat)
    ensures Following(Fresh(files, budget), files, [])
  {
    var m := Fresh(files, budget);
    forall path, j: nat | path in files && j <= 0 ensures Kept(m, path, VersionAt(files, [], path, j)) {
      CurrentKept(m, path);
    }
  }

  /** Wherever patching stops, the journal can be undone. */
  lemma {:induction false} PatchAllRepairable(files: Files, hash: Content -> int, other: Files, budget: nat, changes: seq<Change>)
    requires AllVersions(files, other, changes)
    ensures var m := PatchAll(Fresh(files, budget), hash, changes); Repairable(m, hash, files, other, |m.journal|)
  {
    hide PatchFile, Repairable, AllVersions, Following;
    if changes == [] {
      FreshRepairable(files, hash, other, budget, changes);
    } else {
      var n := |changes| - 1;
      var m := PatchAll(Fresh(files, budget), hash, changes[..n]);
      PrefixVersions(files, other, changes, n);
      PatchAllRepairable(files, hash, other, budget, changes[..n]);
      PatchAllFollows(files, hash, budget, changes[..n]);
      RepairableStep(m, hash, files, other, changes);
    }
  }

  lemma FreshRepairable(files: Files, hash: Content -> int, other: Files, budget: nat, changes: seq<Change>)
    requires AllVersions(files, other, changes)
    ensures Repairable(Fresh(files, budget), hash, files, other, 0)
  {
  }

  lemma PrefixVersions(files: Files, other: Files, changes: seq<Change>, n: nat)
    requires AllVersions(files, other, changes) && n <= |changes|
    ensures AllVersions(files, other, changes[..n])
  {
    forall path, k: nat | path in files && k <= n ensures IsVersion(files, other, path, VersionAt(files, changes[..n], path, k)) {
      assert changes[..n][..k] == changes[..k];
      assert IsVersion(files, other, path, VersionAt(files, changes, path, k));
    }
  }

  lemma NextVersion(m: Machine, files: Files, other: Files, changes: seq<Change>)
    requires changes != [] && AllVersions(files, other, changes) && Following(m, files, changes[..|changes| - 1]) && m.stop.None?
    ensures var c := changes[|changes| - 1];
      c.path in m.files ==> c.path in files && IsVersion(files, other, c.path, c.transform(m.files[c.path]))
  {
    var n := |changes| - 1;
    var c := changes[n];
    PatchedSnoc(files, changes[..n], c);
    assert changes[..n] + [c] == changes;
    hide Kept, Numbered, Patched, VersionAt;
    if c.path in m.files {
      assert IsVersion(files, other, c.path, VersionAt(files, changes, c.path, |changes|));
    }
  }

  lemma RepairableStep(m: Machine, hash: Content -> int, files: Files, other: Files, changes: seq<Change>)
    requires changes != [] && AllVersions(files, other, changes)
    requires Following(m, files, changes[..|changes| - 1]) && Repairable(m, hash, files, other, |m.journal|)
    ensures var q := PatchFile(m, hash, changes[|changes| - 1]); Repairable(q, hash, files, other, |q.journal|)
  {
    var c := changes[|changes| - 1];
    if m.stop.None? {
      NextVersion(m, files, other, changes);
    }
    hide PatchFile, EntriesGood, FilesGood, AllVersions, Kept, VersionAt, Patched, IsVersion;
    PatchFileCases(m, hash, c);
    if m.stop.None? && c.path in m.files && m.files[c.path] != c.transform(m.files[c.path]) {
      JournalStep(m, hash, files, other, c);
    } else {
      SameDisk(m, PatchFile(m, hash, c), hash, files, other, |m.journal|);
    }
  }

  // ---------------------------------------------------------------------------
  // Two versions are enough
  // ---------------------------------------------------------------------------

  ghost function OtherVersion(files: Files, changes: seq<Change>, path: Path): Content
    requires path in files
  {
    if k: nat :| k <= |changes| && VersionAt(files, changes, path, k) != files[path]
    then VersionAt(files, changes, path, k) else files[path]
  }

  lemma TwoIsAll(files: Files, changes: seq<Change>)
    requires TwoVersions(files, changes)
    ensures AllVersions(files, map path | path in files :: OtherVersion(files, changes, path), changes)
  {
    hide VersionAt;
  }

  /** Each attempt at restoring keeps the journal and what it can undo. */
  lemma {:induction false} AttemptsKeep(m: Machine, hash: Content -> int, files: Files, other: Files, budgets: seq<nat>)
    requires Repairable(m, hash, files, other, |m.journal|)
    ensures Repairable(RestoreAgain(m, hash, budgets), hash, files, other, |m.journal|)
    ensures RestoreAgain(m, hash, budgets).journal == m.journal
  {
    hide Repairable, RestoreFrom;
    if budgets == [] {
      assert RestoreAgain(m, hash, budgets) == m;
    } else {
      var last := |budgets| - 1;
      AttemptsKeep(m, hash, files, other, budgets[..last]);
      RestoreKept(RestoreAgain(m, hash, budgets[..last]), hash, files, other, budgets[last]);
    }
  }

  lemma RestoreKept(m: Machine, hash: Content -> int, files: Files, other: Files, budget: nat)
    requires Repairable(m, hash, files, other, |m.journal|)
    ensures var r := Restore(m, hash, budget);
      Repairable(r, hash, files, other, |m.journal|) && Undone(Reboot(m, budget), files, |m.journal|, r)
    ensures Restore(m, hash, budget).journal == m.journal
  {
    hide EntriesGood, FilesGood, RestoreFrom;
    SameDisk(m, Reboot(m, budget), hash, files, other, |m.journal|);
    RestoreKeeps(Reboot(m, budget), hash, files, other, |m.journal|, |m.journal|);
  }

  /** Every file without an entry was never changed, so undoing the journal undoes everything. */
  lemma AllOriginal(m: Machine, hash: Content -> int, files: Files, other: Files)
    requires Repairable(m, hash, files, other, |m.journal|)
    requires forall i :: 0 <= i < |m.journal| ==> Same(m, files, m.journal[i].path)
    ensures m.files == files
  {
    forall path | path in files ensures m.files[path] == files[path] {
      if Journaled(m, |m.journal|, path) {
        var i :| 0 <= i < |m.journal| && m.journal[i].path == path;
        assert Same(m, files, m.journal[i].path);
      } else {
        assert Same(m, files, path);
      }
    }
  }

  lemma {:induction false} JournalShort(files: Files, hash: Content -> int, cut: nat, changes: seq<Change>)
    ensures |PatchAll(Fresh(files, cut), hash, changes).journal| <= |changes|
    ensures var m := PatchAll(Fresh(files, cut), hash, changes); m.stop.None? ==> |m.patches| <= |changes|
  {
    hide PatchFile;
    if changes == [] {
      assert PatchAll(Fresh(files, cut), hash, changes) == Fresh(files, cut);
    } else {
      JournalShort(files, hash, cut, changes[..|changes| - 1]);
      PatchFileCases(PatchAll(Fresh(files, cut), hash, changes[..|changes| - 1]), hash, changes[|changes| - 1]);
    }
  }

  /**
    If no file ever has two contents besides its original: wherever the patching crashes and however often
    restore is cut short, no attempt refuses, and one with writes enough leaves every file at its original.
   */
  lemma TwoVersionsRecover(files: Files, hash: Content -> int, changes: seq<Change>, cut: nat, budgets: seq<nat>, last: nat)
    requires TwoVersions(files, changes) && last >= |changes|
    ensures Recovered(files, hash, changes, cut, budgets, last)
  {
    hide Repairable, RestoreFrom, PatchFile, TwoVersions, VersionAt, AllVersions;
    var other := map path | path in files :: OtherVersion(files, changes, path);
    TwoIsAll(files, changes);
    var crashed := PatchAll(Fresh(files, cut), hash, changes);
    PatchAllRepairable(files, hash, other, cut, changes);
    AttemptsKeep(crashed, hash, files, other, budgets);
    assert (budgets + [last])[..|budgets|] == budgets;
    var before := RestoreAgain(crashed, hash, budgets);
    JournalShort(files, hash, cut, changes);
    RestoreKept(before, hash, files, other, last);
    AllOriginal(Restore(before, hash, last), hash, files, other);
  }

  // ---------------------------------------------------------------------------
  // A third version is too many
  // ---------------------------------------------------------------------------

  /** More writes than were needed change nothing. */
  lemma Spare(m: Machine, hash: Content -> int, c: Change, d: nat)
    requires PatchFile(m, hash, c).stop.None?
    ensures var q := PatchFile(m, hash, c); PatchFile(m.(budget := m.budget + d), hash, c) == q.(budget := q.budget + d)
  {
    hide PatchFile;
    PatchFileCases(m, hash, c);
    PatchFileCases(m.(budget := m.budget + d), hash, c);
  }

  lemma {:induction false} SpareAll(files: Files, hash: Content -> int, changes: seq<Change>, cut: nat, d: nat)
    requires PatchAll(Fresh(files, cut), hash, changes).stop.None?
    ensures var q := PatchAll(Fresh(files, cut), hash, changes);
      PatchAll(Fresh(files, cut + d), hash, changes) == q.(budget := q.budget + d)
  {
    hide PatchFile;
    if changes == [] {
      assert PatchAll(Fresh(files, cut), hash, changes) == Fresh(files, cut);
    } else {
      var n := |changes| - 1;
      var m := PatchAll(Fresh(files, cut), hash, changes[..n]);
      PatchFileCases(m, hash, changes[n]);
      SpareAll(files, hash, changes[..n], cut, d);
      Spare(m, hash, changes[n], d);
    }
  }

  /** A number of writes after which exactly these changes are made. */
  lemma {:induction false} Exactly(files: Files, hash: Content -> int, changes: seq<Change>) returns (cut: nat)
    requires Patched(files, changes).1
    ensures var m := PatchAll(Fresh(files, cut), hash, changes); m.stop.None? && m.budget == 0
  {
    hide PatchFile, Following;
    if changes == [] {
      cut := 0;
    } else {
      var n := |changes| - 1;
      var c := changes[n];
      cut := Exactly(files, hash, changes[..n]);
      var m := PatchAll(Fresh(files, cut), hash, changes[..n]);
      FollowedFiles(files, hash, changes[..n], cut);
      if m.files[c.path] == c.transform(m.files[c.path]) {
        PatchFileCases(m, hash, c);
      } else {
        SpareAll(files, hash, changes[..n], cut, 3);
        PatchFileCases(m.(budget := 3), hash, c);
        cut := cut + 3;
      }
    }
  }

  lemma FollowedFiles(files: Files, hash: Content -> int, changes: seq<Change>, cut: nat)
    ensures var m := PatchAll(Fresh(files, cut), hash, changes);
      m.stop.None? ==> Patched(files, changes) == (m.files, true) && m.patches == m.journal
  {
    PatchAllFollows(files, hash, cut, changes);
    hide PatchAll, Patched, Kept;
  }

  ghost predicate SameStore(m: Machine, w: Machine) { w.files == m.files && w.journal == m.journal && w.backups == m.backups }

  /** Without writes left, further changes leave the disk alone. */
  lemma {:induction false} Idle(files: Files, hash: Content -> int, changes: seq<Change>, cut: nat, k: nat)
    requires k <= |changes| && PatchAll(Fresh(files, cut), hash, changes[..k]).budget == 0
    ensures var w := PatchAll(Fresh(files, cut), hash, changes);
      w.budget == 0 && SameStore(PatchAll(Fresh(files, cut), hash, changes[..k]), w)
    decreases |changes|
  {
    hide PatchFile;
    if k == |changes| {
      assert changes[..k] == changes;
    } else {
      var n := |changes| - 1;
      assert changes[..n][..k] == changes[..k];
      Idle(files, hash, changes[..n], cut, k);
      PatchFileCases(PatchAll(Fresh(files, cut), hash, changes[..n]), hash, changes[n]);
    }
  }

  lemma {:induction false} NoWrites(m: Machine, hash: Content -> int, k: nat)
    requires k <= |m.journal| && m.budget == 0
    ensures SameStore(m, RestoreFrom(m, hash, k))
    decreases k
  {
    RestoreCases(m, hash, k);
    hide RestoreFrom;
    if m.stop.None? && k > 0 && m.journal[k - 1].path in m.files && m.journal[k - 1].backup in m.backups
      && m.files[m.journal[k - 1].path] == m.backups[m.journal[k - 1].backup] {
      NoWrites(m, hash, k - 1);
    }
  }

  /** The disk on which the file of entry i is at the content that entry keeps. */
  ghost predicate BackAt(m: Machine, i: nat, r: Machine)
    requires i < |m.journal|
  {
    var p := m.journal[i];
    r.journal == m.journal && r.backups == m.backups && p.backup in m.backups && p.path in r.files && r.files[p.path] == m.backups[p.backup]
  }

  /** Cut short at the right moment, restore leaves the file of entry i at that entry's backup. */
  lemma {:induction false} Reaches(m: Machine, hash: Content -> int, files: Files, other: Files, n: nat, k: nat, i: nat) returns (b: nat)
    requires Repairable(m, hash, files, other, n) && i < k <= n && m.stop.None?
    ensures BackAt(m, i, RestoreFrom(m.(budget := b), hash, k))
    decreases k
  {
    hide RestoreFrom, EntriesGood, FilesGood, IsVersion, Journaled;
    var p := m.journal[k - 1];
    GoodEntry(m, hash, files, other, n, k - 1);
    var put := m.(files := m.files[p.path := m.backups[p.backup]]);
    PutVersion(m, hash, files, other, n, p.path, m.backups[p.backup], put);
    if i == k - 1 {
      b := 0;
    } else {
      b := Reaches(put, hash, files, other, n, k - 1, i);
    }
    if m.files[p.path] == m.backups[p.backup] {
      assert put.files == m.files;
      assert put.(budget := b) == m.(budget := b);
    } else {
      b := b + 1;
    }
    OneBack(m, hash, k, put, b);
    if i == k - 1 {
      NoWrites(put.(budget := 0), hash, k - 1);
    }
  }

  /** One entry of a restore with writes for it. */
  lemma OneBack(m: Machine, hash: Content -> int, k: nat, put: Machine, b: nat)
    requires 0 < k <= |m.journal| && m.stop.None?
    requires var p := m.journal[k - 1];
      && p.path in m.files && p.backup in m.backups && put == m.(files := m.files[p.path := m.backups[p.backup]])
      && (m.files[p.path] != m.backups[p.backup] ==> hash(m.files[p.path]) == p.newHash && b > 0)
    ensures var p := m.journal[k - 1];
      RestoreFrom(m.(budget := b), hash, k) ==
      RestoreFrom(put.(budget := if m.files[p.path] == m.backups[p.backup] then b else b - 1), hash, k - 1)
  {
    RestoreCases(m.(budget := b), hash, k);
    hide RestoreFrom;
    var p := m.journal[k - 1];
    if m.files[p.path] == m.backups[p.backup] {
      assert put.files == m.files;
    }
  }

  /** The disk after a change of one file from x to w: its entry is the last. */
  ghost predicate JustChanged(m: Machine, q: Machine, hash: Content -> int, path: Path, w: Content) {
    && path in m.files && Numbered(m)
    && q.journal == m.journal + [Entry(path, |m.journal|, hash(w))]
    && q.backups == m.backups[|m.journal| := m.files[path]] && q.files == m.files[path := w]
  }

  /** At an entry that announced w and kept x, a file that holds neither is refused. */
  lemma RefusedAtOnce(r: Machine, hash: Content -> int, path: Path, x: Content, w: Content, u: Content, last: nat)
    requires Injective(hash) && r.journal != [] && u != w && u != x
    requires var p := r.journal[|r.journal| - 1];
      p.path == path && p.newHash == hash(w) && p.backup in r.backups && r.backups[p.backup] == x
    requires path in r.files && r.files[path] == u
    ensures Restore(r, hash, last).stop == Some(Refused)
  {
    RestoreCases(Reboot(r, last), hash, |r.journal|);
    hide RestoreFrom;
    assert hash(u) != hash(w);
  }

  /** The first step back undoes the last change. */
  function SteppedBack(m: Machine, q: Machine, path: Path): Machine
    requires path in m.files
  {
    Reboot(q, 0).(files := q.files[path := m.files[path]])
  }

  lemma FirstStepBack(m: Machine, q: Machine, hash: Content -> int, path: Path, w: Content, b: nat)
    requires JustChanged(m, q, hash, path, w) && m.files[path] != w
    ensures Restore(q, hash, b + 1) == RestoreFrom(SteppedBack(m, q, path).(budget := b), hash, |m.journal|)
  {
    hide RestoreFrom;
    var n := |m.journal|;
    assert q.journal[n] == Entry(path, n, hash(w)) && q.backups[n] == m.files[path];
    OneBack(Reboot(q, 0), hash, n + 1, SteppedBack(m, q, path), b + 1);
  }

  lemma SteppedBackGood(m: Machine, q: Machine, hash: Content -> int, files: Files, other: Files, path: Path, w: Content)
    requires Repairable(m, hash, files, other, |m.journal|) && JustChanged(m, q, hash, path, w)
    ensures Repairable(SteppedBack(m, q, path), hash, files, other, |m.journal|)
  {
    var back := SteppedBack(m, q, path);
    assert back.files == m.files && back.journal[..|m.journal|] == m.journal;
    hide EntriesGood, FilesGood, IsVersion, Journaled;
    SameDisk(m, back, hash, files, other, |m.journal|);
  }

  /** Restoring from there, cut short where the file is back at an earlier version u; the next attempt refuses. */
  lemma ThirdRefused(m: Machine, q: Machine, hash: Content -> int, files: Files, other: Files, path: Path, w: Content, i: nat) returns (first: nat)
    requires Injective(hash) && Repairable(m, hash, files, other, |m.journal|) && JustChanged(m, q, hash, path, w)
    requires i < |m.journal| && m.journal[i].path == path && m.journal[i].backup in m.backups
    requires var u := m.backups[m.journal[i].backup]; u != w && u != m.files[path] && m.files[path] != w
    ensures forall last :: Restore(Restore(q, hash, first), hash, last).stop == Some(Refused)
  {
    hide RestoreFrom, Repairable, Restore, Injective;
    var n := |m.journal|;
    SteppedBackGood(m, q, hash, files, other, path, w);
    var b := Reaches(SteppedBack(m, q, path), hash, files, other, n, n, i);
    first := b + 1;
    FirstStepBack(m, q, hash, path, w, b);
    var r := Restore(q, hash, first);
    assert q.journal[i] == m.journal[i];
    forall last ensures Restore(r, hash, last).stop == Some(Refused) {
      RefusedAtOnce(r, hash, path, m.files[path], w, m.backups[m.journal[i].backup], last);
    }
  }

  /** A third version that the last change gave a file: x before it, w after it, and u earlier. */
  ghost predicate Third(files: Files, changes: seq<Change>, path: Path, j: nat)
    requires changes != []
  {
    var n := |changes| - 1;
    && path in files && j <= n && Patched(files, changes).1 && changes[n].path == path
    && VersionAt(files, changes, path, n) != Patched(files, changes).0[path]
    && VersionAt(files, changes, path, j) != VersionAt(files, changes, path, n)
    && VersionAt(files, changes, path, j) != Patched(files, changes).0[path]
  }

  lemma ThirdIs(files: Files, changes: seq<Change>, path: Path, j: nat)
    requires changes != [] && path in files && j < |changes| && Patched(files, changes).1 && changes[|changes| - 1].path == path
    requires var n := |changes| - 1;
      && VersionAt(files, changes, path, n) != Patched(files, changes).0[path]
      && VersionAt(files, changes, path, j) != VersionAt(files, changes, path, n)
      && VersionAt(files, changes, path, j) != Patched(files, changes).0[path]
    ensures Third(files, changes, path, j)
  {
    hide VersionAt, Patched;
  }

  lemma ChangedNow(m: Machine, hash: Content -> int, c: Change)
    requires Numbered(m) && m.patches == m.journal && m.stop.None?
    requires c.path in m.files && c.transform(m.files[c.path]) != m.files[c.path]
    ensures var q := PatchFile(m.(budget := 3), hash, c);
      q.budget == 0 && JustChanged(m, q, hash, c.path, c.transform(m.files[c.path]))
  {
    hide PatchFile;
    PatchFileCases(m.(budget := 3), hash, c);
  }

  lemma FollowingNow(m: Machine, files: Files, done: seq<Change>)
    requires Following(m, files, done) && m.stop.None?
    ensures Numbered(m) && m.patches == m.journal && Patched(files, done) == (m.files, true)
  {
    hide Kept, Patched;
  }

  lemma PatchAllSnoc(files: Files, hash: Content -> int, changes: seq<Change>, cut: nat)
    requires changes != []
    ensures PatchAll(Fresh(files, cut), hash, changes) ==
            PatchFile(PatchAll(Fresh(files, cut), hash, changes[..|changes| - 1]), hash, changes[|changes| - 1])
  {
    hide PatchFile;
  }

  /** The state after exactly the changes before the last, reached with three writes to spare. */
  lemma BeforeLast(files: Files, hash: Content -> int, done: seq<Change>) returns (cut: nat, m: Machine)
    requires Patched(files, done).1
    ensures m.stop.None? && m.budget == 0 && PatchAll(Fresh(files, cut), hash, done) == m.(budget := 3)
    ensures Following(m, files, done) && Numbered(m) && m.patches == m.journal && Patched(files, done) == (m.files, true)
  {
    hide *;
    cut := Exactly(files, hash, done);
    m := PatchAll(Fresh(files, cut), hash, done);
    PatchAllFollows(files, hash, cut, done);
    FollowingNow(m, files, done);
    SpareAll(files, hash, done, cut, 3);
    cut := cut + 3;
  }

  /** Patching that ends, its writes used up, with the last change; m is the state before that. */
  lemma LastChange(files: Files, hash: Content -> int, changes: seq<Change>, path: Path, j: nat) returns (cut: nat, m: Machine)
    requires changes != [] && Third(files, changes, path, j)
    ensures var done := changes[..|changes| - 1];
      && PatchAll(Fresh(files, cut), hash, done) == m.(budget := 3) && Following(m, files, done) && m.stop.None?
      && path in m.files && m.files[path] == VersionAt(files, done, path, |done|)
    ensures var q := PatchAll(Fresh(files, cut), hash, changes);
      q.budget == 0 && JustChanged(m, q, hash, path, Patched(files, changes).0[path])
  {
    ThirdHolds(files, changes, path, j);
    hide *;
    var n := |changes| - 1;
    LastVersion(files, changes, path);
    EarlierVersion(files, changes, path, n);
    cut, m := BeforeLast(files, hash, changes[..n]);
    PatchAllSnoc(files, hash, changes, cut);
    ChangedNow(m, hash, changes[n]);
  }

  lemma ThirdHolds(files: Files, changes: seq<Change>, path: Path, j: nat)
    requires changes != [] && Third(files, changes, path, j)
    ensures path in files && j < |changes| && Patched(files, changes).1 && changes[|changes| - 1].path == path
    ensures VersionAt(files, changes, path, |changes| - 1) != Patched(files, changes).0[path]
    ensures VersionAt(files, changes, path, j) != VersionAt(files, changes, path, |changes| - 1)
    ensures VersionAt(files, changes, path, j) != Patched(files, changes).0[path]
  {
    hide VersionAt, Patched;
  }

  /** If the last change gives a file a third version, some crash of restore is for good. */
  lemma ThirdStuck(files: Files, hash: Content -> int, changes: seq<Change>, path: Path, j: nat) returns (cut: nat, first: nat)
    requires Injective(hash) && changes != [] && TwoVersions(files, changes[..|changes| - 1]) && Third(files, changes, path, j)
    ensures var q := PatchAll(Fresh(files, cut), hash, changes);
      q.budget == 0 && forall last :: Restore(Restore(q, hash, first), hash, last).stop == Some(Refused)
  {
    ThirdHolds(files, changes, path, j);
    hide *;
    var done := changes[..|changes| - 1];
    var other := map x | x in files :: OtherVersion(files, done, x);
    TwoIsAll(files, done);
    var m;
    cut, m := LastChange(files, hash, changes, path, j);
    PatchAllRepairable(files, hash, other, cut, done);
    AnyBudget(m, 3, hash, files, other);
    EarlierVersion(files, changes, path, j);
    EarlierVersion(files, changes, path, |done|);
    var i := KeptEntry(m, files, done, path, j);
    first := ThirdRefused(m, PatchAll(Fresh(files, cut), hash, changes), hash, files, other, path, Patched(files, changes).0[path], i);
  }

  lemma AnyBudget(m: Machine, budget: nat, hash: Content -> int, files: Files, other: Files)
    requires Repairable(m.(budget := budget), hash, files, other, |m.journal|)
    ensures Repairable(m, hash, files, other, |m.journal|)
  {
    hide EntriesGood, FilesGood;
    SameDisk(m.(budget := budget), m, hash, files, other, |m.journal|);
  }

  /** An earlier version that the file no longer has is in a backup. */
  lemma KeptEntry(m: Machine, files: Files, done: seq<Change>, path: Path, j: nat) returns (i: nat)
    requires Following(m, files, done) && m.stop.None? && path in m.files && path in files && j <= |done|
    requires m.files[path] != VersionAt(files, done, path, j)
    ensures i < |m.journal| && m.journal[i].path == path && m.journal[i].backup in m.backups
    ensures m.backups[m.journal[i].backup] == VersionAt(files, done, path, j)
  {
    hide VersionAt, Patched, Numbered;
    assert Kept(m, path, VersionAt(files, done, path, j));
    i :| 0 <= i < |m.journal| && m.journal[i].path == path && m.journal[i].backup in m.backups
      && m.backups[m.journal[i].backup] == VersionAt(files, done, path, j);
  }

  /** The first change that gives some file a third version. */
  lemma {:induction false} FirstThird(files: Files, changes: seq<Change>) returns (k: nat, path: Path, j: nat)
    requires !TwoVersions(files, changes)
    ensures 0 < k <= |changes| && TwoVersions(files, changes[..k - 1]) && Third(files, changes[..k], path, j)
  {
    NothingTwo(files);
    hide Third, TwoVersions;
    var n := |changes| - 1;
    if TwoVersions(files, changes[..n]) {
      k := |changes|;
      path, j := LastThird(files, changes);
      assert changes[..k] == changes && changes[..k - 1] == changes[..n];
    } else {
      k, path, j := FirstThird(files, changes[..n]);
      assert changes[..n][..k] == changes[..k] && changes[..n][..k - 1] == changes[..k - 1];
    }
  }

  lemma NothingTwo(files: Files)
    ensures TwoVersions(files, [])
  {
  }

  lemma LastThird(files: Files, changes: seq<Change>) returns (path: Path, j: nat)
    requires changes != [] && TwoVersions(files, changes[..|changes| - 1]) && !TwoVersions(files, changes)
    ensures Third(files, changes, path, j)
  {
    hide *;
    var n := |changes| - 1;
    var done := changes[..n];
    var a, b;
    path, a, b := Differing(files, changes);
    var early := if a <= n then a else b;
    FirstVersion(files, changes, path);
    LastVersion(files, changes, path);
    EarlierVersion(files, changes, path, early);
    EarlierVersion(files, changes, path, n);
    EarlierVersion(files, changes, path, if b <= n then b else 0);
    SameVersion(files, done, path, early, n);
    SameVersion(files, done, path, early, if b <= n then b else 0);
    j := if VersionAt(files, changes, path, n) == files[path] then early else 0;
    ThirdIs(files, changes, path, j);
  }

  lemma EarlierVersion(files: Files, changes: seq<Change>, path: Path, k: nat)
    requires path in files && k < |changes|
    ensures VersionAt(files, changes, path, k) == VersionAt(files, changes[..|changes| - 1], path, k)
  {
    assert changes[..|changes| - 1][..k] == changes[..k];
  }

  /** The last change makes the last version; only the file it names can differ from the version before. */
  lemma LastVersion(files: Files, changes: seq<Change>, path: Path)
    requires path in files && changes != []
    ensures var n := |changes| - 1;
      var before := Patched(files, changes[..n]);
      var after := Patched(files, changes);
      && VersionAt(files, changes, path, n + 1) == after.0[path]
      && VersionAt(files, changes, path, n) == before.0[path]
      && (after.0[path] != before.0[path] ==> after.1 && changes[n].path == path)
      && (after.1 ==> before.1 && changes[n].path in before.0)
      && (after.1 && changes[n].path == path ==> after.0[path] == changes[n].transform(before.0[path]))
  {
    assert changes[..|changes|] == changes;
  }

  lemma Differing(files: Files, changes: seq<Change>) returns (path: Path, a: nat, b: nat)
    requires !TwoVersions(files, changes)
    ensures path in files && a <= |changes| && b <= |changes|
    ensures VersionAt(files, changes, path, a) != files[path] && VersionAt(files, changes, path, b) != files[path]
    ensures VersionAt(files, changes, path, a) != VersionAt(files, changes, path, b)
  {
    hide VersionAt;
    path, a, b :| path in files && a <= |changes| && b <= |changes|
      && VersionAt(files, changes, path, a) != files[path] && VersionAt(files, changes, path, b) != files[path]
      && VersionAt(files, changes, path, a) != VersionAt(files, changes, path, b);
  }

  lemma SameVersion(files: Files, changes: seq<Change>, path: Path, a: nat, b: nat)
    requires TwoVersions(files, changes) && path in files && a <= |changes| && b <= |changes|
    ensures VersionAt(files, changes, path, a) != files[path] && VersionAt(files, changes, path, b) != files[path]
      ==> VersionAt(files, changes, path, a) == VersionAt(files, changes, path, b)
  {
    hide VersionAt;
  }

  lemma FirstVersion(files: Files, changes: seq<Change>, path: Path)
    requires path in files
    ensures VersionAt(files, changes, path, 0) == files[path]
  {
    assert changes[..0] == [];
  }

  /** If some file has a third version, some crashes leave restore stuck. */
  lemma ThirdVersionStuck(files: Files, hash: Content -> int, changes: seq<Change>) returns (cut: nat, first: nat)
    requires Injective(hash) && !TwoVersions(files, changes)
    ensures forall last :: !Recovered(files, hash, changes, cut, [first], last)
  {
    var k, path, j := FirstThird(files, changes);
    assert changes[..k][..k - 1] == changes[..k - 1];
    cut, first := ThirdStuck(files, hash, changes[..k], path, j);
    hide PatchFile, RestoreFrom, Injective, TwoVersions, Third;
    Idle(files, hash, changes, cut, k);
    var q, w := PatchAll(Fresh(files, cut), hash, changes[..k]), PatchAll(Fresh(files, cut), hash, changes);
    assert Restore(w, hash, first) == Restore(q, hash, first);
    forall last ensures !Recovered(files, hash, changes, cut, [first], last) {
      TwoAttempts(w, hash, first, last);
      assert Restore(Restore(q, hash, first), hash, last).stop == Some(Refused);
    }
  }

  lemma TwoAttempts(m: Machine, hash: Content -> int, first: nat, last: nat)
    ensures RestoreAgain(m, hash, [first] + [last]) == Restore(Restore(m, hash, first), hash, last)
  {
    hide Restore;
    var budgets := [first] + [last];
    assert budgets[..1] == [first] && [first][..0] == [];
    assert RestoreAgain(m, hash, []) == m;
    assert RestoreAgain(m, hash, [first]) == Restore(m, hash, first);
  }

  // ---------------------------------------------------------------------------
  // The result
  // ---------------------------------------------------------------------------

  /**
    Wherever patching crashes and however often restore is cut short, no attempt refuses and one with writes
    enough leaves every file at its original, if and only if no file is ever given a third content.
   */
  lemma RecoversExactly(files: Files, hash: Content -> int, changes: seq<Change>)
    requires Injective(hash)
    ensures AlwaysRecovers(files, hash, changes) <==> TwoVersions(files, changes)
  {
    hide Injective, TwoVersions, Recovered;
    if TwoVersions(files, changes) {
      forall cut, budgets, last | last >= |changes| ensures Recovered(files, hash, changes, cut, budgets, last) {
        TwoVersionsRecover(files, hash, changes, cut, budgets, last);
      }
    } else {
      var cut, first := ThirdVersionStuck(files, hash, changes);
      assert !Recovered(files, hash, changes, cut, [first], |changes|);
    }
  }

  /** Patching each file at most once gives none a third content. */
  lemma DistinctPathsTwoVersions(files: Files, changes: seq<Change>)
    requires forall i, j :: 0 <= i < j < |changes| ==> changes[i].path != changes[j].path
    ensures TwoVersions(files, changes)
  {
    if !TwoVersions(files, changes) {
      var k, path, j := FirstThird(files, changes);
      hide TwoVersions;
      Untouched(files, changes[..k], path, j, k - 1);
    }
  }

  /** A file that no change from the first on names before the last is as it was. */
  lemma {:induction false} Untouched(files: Files, changes: seq<Change>, path: Path, j: nat, n: nat)
    requires path in files && j <= n <= |changes| && forall i :: 0 <= i < n ==> changes[i].path != path
    ensures VersionAt(files, changes, path, j) == VersionAt(files, changes, path, n) == files[path]
    decreases n
  {
    if n == 0 {
      FirstVersion(files, changes, path);
    } else {
      assert changes[..n][..n - 1] == changes[..n - 1];
      Untouched(files, changes, path, if j == n then n - 1 else j, n - 1);
    }
  }
}
