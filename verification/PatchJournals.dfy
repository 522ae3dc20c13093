/**
  The journal of patched files: a backup and a journal entry are written before a file is changed, so that
  restore, walking the journal backwards, knows the file before and after each change.

  Each write is atomic. A machine may perform `budget` writes before it crashes.
 */
module PatchJournals {
  import opened Wrappers

  type Path = string

  type Content = seq<int>

  datatype Patch = Entry(path: Path, backup: nat, newHash: int)

  datatype Stop = Crash | Missing | Refused

  /** The files, backups and journal on disk; the journal in memory; the writes left; and why it stopped. */
  datatype Machine = Machine(
    files: map<Path, Content>,
    backups: map<nat, Content>,
    journal: seq<Patch>,
    patches: seq<Patch>,
    budget: nat,
    stop: Option<Stop>)

  datatype Change = Change(path: Path, transform: Content -> Content)

  /** One atomic write, or the crash before it. */
  function Writing(m: Machine, after: Machine): Machine {
    if m.stop.Some? then m
    else if m.budget == 0 then m.(stop := Some(Crash))
    else after.(budget := m.budget - 1)
  }

  /** `patch`: backup, journal, file. */
  function PatchFile(m: Machine, hash: Content -> int, c: Change): Machine {
    if m.stop.Some? then m
    else if c.path !in m.files then m.(stop := Some(Missing))
    else
      var original := m.files[c.path];
      var changed := c.transform(original);
      if original == changed then m
      else
        var a := Writing(m, m.(backups := m.backups[|m.patches| := original]));
        if a.stop.Some? then a
        else
          var b := a.(patches := a.patches + [Entry(c.path, |a.patches|, hash(changed))]);
          var d := Writing(b, b.(journal := b.patches));
          Writing(d, d.(files := d.files[c.path := changed]))
  }

  function PatchAll(m: Machine, hash: Content -> int, changes: seq<Change>): Machine {
    if changes == [] then m
    else PatchFile(PatchAll(m, hash, changes[..|changes| - 1]), hash, changes[|changes| - 1])
  }

  /** `restore`, from entry n - 1 of the journal back to the first. */
  function RestoreFrom(m: Machine, hash: Content -> int, n: nat): Machine
    requires n <= |m.journal|
    decreases n
  {
    if m.stop.Some? || n == 0 then m
    else
      var p := m.journal[n - 1];
      if p.backup !in m.backups || p.path !in m.files then m.(stop := Some(Missing))
      else if m.files[p.path] == m.backups[p.backup] then RestoreFrom(m, hash, n - 1)
      else if hash(m.files[p.path]) != p.newHash then m.(stop := Some(Refused))
      else RestoreFrom(Writing(m, m.(files := m.files[p.path := m.backups[p.backup]])), hash, n - 1)
  }

  lemma RestoreCases(m: Machine, hash: Content -> int, n: nat)
    requires n <= |m.journal|
    ensures var r := RestoreFrom(m, hash, n);
            if m.stop.Some? || n == 0 then r == m
            else
              var p := m.journal[n - 1];
              if p.backup !in m.backups || p.path !in m.files then r == m.(stop := Some(Missing))
              else if m.files[p.path] == m.backups[p.backup] then r == RestoreFrom(m, hash, n - 1)
              else if hash(m.files[p.path]) != p.newHash then r == m.(stop := Some(Refused))
              else if m.budget == 0 then r == m.(stop := Some(Crash))
              else r == RestoreFrom(m.(files := m.files[p.path := m.backups[p.backup]], budget := m.budget - 1), hash, n - 1)
  {
  }

  /** A new process: it knows what is on disk. */
  function Reboot(m: Machine, budget: nat): Machine {
    m.(patches := m.journal, budget := budget, stop := None)
  }

  function Restore(m: Machine, hash: Content -> int, budget: nat): Machine {
    RestoreFrom(Reboot(m, budget), hash, |m.journal|)
  }

  /** Attempts one after another, each with its own number of writes before it is cut short. */
  function RestoreAgain(m: Machine, hash: Content -> int, budgets: seq<nat>): Machine {
    if budgets == [] then m
    else Restore(RestoreAgain(m, hash, budgets[..|budgets| - 1]), hash, budgets[|budgets| - 1])
  }

  function Fresh(files: map<Path, Content>, budget: nat): Machine { Machine(files, map[], [], [], budget, None) }

  // ---------------------------------------------------------------------------
  // The controller
  // ---------------------------------------------------------------------------

  class Controller {
    const hash: Content -> int
    var files: map<Path, Content>
    var backups: map<nat, Content>
    var journal: seq<Patch>
    var patches: seq<Patch>
    var budget: nat
    var stop: Option<Stop>

    ghost function State(): Machine
      reads this
    {
      Machine(files, backups, journal, patches, budget, stop)
    }

    constructor (hash: Content -> int, files: map<Path, Content>, budget: nat)
      ensures this.hash == hash && State() == Fresh(files, budget)
    {
      this.hash, this.files, this.budget := hash, files, budget;
      backups, journal, patches, stop := map[], [], [], None;
    }

    /** Whether the next write still happens. */
    method Spend() returns (ok: bool)
      requires stop.None?
      modifies this
      ensures State() == Writing(old(State()), old(State())) && ok == stop.None?
    {
      if budget == 0 {
        stop := Some(Crash);
        return false;
      }
      budget := budget - 1;
      return true;
    }

    method Patch(path: Path, transform: Content -> Content)
      modifies this
      ensures State() == PatchFile(old(State()), hash, Change(path, transform))
    {
      if stop.Some? {
        return;
      }
      if path !in files {
        stop := Some(Missing);
        return;
      }
      var original := files[path];
      var changed := transform(original);
      if original == changed {
        return;
      }
      var ok := Spend();
      if !ok {
        return;
      }
      backups := backups[|patches| := original];
      patches := patches + [Entry(path, |patches|, hash(changed))];
      ok := Spend();
      if !ok {
        return;
      }
      journal := patches;
      ok := Spend();
      if ok {
        files := files[path := changed];
      }
    }

    /** Walks the journal backwards. */
    method Undo()
      modifies this
      ensures State() == RestoreFrom(old(State()), hash, |old(journal)|)
    {
      hide RestoreFrom;
      var n: nat := |journal|;
      while n > 0 && stop.None?
        invariant n <= |journal| && journal == old(journal)
        invariant RestoreFrom(State(), hash, n) == RestoreFrom(old(State()), hash, |old(journal)|)
      {
        RestoreCases(State(), hash, n);
        var p := journal[n - 1];
        if p.backup !in backups || p.path !in files {
          stop := Some(Missing);
          return;
        }
        if files[p.path] != backups[p.backup] {
          if hash(files[p.path]) != p.newHash {
            stop := Some(Refused);
            return;
          }
          var ok := Spend();
          if !ok {
            return;
          }
          files := files[p.path := backups[p.backup]];
        }
        n := n - 1;
      }
      RestoreCases(State(), hash, n);
    }
  }

  // ---------------------------------------------------------------------------
  // What restore does
  // ---------------------------------------------------------------------------

  lemma PatchFileCases(m: Machine, hash: Content -> int, c: Change)
    ensures var after := PatchFile(m, hash, c);
            if m.stop.Some? then after == m
            else if c.path !in m.files then after == m.(stop := Some(Missing))
            else
              var original, changed := m.files[c.path], c.transform(m.files[c.path]);
              var n := |m.patches|;
              var saved := m.(backups := m.backups[n := original]);
              var logged := saved.(patches := m.patches + [Entry(c.path, n, hash(changed))], journal := m.patches + [Entry(c.path, n, hash(changed))]);
              if original == changed then after == m
              else if m.budget == 0 then after == m.(stop := Some(Crash))
              else if m.budget == 1 then after == saved.(patches := logged.patches, budget := 0, stop := Some(Crash))
              else if m.budget == 2 then after == logged.(budget := 0, stop := Some(Crash))
              else after == logged.(files := m.files[c.path := changed], budget := m.budget - 3)
  {
  }

  /** A file's content after the changes made to it, one after the other. */
  function Applied(content: Content, changes: seq<Change>, path: Path): Content {
    if changes == [] then content
    else
      var before := Applied(content, changes[..|changes| - 1], path);
      var c := changes[|changes| - 1];
      if c.path == path then c.transform(before) else before
  }

  /**
    Patching that is not cut short changes every file as told, and no other; each change that makes a
    difference is journalled, with a backup of the file as it was.
   */
  lemma {:induction false} PatchesApplied(m: Machine, hash: Content -> int, changes: seq<Change>)
    requires m.stop.None? && m.budget >= 3 * |changes| && forall i :: 0 <= i < |changes| ==> changes[i].path in m.files
    ensures var r := PatchAll(m, hash, changes);
      && r.stop.None? && r.budget >= m.budget - 3 * |changes| && r.files.Keys == m.files.Keys
      && (forall path :: path in m.files ==> r.files[path] == Applied(m.files[path], changes, path))
  {
    if changes != [] {
      var last := |changes| - 1;
      PatchesApplied(m, hash, changes[..last]);
      PatchFileCases(PatchAll(m, hash, changes[..last]), hash, changes[last]);
      hide PatchFile;
    }
  }

  lemma PatchJournalled(m: Machine, hash: Content -> int, c: Change)
    requires m.stop.None? && m.budget >= 3 && c.path in m.files && m.patches == m.journal
    ensures var r := PatchAll(m, hash, [c]);
      var changed := c.transform(m.files[c.path]);
      if changed == m.files[c.path] then r == m
      else
        && r.files == m.files[c.path := changed]
        && r.journal == m.journal + [Entry(c.path, |m.journal|, hash(changed))] && r.patches == r.journal
        && r.backups == m.backups[|m.journal| := m.files[c.path]]
  {
    assert [c][..0] == [];
    assert PatchAll(m, hash, []) == m;
    assert PatchAll(m, hash, [c]) == PatchFile(m, hash, c);
    PatchFileCases(m, hash, c);
    hide PatchFile, PatchAll;
  }

  /** Restore never overwrites what is neither a backup nor the patched version of that file. */
  lemma {:induction false} ForeignStays(m: Machine, hash: Content -> int, n: nat, path: Path)
    requires n <= |m.journal| && path in m.files
    requires forall i :: 0 <= i < n && m.journal[i].path == path ==> hash(m.files[path]) != m.journal[i].newHash
    ensures path in RestoreFrom(m, hash, n).files && RestoreFrom(m, hash, n).files[path] == m.files[path]
    decreases n
  {
    if m.stop.None? && n > 0 {
      var p := m.journal[n - 1];
      if p.backup in m.backups && p.path in m.files {
        if m.files[p.path] == m.backups[p.backup] {
          ForeignStays(m, hash, n - 1, path);
        } else if hash(m.files[p.path]) == p.newHash {
          ForeignStays(Writing(m, m.(files := m.files[p.path := m.backups[p.backup]])), hash, n - 1, path);
        }
      }
    }
  }

  /** Why restore stops at entry i: its file or backup is gone, or the file is neither the backup nor what was written. */
  function Halt(m: Machine, hash: Content -> int, i: nat): Option<Stop>
    requires i < |m.journal|
  {
    var p := m.journal[i];
    if p.backup !in m.backups || p.path !in m.files then Some(Missing)
    else if m.files[p.path] != m.backups[p.backup] && hash(m.files[p.path]) != p.newHash then Some(Refused)
    else None
  }

  /** Restoring back from entry n - 1 stops before it has dealt with entry i. */
  predicate Blocked(m: Machine, hash: Content -> int, n: nat, i: nat)
    requires n <= |m.journal|
  {
    exists j :: i <= j < n && Halt(m, hash, j).Some?
  }

  /** The reason of the last of the first n entries that has one. */
  function LastHalt(m: Machine, hash: Content -> int, n: nat): Option<Stop>
    requires n <= |m.journal|
  {
    if n == 0 then None
    else if Halt(m, hash, n - 1).Some? then Halt(m, hash, n - 1)
    else LastHalt(m, hash, n - 1)
  }

  predicate Distinct(journal: seq<Patch>) {
    forall i, j :: 0 <= i < j < |journal| ==> journal[i].path != journal[j].path
  }

  /** The file of entry i is as it was if the restore stops before it, and at its backup otherwise. */
  predicate Settled(m: Machine, hash: Content -> int, n: nat, r: Machine, i: nat)
    requires i < n <= |m.journal|
  {
    var p := m.journal[i];
    if Blocked(m, hash, n, i) then p.path in m.files ==> p.path in r.files && r.files[p.path] == m.files[p.path]
    else p.path in r.files && p.backup in m.backups && r.files[p.path] == m.backups[p.backup]
  }

  ghost predicate RestoredExactly(m: Machine, hash: Content -> int, n: nat, r: Machine)
    requires n <= |m.journal|
  {
    && r.stop == LastHalt(m, hash, n)
    && r.files.Keys == m.files.Keys
    && (forall i: nat :: i < n ==> Settled(m, hash, n, r, i))
    && (forall path :: path in m.files && (forall i :: 0 <= i < n ==> m.journal[i].path != path) ==> r.files[path] == m.files[path])
  }

  /**
    A restore that is not cut short stops if and only if some entry meets a foreign or a missing file, and says
    so for the last such entry. Then the files of that entry and of all entries before it are left exactly as
    they were, and those of the later entries are back at their backups; otherwise all are.
   */
  lemma {:induction false} RestoreExactly(m: Machine, hash: Content -> int, n: nat)
    requires Distinct(m.journal) && n <= |m.journal| && m.stop.None? && m.budget >= n
    ensures RestoredExactly(m, hash, n, RestoreFrom(m, hash, n))
    decreases n
  {
    hide *;
    if n == 0 {
      NothingExactly(m, hash);
    } else if Halt(m, hash, n - 1).Some? {
      HaltedExactly(m, hash, n);
    } else {
      var q := StepBack(m, hash, n);
      RestoreExactly(q, hash, n - 1);
      LaterExactly(m, hash, n, q, RestoreFrom(q, hash, n - 1));
    }
  }

  lemma NothingExactly(m: Machine, hash: Content -> int)
    requires m.stop.None?
    ensures RestoredExactly(m, hash, 0, RestoreFrom(m, hash, 0))
  {
  }

  lemma HaltedExactly(m: Machine, hash: Content -> int, n: nat)
    requires 0 < n <= |m.journal| && m.stop.None? && Halt(m, hash, n - 1).Some?
    ensures RestoredExactly(m, hash, n, RestoreFrom(m, hash, n))
  {
    RestoreCases(m, hash, n);
    hide RestoreFrom;
    forall i: nat | i < n ensures Blocked(m, hash, n, i) {
      assert Halt(m, hash, n - 1).Some?;
    }
  }

  /** The state after entry n - 1. */
  lemma StepBack(m: Machine, hash: Content -> int, n: nat) returns (q: Machine)
    requires 0 < n <= |m.journal| && m.stop.None? && m.budget >= n && Halt(m, hash, n - 1).None?
    ensures q.stop.None? && q.budget >= n - 1 && Restored(m, n - 1, q) && q.journal == m.journal
    ensures RestoreFrom(m, hash, n) == RestoreFrom(q, hash, n - 1)
  {
    RestoreCases(m, hash, n);
    hide RestoreFrom;
    var p := m.journal[n - 1];
    var put := m.(files := m.files[p.path := m.backups[p.backup]]);
    q := if m.files[p.path] == m.backups[p.backup] then m else put.(budget := m.budget - 1);
    assert q.files == put.files;
  }

  /** The file of entry k, and nothing else, is put back. */
  ghost predicate Restored(m: Machine, k: nat, q: Machine)
    requires k < |m.journal|
  {
    var p := m.journal[k];
    && p.backup in m.backups && p.path in m.files
    && q.(budget := m.budget) == m.(files := m.files[p.path := m.backups[p.backup]])
  }

  lemma LaterExactly(m: Machine, hash: Content -> int, n: nat, q: Machine, r: Machine)
    requires Distinct(m.journal) && 0 < n <= |m.journal| && Halt(m, hash, n - 1).None?
    requires Restored(m, n - 1, q) && q.journal == m.journal && RestoredExactly(q, hash, n - 1, r)
    ensures RestoredExactly(m, hash, n, r)
  {
    SameHalts(m, q, hash, n, n - 1);
    forall i: nat | i < n ensures Settled(m, hash, n, r, i) {
      SettledBefore(m, q, hash, n, r, i);
    }
    hide Settled, Halt;
  }

  lemma SettledBefore(m: Machine, q: Machine, hash: Content -> int, n: nat, r: Machine, i: nat)
    requires Distinct(m.journal) && i < n <= |m.journal| && Halt(m, hash, n - 1).None?
    requires Restored(m, n - 1, q) && q.journal == m.journal && RestoredExactly(q, hash, n - 1, r)
    ensures Settled(m, hash, n, r, i)
  {
    SameBlocked(m, q, hash, n, i);
    hide Blocked, Halt, LastHalt;
    if i < n - 1 {
      assert Settled(q, hash, n - 1, r, i);
    } else {
      assert q.journal[n - 1].path in q.files;
    }
  }

  lemma {:induction false} SameHalts(m: Machine, q: Machine, hash: Content -> int, n: nat, k: nat)
    requires Distinct(m.journal) && k < n <= |m.journal| && Restored(m, n - 1, q) && q.journal == m.journal
    ensures LastHalt(q, hash, k) == LastHalt(m, hash, k)
  {
    if k > 0 {
      SameHalt(m, q, hash, n - 1, k - 1);
      SameHalts(m, q, hash, n, k - 1);
    } else {
      assert LastHalt(q, hash, 0) == None;
    }
  }

  lemma SameBlocked(m: Machine, q: Machine, hash: Content -> int, n: nat, i: nat)
    requires Distinct(m.journal) && i < n <= |m.journal| && Halt(m, hash, n - 1).None?
    requires Restored(m, n - 1, q) && q.journal == m.journal
    ensures Blocked(m, hash, n, i) == (i < n - 1 && Blocked(q, hash, n - 1, i))
  {
    forall j: nat | j < n - 1 ensures Halt(q, hash, j) == Halt(m, hash, j) {
      SameHalt(m, q, hash, n - 1, j);
    }
    hide Halt;
  }

  lemma SameHalt(m: Machine, q: Machine, hash: Content -> int, k: nat, i: nat)
    requires Distinct(m.journal) && i < k < |m.journal| && Restored(m, k, q)
    ensures q.journal == m.journal && Halt(q, hash, i) == Halt(m, hash, i)
  {
    assert q.journal == m.journal && q.backups == m.backups;
  }

  // ---------------------------------------------------------------------------
  // The same file twice
  // ---------------------------------------------------------------------------

  function HeadHash(c: Content): int { if c == [] then 0 else c[0] }

  function Grow(c: Content): Content { if c == [] then [] else [c[0] + 1] }

  function TwoFiles(a: int, b: int): map<Path, Content> { map["a" := [a], "b" := [b]] }

  const JOURNAL: seq<Patch> := [Entry("b", 0, 5), Entry("a", 1, 2), Entry("a", 2, 3)]

  /** One effective patch with writes enough. */
  lemma PatchedOnce(m: Machine, path: Path, head: int)
    requires m.stop.None? && m.budget >= 3 && path in m.files && m.files[path] == [head]
    ensures var entry := Entry(path, |m.patches|, head + 1);
            PatchFile(m, HeadHash, Change(path, Grow)) ==
            Machine(m.files[path := [head + 1]], m.backups[|m.patches| := [head]], m.patches + [entry], m.patches + [entry], m.budget - 3, None)
  {
    hide PatchFile;
    PatchFileCases(m, HeadHash, Change(path, Grow));
  }

  lemma TwicePatched() returns (m: Machine)
    ensures m == PatchAll(Fresh(TwoFiles(1, 4), 9), HeadHash, [Change("b", Grow), Change("a", Grow), Change("a", Grow)])
    ensures m == Machine(TwoFiles(3, 5), map[0 := [4], 1 := [1], 2 := [2]], JOURNAL, JOURNAL, 0, None)
  {
    hide PatchFile, Grow, HeadHash;
    var one, two := Change("b", Grow), Change("a", Grow);
    var m0 := Fresh(TwoFiles(1, 4), 9);
    PatchedOnce(m0, "b", 4);
    var m1 := PatchFile(m0, HeadHash, one);
    PatchedOnce(m1, "a", 1);
    var m2 := PatchFile(m1, HeadHash, two);
    PatchedOnce(m2, "a", 2);
    m := PatchFile(m2, HeadHash, two);
    assert m.files == TwoFiles(3, 5) && m.journal == JOURNAL;
    ThreeChanges(m0, one, two);
  }

  lemma ThreeChanges(m: Machine, one: Change, two: Change)
    ensures PatchAll(m, HeadHash, [one, two, two]) == PatchFile(PatchFile(PatchFile(m, HeadHash, one), HeadHash, two), HeadHash, two)
  {
    hide PatchFile;
    assert [one, two, two][..2] == [one, two] && [one, two][..1] == [one] && [one][..0] == [];
    assert PatchAll(m, HeadHash, [one]) == PatchFile(PatchAll(m, HeadHash, []), HeadHash, one);
  }

  /**
    With one file patched twice a crashed restore may not be repeatable: once that file is back at its
    original, the later of its two entries no longer recognises it, and earlier entries are never reached.
   */
  lemma SameFileTwiceStuck()
    ensures var changes := [Change("b", Grow), Change("a", Grow), Change("a", Grow)];
            var patched := PatchAll(Fresh(TwoFiles(1, 4), 9), HeadHash, changes);
            var cutShort := Restore(patched, HeadHash, 2);
            && patched.files == TwoFiles(3, 5)
            && cutShort.files == TwoFiles(1, 5) && cutShort.stop == Some(Crash)
            && Restore(cutShort, HeadHash, 9) == Reboot(cutShort, 9).(stop := Some(Refused))
  {
    hide PatchAll, RestoreFrom;
    var m := TwicePatched();
    TwiceCutShort(m);
    TwiceRefused(Reboot(m, 2).(files := TwoFiles(1, 5), budget := 0, stop := Some(Crash)));
  }

  lemma UndoOne(m: Machine, n: nat)
    requires m.files == TwoFiles(n, 5) && m.backups == map[0 := [4], 1 := [1], 2 := [2]] && m.journal == JOURNAL
    requires 2 <= n <= 3 && m.stop.None? && m.budget > 0
    ensures RestoreFrom(m, HeadHash, n) == RestoreFrom(m.(files := TwoFiles(n - 1, 5), budget := m.budget - 1), HeadHash, n - 1)
  {
    hide RestoreFrom;
    RestoreCases(m, HeadHash, n);
    assert m.files["a" := [n - 1]] == TwoFiles(n - 1, 5);
  }

  lemma TwiceCutShort(m: Machine)
    requires m == Machine(TwoFiles(3, 5), map[0 := [4], 1 := [1], 2 := [2]], JOURNAL, JOURNAL, 0, None)
    ensures Restore(m, HeadHash, 2) == Reboot(m, 2).(files := TwoFiles(1, 5), budget := 0, stop := Some(Crash))
  {
    hide RestoreFrom;
    var r3 := Reboot(m, 2);
    UndoOne(r3, 3);
    UndoOne(r3.(files := TwoFiles(2, 5), budget := 1), 2);
    RestoreCases(r3.(files := TwoFiles(1, 5), budget := 0), HeadHash, 1);
  }

  lemma TwiceRefused(m: Machine)
    requires m.files == TwoFiles(1, 5) && m.backups == map[0 := [4], 1 := [1], 2 := [2]] && m.journal == JOURNAL
    ensures Restore(m, HeadHash, 9) == Reboot(m, 9).(stop := Some(Refused))
  {
    hide RestoreFrom;
    RestoreCases(Reboot(m, 9), HeadHash, 3);
  }
}
