/**
 Applying a plan of file changes: read what is there, back it up, replace the files one by one, and put
 everything back when one replacement fails.  The process may be killed before any file operation.

 Each replacement is all-or-nothing; putting a file back succeeds.  Backups live outside the plan.
 */
module ApplyPlan {
  import opened Wrappers

  type Path = string

  type Bytes = seq<int>

  datatype File = File(content: Bytes, mode: nat)

  const PRIVATE: nat := 0x180 // 0o600

  datatype Change = Change(path: Path, content: Bytes)

  datatype Outcome = Applied | BackupFailed | RolledBack | Killed

  /** How one file operation went. */
  datatype Fate = Done | Refused | Gone

  type Files = map<Path, File>

  predicate Distinct(changes: seq<Change>) {
    forall i, j | 0 <= i < j < |changes| :: changes[i].path != changes[j].path
  }

  function Paths(changes: seq<Change>): set<Path> {
    set i | 0 <= i < |changes| :: changes[i].path
  }

  /** The file a change leaves: the old mode if there was a file, private otherwise. */
  function Planned(before: Files, c: Change): File {
    File(c.content, if c.path in before then before[c.path].mode else PRIVATE)
  }

  /** The files with the first `n` changes made. */
  function After(before: Files, changes: seq<Change>, n: nat): Files
    requires n <= |changes|
  {
    if n == 0 then before
    else After(before, changes, n - 1)[changes[n - 1].path := Planned(before, changes[n - 1])]
  }

  lemma {:induction false} AfterAt(before: Files, changes: seq<Change>, n: nat, p: Path)
    requires n <= |changes| && Distinct(changes)
    ensures var files := After(before, changes, n);
            && (forall i | 0 <= i < n && changes[i].path == p :: p in files && files[p] == Planned(before, changes[i]))
            && ((forall i | 0 <= i < n :: changes[i].path != p) ==>
                  (p in files <==> p in before) && (p in before ==> files[p] == before[p]))
  {
    if n > 0 { AfterAt(before, changes, n - 1, p); }
  }

  /** Every file of the plan that was there has its bytes in a private backup. */
  ghost predicate Saved(before: Files, changes: seq<Change>, backups: Files) {
    forall p | p in Paths(changes) && p in before :: p in backups && backups[p] == File(before[p].content, PRIVATE)
  }

  /** What holds at every moment: some first part of the plan is done, and none of it unless all is saved. */
  ghost predicate Recoverable(before: Files, changes: seq<Change>, files: Files, backups: Files) {
    && (exists n: nat :: n <= |changes| && files == After(before, changes, n))
    && (files != before ==> Saved(before, changes, backups))
  }

  /** So the original bytes of every file are in its place or in its backup. */
  lemma NothingIsLost(before: Files, changes: seq<Change>, files: Files, backups: Files, p: Path)
    requires Distinct(changes) && Recoverable(before, changes, files, backups) && p in before
    ensures (p in files && files[p] == before[p]) || (p in backups && backups[p].content == before[p].content)
  {
    var n: nat :| n <= |changes| && files == After(before, changes, n);
    AfterAt(before, changes, n, p);
    if i :| 0 <= i < n && changes[i].path == p {
      assert changes[i].path in Paths(changes);
      if files == before { assert p in files && files[p] == before[p]; }
    }
  }

  /** `left` is how many more file operations the process lives for. */
  class Project {
    var files: Files
    var backups: Files
    var left: nat

    constructor (files: Files, left: nat)
      ensures this.files == files && backups == map[] && this.left == left
    {
      this.files, backups, this.left := files, map[], left;
    }

    /** `write_atomic`: a failed replacement leaves the file as it was. */
    method WriteAtomic(path: Path, content: Bytes, mode: nat, fails: bool) returns (fate: Fate)
      modifies this`files, this`left
      ensures fate == if old(left) == 0 then Gone else if fails then Refused else Done
      ensures files == if fate.Done? then old(files)[path := File(content, mode)] else old(files)
      ensures left == if old(left) == 0 then 0 else old(left) - 1
    {
      if left == 0 {
        return Gone;
      }
      left := left - 1;
      if fails {
        return Refused;
      }
      files := files[path := File(content, mode)];
      return Done;
    }

    /** Creates the private backup, then writes it; a process that dies in between leaves it empty. */
    method WriteBackup(path: Path, content: Bytes, fails: bool) returns (fate: Fate)
      modifies this`backups, this`left
      ensures fate == if old(left) == 0 then Gone else if fails then Refused else if old(left) == 1 then Gone else Done
      ensures fate.Done? ==> backups == old(backups)[path := File(content, PRIVATE)] && left == old(left) - 2
      ensures forall p | p in old(backups) && p != path :: p in backups && backups[p] == old(backups)[p]
      ensures fate.Gone? ==> left == 0
      ensures left <= old(left)
    {
      if left == 0 {
        return Gone;
      }
      left := left - 1;
      if fails {
        return Refused;
      }
      backups := backups[path := File([], PRIVATE)];
      if left == 0 {
        return Gone;
      }
      left := left - 1;
      backups := backups[path := File(content, PRIVATE)];
      return Done;
    }

    /** Backs up every planned file that exists; stops at the first that cannot be written. */
    method BackUp(previous: Files, changes: seq<Change>, backupFailsAt: nat) returns (fate: Fate)
      requires previous == files
      modifies this`backups, this`left
      ensures fate.Done? ==> Saved(previous, changes, backups) && left >= old(left) - 2 * |changes|
      ensures fate.Done? ==> forall i | 0 <= i < |changes| && changes[i].path in previous :: i != backupFailsAt
      ensures fate.Refused? ==> backupFailsAt < |changes| && changes[backupFailsAt].path in previous
      ensures fate.Gone? ==> left == 0 && old(left) < 2 * |changes|
      ensures forall p | p in old(backups) && p !in Paths(changes) :: p in backups && backups[p] == old(backups)[p]
    {
      for i := 0 to |changes|
        invariant left >= old(left) - 2 * i
        invariant forall j | 0 <= j < i && changes[j].path in previous ::
                    var p := changes[j].path; j != backupFailsAt && p in backups && backups[p] == File(previous[p].content, PRIVATE)
        invariant forall p | p in old(backups) && p !in Paths(changes) :: p in backups && backups[p] == old(backups)[p]
      {
        var p := changes[i].path;
        assert p in Paths(changes);
        if p in previous {
          fate := WriteBackup(p, previous[p].content, i == backupFailsAt);
          if !fate.Done? {
            return;
          }
        }
      }
      return Done;
    }

    /** Puts back the first `n` paths, last first. */
    method RollBack(previous: Files, changes: seq<Change>, n: nat) returns (fate: Fate)
      requires n <= |changes| && Distinct(changes) && files == After(previous, changes, n)
      modifies this`files, this`left
      ensures fate.Done? ==> files == previous
      ensures fate.Gone? ==> left == 0 && old(left) < n
      ensures !fate.Refused? && exists k: nat :: k <= n && files == After(previous, changes, k)
    {
      var i := n;
      while i > 0
        invariant 0 <= i <= n && files == After(previous, changes, i) && left == old(left) - (n - i)
      {
        if left == 0 {
          return Gone;
        }
        i := i - 1;
        var p := changes[i].path;
        AfterAt(previous, changes, i, p);
        if p in previous {
          var restored := WriteAtomic(p, previous[p].content, previous[p].mode, false);
        } else {
          files := files - {p};
          left := left - 1;
        }
      }
      return Done;
    }

    /** Write `failsAt` is the first to fail, if there is one; so is backup `backupFailsAt`. */
    method Apply(changes: seq<Change>, backupFailsAt: nat, failsAt: nat) returns (outcome: Outcome)
      requires Distinct(changes)
      modifies this
      // Wherever the process dies, and however it ends.
      ensures Recoverable(old(files), changes, files, backups)
      ensures outcome == Killed ==> left == 0 && old(left) < 4 * |changes|
      ensures outcome == BackupFailed || outcome == RolledBack ==> files == old(files)
      ensures outcome == Applied ==> files == After(old(files), changes, |changes|)
      ensures outcome == Applied ==>
                && (forall i | 0 <= i < |changes| ::
                      var p := changes[i].path;
                      p in files && files[p] == File(changes[i].content, if p in old(files) then old(files)[p].mode else 0x180))
                && (forall p | p !in Paths(changes) ::
                      (p in files <==> p in old(files)) && (p in files ==> files[p] == old(files)[p]))
      ensures outcome == Applied || outcome == RolledBack ==> Saved(old(files), changes, backups)
      ensures outcome == BackupFailed ==> backupFailsAt < |changes| && changes[backupFailsAt].path in old(files)
      ensures outcome == RolledBack ==> failsAt < |changes|
      ensures outcome == Applied ==>
                failsAt >= |changes| && !(backupFailsAt < |changes| && changes[backupFailsAt].path in old(files))
    {
      var previous := files;
      assert files == After(previous, changes, 0);
      var saved := BackUp(previous, changes, backupFailsAt);
      if !saved.Done? {
        return if saved.Gone? then Killed else BackupFailed;
      }
      ghost var kept := backups;
      var applied := 0;
      while applied < |changes|
        invariant backups == kept && applied <= |changes| && applied <= failsAt && files == After(previous, changes, applied)
        invariant left >= old(left) - 2 * |changes| - applied
      {
        var c := changes[applied];
        var written := WriteAtomic(c.path, c.content, if c.path in previous then previous[c.path].mode else PRIVATE, applied == failsAt);
        if written.Gone? {
          return Killed;
        }
        if written.Refused? {
          var restored := RollBack(previous, changes, applied);
          return if restored.Gone? then Killed else RolledBack;
        }
        applied := applied + 1;
      }
      forall i | 0 <= i < |changes| ensures changes[i].path in files && files[changes[i].path] == Planned(previous, changes[i]) {
        AfterAt(previous, changes, |changes|, changes[i].path);
      }
      forall p | p !in Paths(changes) ensures (p in files <==> p in previous) && (p in files ==> files[p] == previous[p]) {
        forall i | 0 <= i < |changes| ensures changes[i].path != p { assert changes[i].path in Paths(changes); }
        AfterAt(previous, changes, |changes|, p);
      }
      return Applied;
    }
  }
}
