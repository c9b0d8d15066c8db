/** Saving the policy store: a temporary file, a backup, and renames, with a crash
possible between any two file operations.

Renames are atomic; writes and copies are not, and leave partial files behind.
Files are plain text (encryption is left out), so a file that exists is parsed.
*/
module PolicyFiles {
  import opened Common
  import opened PolicyStore

  datatype Disk = Disk(target: Option<string>, temp: Option<string>, backup: Option<string>)

  /** One file operation that takes effect; one that fails without effect is not a
      step. */
  datatype Step = WriteTemp(text: string) | RemoveTemp | WriteBackup(text: string) | RemoveTarget | RenameTemp

  /** How the operations of one save go. `partial` and `copying` are what the files
      hold while they are written; a copy that fails may leave the last of these. */
  datatype Luck =
    | Luck(opens: bool, partial: seq<string>, writes: bool, copying: seq<string>, copies: bool, renames: bool,
        removes: bool, renamesAgain: bool)

  function Apply(d: Disk, s: Step): Disk {
    match s
    case WriteTemp(text) => d.(temp := Some(text))
    case RemoveTemp => d.(temp := None)
    case WriteBackup(text) => d.(backup := Some(text))
    case RemoveTarget => d.(target := None)
    case RenameTemp => if d.temp.Some? then d.(target := d.temp, temp := None) else d
  }

  function After(d: Disk, steps: seq<Step>): Disk {
    if steps == [] then d else Apply(After(d, steps[..|steps| - 1]), steps[|steps| - 1])
  }

  function TempWrites(partial: seq<string>): (r: seq<Step>)
    ensures |r| == |partial| && forall i :: 0 <= i < |r| ==> r[i] == WriteTemp(partial[i])
  {
    seq(|partial|, i requires 0 <= i < |partial| => WriteTemp(partial[i]))
  }

  function BackupWrites(copying: seq<string>): (r: seq<Step>)
    ensures |r| == |copying| && forall i :: 0 <= i < |r| ==> r[i] == WriteBackup(copying[i])
  {
    seq(|copying|, i requires 0 <= i < |copying| => WriteBackup(copying[i]))
  }

  /** Phase one: the temporary file. */
  function Writing(text: string, luck: Luck): seq<Step> {
    if !luck.opens then []
    else TempWrites(luck.partial) + (if luck.writes then [WriteTemp(text)] else [RemoveTemp])
  }

  /** Phase two: the backup of an existing target. */
  function Copying(target: Option<string>, luck: Luck): seq<Step> {
    if target.None? then []
    else BackupWrites(luck.copying) + (if luck.copies then [WriteBackup(target.value)] else [])
  }

  /** Phase three: the renames. */
  function Renaming(luck: Luck): seq<Step> {
    if luck.renames then [RenameTemp]
    else (if luck.removes then [RemoveTarget] else []) + (if luck.renamesAgain then [RenameTemp] else [RemoveTemp])
  }

  function Steps(d: Disk, text: string, luck: Luck): seq<Step> {
    Writing(text, luck) + if luck.opens && luck.writes then Copying(d.target, luck) + Renaming(luck) else []
  }

  predicate Saved(luck: Luck) { luck.opens && luck.writes && (luck.renames || luck.renamesAgain) }

  function Load(d: Disk): Option<Store> {
    if d.target.Some? then Some(Parse(d.target.value))
    else if d.backup.Some? then Some(Parse(d.backup.value))
    else None
  }

  // ---- the save, in place ----

  class Files {
    var target: Option<string>
    var temp: Option<string>
    var backup: Option<string>

    function View(): Disk
      reads this
    {
      Disk(target, temp, backup)
    }

    method Save(text: string, luck: Luck) returns (ok: bool)
      modifies this
      ensures View() == After(old(View()), Steps(old(View()), text, luck)) && (ok <==> Saved(luck))
    {
      ghost var start := View();
      if !luck.opens {
        return false;
      }
      for i := 0 to |luck.partial|
        invariant View() == After(start, TempWrites(luck.partial)[..i])
      {
        AfterPush(start, TempWrites(luck.partial), i);
        temp := Some(luck.partial[i]);
      }
      assert TempWrites(luck.partial)[..|luck.partial|] == TempWrites(luck.partial);
      AfterAppend(start, TempWrites(luck.partial), if luck.writes then [WriteTemp(text)] else [RemoveTemp]);
      AfterOne(View(), if luck.writes then WriteTemp(text) else RemoveTemp);
      if !luck.writes {
        temp := None;
        assert Steps(start, text, luck) == Writing(text, luck);
        return false;
      }
      temp := Some(text);
      ghost var written := View();
      WritingKeeps(start, text, luck);
      if target.Some? {
        for i := 0 to |luck.copying|
          invariant View() == After(written, BackupWrites(luck.copying)[..i]) && target == start.target &&
              temp == Some(text)
        {
          AfterPush(written, BackupWrites(luck.copying), i);
          backup := Some(luck.copying[i]);
        }
        assert BackupWrites(luck.copying)[..|luck.copying|] == BackupWrites(luck.copying);
        if luck.copies {
          AfterAppend(written, BackupWrites(luck.copying), [WriteBackup(target.value)]);
          AfterOne(View(), WriteBackup(target.value));
          backup := Some(target.value);
        } else {
          assert BackupWrites(luck.copying) + [] == BackupWrites(luck.copying);
        }
      }
      assert View() == After(written, Copying(start.target, luck));
      ghost var ready := View();
      AfterAppend(start, Writing(text, luck), Copying(start.target, luck) + Renaming(luck));
      AfterAppend(written, Copying(start.target, luck), Renaming(luck));
      RenamingEnds(ready, text, luck);
      if luck.renames {
        target, temp := temp, None;
      } else {
        if luck.removes {
          target := None;
        }
        if !luck.renamesAgain {
          temp := None;
          return false;
        }
        target, temp := temp, None;
      }
      ok := true;
    }
  }

  lemma AfterPush(d: Disk, steps: seq<Step>, i: nat)
    requires i < |steps|
    ensures After(d, steps[..i + 1]) == Apply(After(d, steps[..i]), steps[i])
  {
    assert steps[..i + 1][..i] == steps[..i];
  }

  lemma AfterOne(d: Disk, s: Step)
    ensures After(d, [s]) == Apply(d, s)
  {
    assert [s][..0] == [];
  }

  lemma {:induction false} AfterAppend(d: Disk, a: seq<Step>, b: seq<Step>)
    ensures After(d, a + b) == After(After(d, a), b)
  {
    if b == [] {
      assert a + b == a;
    } else {
      assert (a + b)[..|a + b| - 1] == a + b[..|b| - 1];
      AfterAppend(d, a, b[..|b| - 1]);
    }
  }

  // ---- what each phase leaves ----

  lemma {:induction false} TempWritesKeep(d: Disk, partial: seq<string>, k: nat)
    requires k <= |partial|
    ensures var r := After(d, TempWrites(partial)[..k]); r.target == d.target && r.backup == d.backup
  {
    if k > 0 {
      TempWritesKeep(d, partial, k - 1);
      AfterPush(d, TempWrites(partial), k - 1);
    }
  }

  lemma WritingKeeps(d: Disk, text: string, luck: Luck)
    ensures var r := After(d, Writing(text, luck));
            && r.target == d.target && r.backup == d.backup
            && (luck.opens ==> r.temp == if luck.writes then Some(text) else None)
            && (!luck.opens ==> r == d)
  {
    if luck.opens {
      var steps := TempWrites(luck.partial);
      TempWritesKeep(d, luck.partial, |luck.partial|);
      assert steps[..|steps|] == steps;
      var last := if luck.writes then WriteTemp(text) else RemoveTemp;
      AfterAppend(d, steps, [last]);
      AfterOne(After(d, steps), last);
    }
  }

  lemma RenamingEnds(d: Disk, text: string, luck: Luck)
    requires d.temp == Some(text)
    ensures After(d, Renaming(luck)) ==
              if luck.renames || luck.renamesAgain then d.(target := Some(text), temp := None)
              else d.(target := if luck.removes then None else d.target, temp := None)
  {
    if luck.renames {
      AfterOne(d, RenameTemp);
    } else {
      var last := if luck.renamesAgain then RenameTemp else RemoveTemp;
      if luck.removes {
        assert Renaming(luck) == [RemoveTarget] + [last];
        AfterAppend(d, [RemoveTarget], [last]);
        AfterOne(d, RemoveTarget);
        AfterOne(d.(target := None), last);
      } else {
        assert Renaming(luck) == [last];
        AfterOne(d, last);
      }
    }
  }

  // ---- crashes ----

  predicate Harmless(s: Step) { !s.RemoveTarget? && !s.RenameTemp? }

  lemma {:induction false} TargetStays(d: Disk, steps: seq<Step>)
    requires forall i :: 0 <= i < |steps| ==> Harmless(steps[i])
    ensures After(d, steps).target == d.target
  {
    if steps != [] { TargetStays(d, steps[..|steps| - 1]); }
  }

  /** The old content or the new, nothing else. */
  predicate OldOrNew(d: Disk, old_: string, text: string) {
    Load(d) == Some(Parse(old_)) || Load(d) == Some(Parse(text))
  }

  /** Wherever the machine stops, Load reads the old store or the new one. */
  ghost predicate Survives(d: Disk, text: string, luck: Luck)
    requires d.target.Some?
  {
    forall k :: 0 <= k <= |Steps(d, text, luck)| ==> OldOrNew(After(d, Steps(d, text, luck)[..k]), d.target.value, text)
  }

  /** What the backup holds once copying is over; without a target it is left alone. */
  function Backed(d: Disk, luck: Luck): Option<string> {
    if d.target.None? then d.backup
    else if luck.copies then d.target
    else if luck.copying != [] then Some(luck.copying[|luck.copying| - 1])
    else d.backup
  }

  predicate BackupServes(d: Disk, text: string, luck: Luck)
    requires d.target.Some?
  {
    Backed(d, luck).Some? &&
        (Parse(Backed(d, luck).value) == Parse(d.target.value) || Parse(Backed(d, luck).value) == Parse(text))
  }

  lemma {:induction false} BackupWritesEnd(d: Disk, copying: seq<string>)
    ensures After(d, BackupWrites(copying)) == if copying == [] then d else d.(backup := Some(copying[|copying| - 1]))
  {
    if copying != [] {
      var n := |copying| - 1;
      BackupWritesEnd(d, copying[..n]);
      assert BackupWrites(copying)[..n] == BackupWrites(copying[..n]);
    }
  }

  lemma CopyingEnds(d: Disk, luck: Luck)
    ensures After(d, Copying(d.target, luck)) == d.(backup := Backed(d, luck))
  {
    BackupWritesEnd(d, luck.copying);
    if d.target.None? {
    } else if luck.copies {
      AfterAppend(d, BackupWrites(luck.copying), [WriteBackup(d.target.value)]);
      AfterOne(After(d, BackupWrites(luck.copying)), WriteBackup(d.target.value));
    } else {
      assert Copying(d.target, luck) == BackupWrites(luck.copying);
    }
  }

  /** The disk when the renames begin. */
  lemma ReadyToRename(d: Disk, text: string, luck: Luck)
    requires luck.opens && luck.writes
    ensures After(d, Writing(text, luck) + Copying(d.target, luck)) == Disk(d.target, Some(text), Backed(d, luck))
  {
    WritingKeeps(d, text, luck);
    var w := After(d, Writing(text, luck));
    CopyingEnds(w, luck);
    AfterAppend(d, Writing(text, luck), Copying(d.target, luck));
  }

  /** The renames survive a crash if and only if the first succeeds, or the target
      is not removed, or the backup serves. */
  lemma RenamesSurvive(r: Disk, old_: string, text: string, luck: Luck)
    requires r.target == Some(old_) && r.temp == Some(text)
    ensures (forall j :: 0 <= j <= |Renaming(luck)| ==> OldOrNew(After(r, Renaming(luck)[..j]), old_, text)) <==>
            luck.renames || !luck.removes || OldOrNew(r.(target := None), old_, text)
  {
    hide Parse, After, Renaming, Load;
    var steps := Renaming(luck);
    var removes := !luck.renames && luck.removes;
    RenamingStages(r, text, luck);
    StoredOrReplaced(r, text, luck, old_);
    if removes {
      assert OldOrNew(After(r, steps[..1]), old_, text) <==> OldOrNew(r.(target := None), old_, text);
    }
    forall j | 0 <= j <= |steps| && (removes ==> OldOrNew(r.(target := None), old_, text))
      ensures OldOrNew(After(r, steps[..j]), old_, text)
    {
      assert j == 0 || j == |steps| || (removes && j == 1);
    }
  }

  /** Where the renames can be interrupted, and what the disk holds there. */
  lemma RenamingStages(r: Disk, text: string, luck: Luck)
    requires r.temp == Some(text)
    ensures var steps := Renaming(luck);
            && |steps| == (if !luck.renames && luck.removes then 2 else 1)
            && After(r, steps[..0]) == r && steps[..|steps|] == steps
            && (!luck.renames && luck.removes ==> After(r, steps[..1]) == r.(target := None))
  {
    var steps := Renaming(luck);
    assert steps[..0] == [];
    if !luck.renames && luck.removes {
      assert steps[..1] == [RemoveTarget];
      AfterOne(r, RemoveTarget);
    }
  }

  /** Before and after the renames the old or the new store is read, unless the
      target was removed and nothing took its place. */
  lemma StoredOrReplaced(r: Disk, text: string, luck: Luck, old_: string)
    requires r.target == Some(old_) && r.temp == Some(text)
    ensures OldOrNew(r, old_, text)
    ensures luck.renames || !luck.removes || OldOrNew(r.(target := None), old_, text) ==>
        OldOrNew(After(r, Renaming(luck)), old_, text)
  {
    hide Parse, After, Renaming;
    RenamingEnds(r, text, luck);
  }

  /** Exactly when a save is safe against a crash at every point. */
  lemma CrashSafeIff(d: Disk, text: string, luck: Luck)
    requires d.target.Some?
    ensures Survives(d, text, luck) <==>
            !(luck.opens && luck.writes) || luck.renames || !luck.removes || BackupServes(d, text, luck)
  {
    hide Parse, After;
    var old_ := d.target.value;
    var steps := Steps(d, text, luck);
    var front := Writing(text, luck) + if luck.opens && luck.writes then Copying(d.target, luck) else [];
    forall k | 0 <= k <= |front| ensures OldOrNew(After(d, front[..k]), old_, text) { TargetStays(d, front[..k]); }
    if luck.opens && luck.writes {
      var r := Disk(d.target, Some(text), Backed(d, luck));
      ReadyToRename(d, text, luck);
      RenamesSurvive(r, old_, text, luck);
      assert steps == front + Renaming(luck);
      forall k | 0 <= k <= |front| ensures steps[..k] == front[..k] { }
      forall j | 0 <= j <= |Renaming(luck)| ensures After(d, steps[..|front| + j]) == After(r, Renaming(luck)[..j]) {
        assert steps[..|front| + j] == front + Renaming(luck)[..j];
        AfterAppend(d, front, Renaming(luck)[..j]);
      }
      SplitPrefixes(d, text, luck, front, r);
    } else {
      assert steps == front;
    }
  }

  lemma SplitPrefixes(d: Disk, text: string, luck: Luck, front: seq<Step>, r: Disk)
    requires d.target.Some? && Steps(d, text, luck) == front + Renaming(luck)
    requires forall k :: 0 <= k <= |front| ==> OldOrNew(After(d, front[..k]), d.target.value, text)
    requires forall j :: 0 <= j <= |Renaming(luck)| ==>
        After(d, Steps(d, text, luck)[..|front| + j]) == After(r, Renaming(luck)[..j])
    ensures Survives(d, text, luck) <==>
        forall j :: 0 <= j <= |Renaming(luck)| ==> OldOrNew(After(r, Renaming(luck)[..j]), d.target.value, text)
  {
    hide Parse, After, Renaming;
    var steps, tail := Steps(d, text, luck), Renaming(luck);
    if forall j :: 0 <= j <= |tail| ==> OldOrNew(After(r, tail[..j]), d.target.value, text) {
      forall k | 0 <= k <= |steps| ensures OldOrNew(After(d, steps[..k]), d.target.value, text) {
        if k <= |front| {
          assert steps[..k] == front[..k];
        } else {
          var j := k - |front|;
          assert After(d, steps[..|front| + j]) == After(r, tail[..j]);
        }
      }
    }
    if Survives(d, text, luck) {
      forall j | 0 <= j <= |tail| ensures OldOrNew(After(r, tail[..j]), d.target.value, text) {
        assert OldOrNew(After(d, steps[..|front| + j]), d.target.value, text);
      }
    }
  }

  /** A successful save is read back, the first one too; a failed one that was safe
      reads as before. The target it replaced is the backup where it could be copied,
      and no temporary file is left behind one that could be opened. */
  lemma SaveThenLoad(d: Disk, text: string, luck: Luck)
    ensures var end := After(d, Steps(d, text, luck));
            && (Saved(luck) ==> Load(end) == Some(Parse(text)) && end.target == Some(text))
            && (!Saved(luck) && (luck.copies || d.target.None?) ==> Load(end) == Load(d))
            && (luck.opens ==> end.temp.None?) && (!luck.opens ==> end == d)
            && (luck.opens && luck.writes && luck.copies && d.target.Some? ==> end.backup == d.target)
            && (d.target.None? ==> end.backup == d.backup)
  {
    hide Parse, After, Steps, Writing;
    if luck.opens && luck.writes {
      SavingEnds(d, text, luck);
    } else {
      NotWritten(d, text, luck);
      WritingKeeps(d, text, luck);
    }
  }

  /** The disk behind a save that got as far as the renames. */
  lemma SavingEnds(d: Disk, text: string, luck: Luck)
    requires luck.opens && luck.writes
    ensures After(d, Steps(d, text, luck)) ==
            Disk(if luck.renames || luck.renamesAgain then Some(text) else if luck.removes then None else d.target,
                 None, Backed(d, luck))
  {
    hide After, Writing, Copying, Renaming, Backed;
    ReadyToRename(d, text, luck);
    RenamingEnds(Disk(d.target, Some(text), Backed(d, luck)), text, luck);
    assert Steps(d, text, luck) == (Writing(text, luck) + Copying(d.target, luck)) + Renaming(luck);
    AfterAppend(d, Writing(text, luck) + Copying(d.target, luck), Renaming(luck));
  }

  lemma NotWritten(d: Disk, text: string, luck: Luck)
    requires !(luck.opens && luck.writes)
    ensures Steps(d, text, luck) == Writing(text, luck)
  {
    hide Writing, Copying, Renaming;
  }

  /** A first save can be interrupted anywhere: what is read is what was read before, or
      the new store. */
  lemma AFirstSaveIsSafe(d: Disk, text: string, luck: Luck, k: nat)
    requires d.target.None? && k <= |Steps(d, text, luck)|
    ensures var l := Load(After(d, Steps(d, text, luck)[..k])); l == Load(d) || l == Some(Parse(text))
  {
    hide Parse;
    var steps := Steps(d, text, luck);
    FirstSteps(d, text, luck, k);
    OnlyTheNew(d, steps[..k], text);
  }

  predicate FirstStep(s: Step) { s.WriteTemp? || s.RemoveTemp? || s.RemoveTarget? || s.RenameTemp? }

  /** The last thing written before step i is the new text. */
  ghost predicate WrittenLast(steps: seq<Step>, i: nat, text: string)
    requires i <= |steps|
  {
    exists j :: 0 <= j < i && steps[j] == WriteTemp(text) && forall m :: j < m < i ==> !steps[m].WriteTemp?
  }

  /** Its steps touch no backup, and rename only what was written last. */
  ghost predicate FirstSave(steps: seq<Step>, text: string) {
    forall i :: 0 <= i < |steps| ==> FirstStep(steps[i]) && (steps[i].RenameTemp? ==> WrittenLast(steps, i, text))
  }

  lemma FrontWritten(steps: seq<Step>, n: nat, i: nat, text: string)
    requires i <= n <= |steps|
    ensures WrittenLast(steps[..n], i, text) <==> WrittenLast(steps, i, text)
  {
    if WrittenLast(steps, i, text) {
      var j :| 0 <= j < i && steps[j] == WriteTemp(text) && forall m :: j < m < i ==> !steps[m].WriteTemp?;
      assert steps[..n][j] == WriteTemp(text);
    }
  }

  lemma FirstSteps(d: Disk, text: string, luck: Luck, k: nat)
    requires d.target.None? && k <= |Steps(d, text, luck)|
    ensures FirstSave(Steps(d, text, luck)[..k], text)
  {
    var all := Steps(d, text, luck);
    var j := |luck.partial|;
    assert luck.opens && luck.writes ==> all == TempWrites(luck.partial) + [WriteTemp(text)] + Renaming(luck);
    forall i | 0 <= i < k ensures FirstStep(all[i]) && (all[i].RenameTemp? ==> WrittenLast(all[..k], i, text)) {
      if all[i].RenameTemp? {
        assert j < i && all[j] == WriteTemp(text);
        assert forall m :: j < m < i ==> all[m] == Renaming(luck)[m - j - 1];
        FrontWritten(all, k, i, text);
      }
    }
  }

  lemma FirstSaveFront(steps: seq<Step>, n: nat, text: string)
    requires FirstSave(steps, text) && n <= |steps|
    ensures FirstSave(steps[..n], text)
  {
    forall i | 0 <= i < n
      ensures FirstStep(steps[..n][i]) && (steps[..n][i].RenameTemp? ==> WrittenLast(steps[..n], i, text))
    {
      FrontWritten(steps, n, i, text);
    }
  }

  lemma {:induction false} OnlyTheNew(d: Disk, steps: seq<Step>, text: string)
    requires d.target.None? && FirstSave(steps, text)
    ensures var r := After(d, steps); r.backup == d.backup && (r.target.None? || r.target == Some(text))
    ensures var r := After(d, steps); WrittenLast(steps, |steps|, text) ==> r.temp.None? || r.temp == Some(text)
  {
    if steps != [] {
      var n := |steps| - 1;
      FirstSaveFront(steps, n, text);
      OnlyTheNew(d, steps[..n], text);
      FrontWritten(steps, n, n, text);
      assert FirstStep(steps[n]) && (steps[n].RenameTemp? ==> WrittenLast(steps, n, text));
      if WrittenLast(steps, |steps|, text) { StillWritten(steps, text); }
    }
  }

  lemma StillWritten(steps: seq<Step>, text: string)
    requires steps != [] && WrittenLast(steps, |steps|, text)
    ensures steps[|steps| - 1] == WriteTemp(text) ||
        (!steps[|steps| - 1].WriteTemp? && WrittenLast(steps, |steps| - 1, text))
  {
    var j :| 0 <= j < |steps| && steps[j] == WriteTemp(text) && forall m :: j < m < |steps| ==> !steps[m].WriteTemp?;
  }

  /** The copy fails, the rename fails, the target is removed: the older backup is
      what a restarted server reads. */
  lemma AnOldBackupComesBack(older: string, old_: string, text: string)
    requires Parse(older) != Parse(old_) && Parse(older) != Parse(text)
    ensures var luck := Luck(true, [], true, [], false, false, true, true);
            !Survives(Disk(Some(old_), None, Some(older)), text, luck)
  {
    hide Parse;
    CrashSafeIff(Disk(Some(old_), None, Some(older)), text, Luck(true, [], true, [], false, false, true, true));
  }

  /** A clean store that was saved is the store that is loaded. */
  lemma SavedStoreIsLoaded(d: Disk, s: Store, order: seq<string>, luck: Luck)
    requires Enumerates(order, s.keys) && Clean(s) && Saved(luck)
    ensures var text := Print(s, order);
            Load(After(d, Steps(d, text, luck))) == Some(s)
  {
    RoundTripIffClean(s, order);
    SaveThenLoad(d, Print(s, order), luck);
    hide After, Steps, Print, Parse, Clean;
  }
}
