/**
 Writing a snapshot as a sequence of file-system steps that a crash or a failing call may cut short,
 and reading with fallback to the previous file (src/persist/snapshot.cpp:154-179 and 400-423).
 Files are abstracted to what a load of them returns; renaming is atomic, and a write may leave any
 bytes in the temporary file before it completes.
 */
module CrashSafety {
  import opened Domain

  /** A file as its bytes; None is a path where no file exists. */
  type File<T> = Option<T>

  datatype Disk<T> = Disk(primary: File<T>, backup: File<T>, temporary: File<T>)

  /** One step of `write_snapshot` and how it may go wrong. */
  datatype Step<T> =
    | WritePart(partial: T)     // the temporary file holds a prefix or garbage
    | WriteAll                  // the temporary file holds the whole container
    | RemoveBackup(done: bool)  // best effort
    | Rotate                    // primary to backup, replacing it
    | CleanUp(done: bool)       // drop the temporary file after a failed rotation
    | Install                   // temporary to primary, replacing it

  function Perform<T>(d: Disk<T>, s: Step<T>, written: T): Disk<T> {
    match s
    case WritePart(partial) => d.(temporary := Some(partial))
    case WriteAll => d.(temporary := Some(written))
    case RemoveBackup(done) => if done then d.(backup := Option.None) else d
    case Rotate => d.(primary := Option.None, backup := d.primary)
    case CleanUp(done) => if done then d.(temporary := Option.None) else d
    case Install => d.(primary := d.temporary, temporary := Option.None)
  }

  function PerformAll<T>(d: Disk<T>, steps: seq<Step<T>>, written: T): Disk<T> {
    if steps == [] then d
    else Perform(PerformAll(d, steps[..|steps| - 1], written), steps[|steps| - 1], written)
  }

  /** Where a write stands: which step of the program has just succeeded. */
  datatype Phase = Start | Partial | Written | Cleared | Rotated | Failed | Done

  /** The program: which step may follow, given whether a primary existed when it was tested. */
  predicate Follows<T>(phase: Phase, s: Step<T>, hadPrimary: bool) {
    match s
    case WritePart(_) => phase == Start || phase == Partial
    case WriteAll => phase == Start || phase == Partial
    case RemoveBackup(_) => phase == Written && hadPrimary
    case Rotate => phase == Cleared
    case CleanUp(_) => phase == Cleared
    case Install => phase == Rotated || (phase == Written && !hadPrimary)
  }

  function After<T>(s: Step<T>): Phase {
    match s
    case WritePart(_) => Partial
    case WriteAll => Written
    case RemoveBackup(_) => Cleared
    case Rotate => Rotated
    case CleanUp(_) => Failed
    case Install => Done
  }

  function PhaseOf<T>(steps: seq<Step<T>>): Phase {
    if steps == [] then Start else After(steps[|steps| - 1])
  }

  /** A run of one write, cut short anywhere: by a crash, or by a call that fails. */
  ghost predicate Attempt<T>(d: Disk<T>, steps: seq<Step<T>>) {
    forall i | 0 <= i < |steps| :: Follows(PhaseOf(steps[..i]), steps[i], d.primary.Some?)
  }

  // ---------------------------------------------------------------------------
  // Reading
  // ---------------------------------------------------------------------------

  /** The primary if it loads, else the backup if it loads, else a failure. */
  function Read<T, V>(d: Disk<T>, load: T -> Option<V>): Option<V> {
    if d.primary.Some? && load(d.primary.value).Some? then load(d.primary.value)
    else if d.backup.Some? then load(d.backup.value)
    else Option.None
  }

  /** The primary loads, or there is none and the backup loads. */
  ghost predicate Safe<T, V>(d: Disk<T>, load: T -> Option<V>) {
    if d.primary.Some? then load(d.primary.value).Some? else d.backup.Some? && load(d.backup.value).Some?
  }

  // ---------------------------------------------------------------------------
  // What holds in each phase
  // ---------------------------------------------------------------------------

  /** The disk as it may look once the write has reached this phase. */
  ghost predicate Looks<T>(was: Disk<T>, d: Disk<T>, phase: Phase, written: T) {
    match phase
    case Start => d == was
    case Partial => d.primary == was.primary && d.backup == was.backup
    case Written => d == was.(temporary := Some(written))
    case Cleared => d.primary == was.primary && was.primary.Some? && d.temporary == Some(written)
    case Rotated => d == Disk(Option.None, was.primary, Some(written)) && was.primary.Some?
    case Failed => d.primary == was.primary && was.primary.Some?
    case Done => d.primary == Some(written) && d.temporary.None? && d.backup == (if was.primary.Some? then was.primary else was.backup)
  }

  lemma {:induction false} AttemptLooks<T>(was: Disk<T>, steps: seq<Step<T>>, written: T)
    requires Attempt(was, steps)
    ensures Looks(was, PerformAll(was, steps, written), PhaseOf(steps), written)
  {
    if steps != [] {
      var n := |steps| - 1;
      assert forall i | 0 <= i < n :: steps[..n][i] == steps[i] && steps[..n][..i] == steps[..i];
      AttemptLooks(was, steps[..n], written);
      assert Follows(PhaseOf(steps[..n]), steps[n], was.primary.Some?);
    }
  }

  /**
   Crash safety. From a safe disk, whatever step of a write is the last one to happen, a read
   returns either the old contents or the new ones in full, a completed write reads back as the new
   ones, and the disk is safe again.
   */
  lemma {:induction false} CrashIsSafe<T, V>(was: Disk<T>, steps: seq<Step<T>>, written: T, load: T -> Option<V>)
    requires Safe(was, load) && load(written).Some? && Attempt(was, steps)
    ensures
      var d := PerformAll(was, steps, written);
      && Safe(d, load)
      && Read(was, load).Some?
      && Read(d, load) in {Read(was, load), load(written)}
      && (PhaseOf(steps) == Done ==> Read(d, load) == load(written))
  {
    AttemptLooks(was, steps, written);
  }

  // ---------------------------------------------------------------------------
  // Any number of writes and crashes
  // ---------------------------------------------------------------------------

  /** One attempt to write these bytes, as far as it got. */
  datatype Write<T> = Write(steps: seq<Step<T>>, written: T)

  function WriteAllOf<T>(d: Disk<T>, ws: seq<Write<T>>): Disk<T> {
    if ws == [] then d
    else
      var last := ws[|ws| - 1];
      PerformAll(WriteAllOf(d, ws[..|ws| - 1]), last.steps, last.written)
  }

  ghost predicate Attempts<T, V>(d: Disk<T>, ws: seq<Write<T>>, load: T -> Option<V>) {
    forall i | 0 <= i < |ws| :: Attempt(WriteAllOf(d, ws[..i]), ws[i].steps) && load(ws[i].written).Some?
  }

  /** The contents a reader may see after some writes: the initial ones, or one of those written. */
  ghost predicate Seen<T, V>(d: Disk<T>, ws: seq<Write<T>>, load: T -> Option<V>, v: Option<V>) {
    v == Read(d, load) || exists i :: 0 <= i < |ws| && v == load(ws[i].written)
  }

  ghost predicate WrittenFrom<T, V>(ws: seq<Write<T>>, i: nat, load: T -> Option<V>, v: Option<V>) {
    exists j :: i <= j < |ws| && v == load(ws[j].written)
  }

  /** Nothing older than the last completed write. */
  ghost predicate UpToDate<T, V>(ws: seq<Write<T>>, load: T -> Option<V>, v: Option<V>) {
    forall i | 0 <= i < |ws| && PhaseOf(ws[i].steps) == Done :: WrittenFrom(ws, i, load, v)
  }

  lemma {:induction false} StillSeen<T, V>(d: Disk<T>, ws: seq<Write<T>>, w: Write<T>, load: T -> Option<V>, v: Option<V>)
    requires Seen(d, ws, load, v) && UpToDate(ws, load, v) && PhaseOf(w.steps) != Done
    ensures Seen(d, ws + [w], load, v) && UpToDate(ws + [w], load, v)
  {
    var grown := ws + [w];
    assert forall i | 0 <= i < |ws| :: grown[i] == ws[i];
    if v != Read(d, load) {
      var i :| 0 <= i < |ws| && v == load(ws[i].written);
      assert v == load(grown[i].written);
    }
    forall i | 0 <= i < |grown| && PhaseOf(grown[i].steps) == Done ensures WrittenFrom(grown, i, load, v) {
      assert WrittenFrom(ws, i, load, v);
      var j :| i <= j < |ws| && v == load(ws[j].written);
      assert v == load(grown[j].written);
    }
  }

  lemma {:induction false} NewlySeen<T, V>(d: Disk<T>, ws: seq<Write<T>>, w: Write<T>, load: T -> Option<V>)
    ensures Seen(d, ws + [w], load, load(w.written)) && UpToDate(ws + [w], load, load(w.written))
  {
    var grown := ws + [w];
    assert grown[|ws|] == w;
    forall i | 0 <= i < |grown| ensures WrittenFrom(grown, i, load, load(w.written)) {
      assert i <= |ws| < |grown|;
    }
  }

  lemma {:induction false} PrefixAttempts<T, V>(d: Disk<T>, ws: seq<Write<T>>, load: T -> Option<V>, n: nat)
    requires Attempts(d, ws, load) && n <= |ws|
    ensures Attempts(d, ws[..n], load)
  {
    forall i | 0 <= i < n ensures Attempt(WriteAllOf(d, ws[..n][..i]), ws[..n][i].steps) && load(ws[..n][i].written).Some? {
      assert ws[..n][..i] == ws[..i] && ws[..n][i] == ws[i];
    }
  }

  /**
   Over any sequence of writes, each cut short anywhere, the disk stays safe and a read returns in
   full the initial contents or one of the written ones; never an older one than the last write that
   completed.
   */
  lemma {:induction false} WritesAreSafe<T, V>(d: Disk<T>, ws: seq<Write<T>>, load: T -> Option<V>)
    requires Safe(d, load) && Attempts(d, ws, load)
    ensures
      var after := WriteAllOf(d, ws);
      && Safe(after, load) && Read(after, load).Some?
      && Seen(d, ws, load, Read(after, load)) && UpToDate(ws, load, Read(after, load))
  {
    if ws != [] {
      var n := |ws| - 1;
      var before, last := WriteAllOf(d, ws[..n]), ws[n];
      PrefixAttempts(d, ws, load, n);
      WritesAreSafe(d, ws[..n], load);
      CrashIsSafe(before, last.steps, last.written, load);
      assert ws == ws[..n] + [last];
      if Read(WriteAllOf(d, ws), load) == load(last.written) {
        NewlySeen(d, ws[..n], last, load);
      } else {
        StillSeen(d, ws[..n], last, load, Read(before, load));
      }
    }
  }

  // ---------------------------------------------------------------------------
  // Where it fails
  // ---------------------------------------------------------------------------

  /**
   The condition is needed: a primary that exists but does not load, with a backup that does, reads
   as the backup before the write; once the write has rotated the bad primary over the good backup,
   nothing loads.
   */
  lemma {:induction false} BadPrimaryLosesBackup<T, V>(was: Disk<T>, written: T, load: T -> Option<V>)
    returns (steps: seq<Step<T>>)
    requires was.primary.Some? && load(was.primary.value).None? && was.backup.Some? && load(was.backup.value).Some?
    ensures Attempt(was, steps)
    ensures Read(was, load).Some? && Read(PerformAll(was, steps, written), load).None?
  {
    steps := [WriteAll, RemoveBackup(true), Rotate];
    var one: seq<Step<T>> := [WriteAll];
    var two: seq<Step<T>> := [WriteAll, RemoveBackup(true)];
    assert steps[..0] == [] && steps[..1] == one && steps[..2] == two && one[..0] == [] && two[..1] == one;
    assert PerformAll(was, one, written) == Perform(was, WriteAll, written);
    assert PerformAll(was, two, written) == Perform(PerformAll(was, one, written), RemoveBackup(true), written);
    assert PerformAll(was, steps, written) == Perform(PerformAll(was, two, written), Rotate, written);
  }

  /**
   Exactly when a readable disk stays readable through every way a write can be cut short: when it
   is safe. A readable disk that is not safe has an unloadable primary hiding a loadable backup.
   */
  lemma {:induction false} SurvivesIffSafe<T(!new), V>(was: Disk<T>, written: T, load: T -> Option<V>)
    requires load(written).Some? && Read(was, load).Some?
    ensures (forall steps :: Attempt(was, steps) ==> Read(PerformAll(was, steps, written), load).Some?) <==> Safe(was, load)
  {
    if Safe(was, load) {
      forall steps | Attempt(was, steps) ensures Read(PerformAll(was, steps, written), load).Some? {
        CrashIsSafe(was, steps, written, load);
      }
    } else {
      var steps := BadPrimaryLosesBackup(was, written, load);
      assert Attempt(was, steps) && Read(PerformAll(was, steps, written), load).None?;
    }
  }
}
