/** The size-rotated observation log: read from its oldest backup to the live file, it is always a
    suffix of what was written, whichever file operations fail. */
module Journal {

  type Line = seq<bv8>

  /** Files by number: 0 is the live one, i is the backup `.i`. */
  type Files = map<nat, seq<Line>>

  function Size(lines: seq<Line>): nat {
    if lines == [] then 0 else Size(lines[..|lines| - 1]) + |lines[|lines| - 1]|
  }

  function Lines(fs: Files, i: nat): seq<Line> {
    if i in fs then fs[i] else []
  }

  /** Backups n, n - 1, ... 1, then the live file. */
  function Content(fs: Files, n: nat): seq<Line> {
    if n == 0 then Lines(fs, 0) else Lines(fs, n) + Content(fs, n - 1)
  }

  /** A rotation that could not move file `stuck` (-1: it moved them all; n: it could not delete
      the oldest): the files above went up by one, over no other file, and the rest stayed. */
  ghost predicate Shifted(fs: Files, n: nat, stuck: int, gs: Files) {
    && (forall i: nat | i <= stuck :: (i in fs <==> i in gs) && (i in fs ==> fs[i] == gs[i]))
    && (forall i: nat | stuck < i < n :: (i in fs <==> i + 1 in gs) && (i in fs ==> fs[i] == gs[i + 1]))
    && (0 <= stuck + 1 <= n ==> stuck + 1 !in gs)
  }

  lemma {:induction false} SameBelow(fs: Files, gs: Files, n: nat)
    requires forall i: nat | i <= n :: (i in fs <==> i in gs) && (i in fs ==> fs[i] == gs[i])
    ensures Content(fs, n) == Content(gs, n)
  {
    if n > 0 { SameBelow(fs, gs, n - 1); }
  }

  lemma {:induction false} ShiftedReads(fs: Files, n: nat, stuck: int, gs: Files, k: nat)
    requires -1 <= stuck < k <= n && Shifted(fs, n, stuck, gs)
    ensures Content(gs, k) == if k == 0 then [] else Content(fs, k - 1)
  {
    if k == stuck + 1 {
      if stuck >= 0 { SameBelow(fs, gs, stuck); }
    } else {
      assert k - 1 in fs <==> k in gs;
      ShiftedReads(fs, n, stuck, gs, k - 1);
    }
  }

  /** However far it got, a rotation loses the oldest backup or nothing, and reorders nothing. */
  lemma RotationLosesOldest(fs: Files, n: nat, stuck: int, gs: Files)
    requires -1 <= stuck <= n && n >= 1 && Shifted(fs, n, stuck, gs)
    ensures Content(fs, n) == (if stuck == n then [] else Lines(fs, n)) + Content(gs, n)
  {
    if stuck == n { SameBelow(fs, gs, n); } else { ShiftedReads(fs, n, stuck, gs, n); }
  }

  lemma {:induction false} AppendedReads(fs: Files, line: Line, n: nat)
    ensures Content(fs[0 := Lines(fs, 0) + [line]], n) == Content(fs, n) + [line]
  {
    if n > 0 { AppendedReads(fs, line, n - 1); }
  }

  lemma SizeOfAppended(lines: seq<Line>, line: Line)
    ensures Size(lines + [line]) == Size(lines) + |line|
  {
    assert (lines + [line])[..|lines|] == lines;
  }

  /** Which file operations fail in one call: looking at the live file, deleting or moving file i,
      and the append. */
  datatype Faults = Faults(stat: bool, move: nat -> bool, append: bool) {
    ghost predicate Nothing() {
      !stat && !append && forall i: nat :: !move(i)
    }
  }

  class ShadowLog {
    const maxBytes: int
    const backups: nat
    var files: Files
    // Everything written, and the part of it that rotations have dropped.
    ghost var written: seq<Line>
    ghost var lost: seq<Line>

    ghost predicate Valid() reads this {
      backups >= 1 && written == lost + Content(files, backups)
    }

    constructor (maxBytes: int, backups: nat)
      requires maxBytes >= 1 && backups >= 1
      ensures Valid() && this.maxBytes == maxBytes && this.backups == backups && written == []
    {
      this.maxBytes, this.backups := maxBytes, backups;
      files, written, lost := map[], [], [];
      new;
      NoFiles(files, backups);
    }

    /** `_rotate`, which stops at the first operation that fails. */
    method Rotate(faults: Faults) returns (ghost stuck: int)
      requires backups >= 1 && 0 in files
      modifies this`files
      ensures -1 <= stuck <= backups && Shifted(old(files), backups, stuck, files)
      ensures stuck >= 0 ==> faults.move(stuck)
      ensures stuck != backups && backups in old(files) ==> !faults.move(backups)
    {
      if backups in files {
        if faults.move(backups) {
          return backups;
        }
        files := files - {backups};
      }
      ghost var was := old(files);
      var i := backups - 1;
      while i > 0
        invariant 0 <= i < backups
        invariant Shifted(was, backups, i, files)
        invariant 0 in files
      {
        if i in files {
          if faults.move(i) {
            return i;
          }
          files := files[i + 1 := files[i]] - {i};
        }
        i := i - 1;
      }
      if faults.move(0) {
        return 0;
      }
      files := files[1 := files[0]] - {0};
      stuck := -1;
    }

    /** `_rotate_if_needed`: a record that would push the live file over the limit rotates first;
        a failure costs nothing but the rotation. */
    method RotateIfNeeded(incoming: nat, faults: Faults)
      requires Valid()
      modifies this`files, this`lost
      ensures Valid()
      ensures lost == old(lost) || (backups in old(files) && !faults.move(backups) && lost == old(lost) + old(files)[backups])
      ensures Size(Lines(old(files), 0)) + incoming <= maxBytes ==> files == old(files) && lost == old(lost)
      ensures faults.Nothing() && 0 in files ==> Size(files[0]) + incoming <= maxBytes
    {
      if faults.stat || 0 !in files {
        return;
      }
      if Size(files[0]) + incoming <= maxBytes {
        return;
      }
      ghost var was := files;
      ghost var stuck := Rotate(faults);
      RotationLosesOldest(was, backups, stuck, files);
      if stuck != backups && backups in was {
        lost := lost + was[backups];
      }
    }

    /** `record`: reading all files, oldest first, gives what was written without a prefix; one
        call drops at most the oldest backup; and a call without a failure leaves the live file
        within the limit or holding this one record. */
    method Record(line: Line, faults: Faults)
      requires Valid()
      modifies this
      ensures Valid()
      ensures written == if faults.append then old(written) else old(written) + [line]
      ensures lost == old(lost) || (backups in old(files) && lost == old(lost) + old(files)[backups])
      ensures Size(Lines(old(files), 0)) + |line| <= maxBytes ==> lost == old(lost)
      ensures faults.Nothing() ==> 0 in files && (Size(files[0]) <= maxBytes || files[0] == [line])
    {
      RotateIfNeeded(|line|, faults);
      if !faults.append {
        Append(line);
      }
    }

    method Append(line: Line)
      requires Valid()
      modifies this`files, this`written
      ensures Valid() && written == old(written) + [line]
      ensures files == old(files)[0 := Lines(old(files), 0) + [line]]
      ensures Size(files[0]) == Size(Lines(old(files), 0)) + |line|
    {
      AppendedReads(files, line, backups);
      SizeOfAppended(Lines(files, 0), line);
      files := files[0 := Lines(files, 0) + [line]];
      written := written + [line];
    }
  }

  lemma {:induction false} NoFiles(fs: Files, n: nat)
    requires fs == map[]
    ensures Content(fs, n) == []
  {
    if n > 0 { NoFiles(fs, n - 1); }
  }
}
