/** The rotating diagnostic journal: `diagnostics.rs`. Its lock is held throughout. */
module Journal {
  import opened Wrappers

  newtype Byte = x: int | 0 <= x < 256
  type Bytes = seq<Byte>

  const NEWLINE: Byte := 10
  const MAX_FILE_BYTES := 2 * 1024 * 1024
  const MAX_RECORD_BYTES := 1024
  const BLOCK_BYTES := 4096

  /** One past the last newline, or zero when there is none: the whole-file scan. */
  function RepairedLength(file: Bytes): (length: nat)
    ensures length <= |file|
    ensures length > 0 ==> file[length - 1] == NEWLINE
    ensures forall i :: length <= i < |file| ==> file[i] != NEWLINE
  {
    if file == [] then 0
    else if file[|file| - 1] == NEWLINE then |file|
    else RepairedLength(file[..|file| - 1])
  }

  lemma RepairedLengthIsUnique(file: Bytes, length: nat)
    requires length <= |file| && (length > 0 ==> file[length - 1] == NEWLINE)
    requires forall i :: length <= i < |file| ==> file[i] != NEWLINE
    ensures RepairedLength(file) == length
  {
  }

  /** The backward scan of `repair_tail`, one block at a time. */
  method ScanTail(file: Bytes) returns (repaired: nat)
    ensures repaired == RepairedLength(file)
  {
    var end := |file|;
    while end > 0
      invariant 0 <= end <= |file|
      invariant forall i :: end <= i < |file| ==> file[i] != NEWLINE
    {
      var start := if end < BLOCK_BYTES then 0 else end - BLOCK_BYTES;
      var index := end;
      while index > start
        invariant start <= index <= end
        invariant forall i :: index <= i < |file| ==> file[i] != NEWLINE
      {
        index := index - 1;
        if file[index] == NEWLINE {
          RepairedLengthIsUnique(file, index + 1);
          return index + 1;
        }
      }
      end := start;
    }
    RepairedLengthIsUnique(file, 0);
    repaired := 0;
  }

  /** Repairing a repaired file does nothing. */
  lemma RepairIsIdempotent(file: Bytes)
    ensures RepairedLength(file[..RepairedLength(file)]) == RepairedLength(file)
  {
  }

  /** What `append` accepts: one bounded, newline-terminated line. */
  predicate IsRecord(r: Bytes) {
    && 0 < |r| <= MAX_RECORD_BYTES
    && r[|r| - 1] == NEWLINE
    && forall i :: 0 <= i < |r| - 1 ==> r[i] != NEWLINE
  }

  /** The two generations on disk. */
  datatype Files = Files(current: Option<Bytes>, backup: Option<Bytes>)

  function Content(file: Option<Bytes>): Bytes {
    if file.Some? then file.value else []
  }

  function Repaired(file: Bytes): (whole: Bytes) {
    file[..RepairedLength(file)]
  }

  ghost predicate TooLarge(files: Files) {
    |Content(files.current)| > MAX_FILE_BYTES || |Content(files.backup)| > MAX_FILE_BYTES
  }

  /** The files right before the bytes of a record are written. */
  ghost function Room(files: Files, r: Bytes): (room: Files)
    ensures room.current.Some?
  {
    var whole := Repaired(Content(files.current));
    if Rotates(files, r) then Files(Some([]), Some(whole)) else Files(Some(whole), files.backup)
  }

  ghost predicate Rotates(files: Files, r: Bytes) {
    |Repaired(Content(files.current))| + |r| > MAX_FILE_BYTES
  }

  /** What opening the journal may leave behind. */
  ghost predicate Opened(before: Files, after: Files, ok: bool) {
    var repaired := before.(current := Some(Repaired(Content(before.current))));
    if ok then after == repaired && !TooLarge(before)
    else
      || after == before
      || (!TooLarge(before) &&
            (after == repaired || after == before.(current := Some(Content(before.current)))))
  }

  /** What appending `r` may leave behind: everything a fault can interrupt. */
  ghost predicate Appended(before: Files, r: Bytes, after: Files, ok: bool) {
    var room := Room(before, r);
    if ok then !TooLarge(before) && after == room.(current := Some(room.current.value + r))
    else
      || Opened(before, after, false)
      || (!TooLarge(before) &&
            (|| (Rotates(before, r) && after == room.(current := None))
             || exists k :: 0 <= k <= |r| && after == room.(current := Some(room.current.value + r[..k]))))
  }

  // ------------------------------------------------------- retained records

  /** The newline-terminated lines of a file, oldest first. */
  function Lines(file: Bytes): seq<Bytes>
    decreases |file|
  {
    if file == [] then []
    else
      var init := file[..|file| - 1];
      if file[|file| - 1] == NEWLINE then Lines(init[..RepairedLength(init)]) + [file[RepairedLength(init)..]]
      else Lines(init)
  }

  predicate IsWhole(file: Bytes) { RepairedLength(file) == |file| }

  ghost function Retained(files: Files): seq<Bytes> {
    Lines(Content(files.backup)) + Lines(Content(files.current))
  }

  ghost predicate IsSuffix(xs: seq<Bytes>, of: seq<Bytes>) {
    |xs| <= |of| && xs == of[|of| - |xs|..]
  }

  /** Bounded generations that hold the newest of the `counted` records, the
      backup whole and nearly full, the current one but for an unfinished tail.
      Before the first rotation they hold every one of them. */
  ghost predicate Holds(files: Files, counted: seq<Bytes>) {
    && !TooLarge(files)
    && (files.backup.Some? ==> IsWhole(files.backup.value) && |files.backup.value| > MAX_FILE_BYTES - MAX_RECORD_BYTES)
    && (forall i :: 0 <= i < |counted| ==> IsRecord(counted[i]))
    && IsSuffix(Retained(files), counted)
    && (files.backup.None? ==> Retained(files) == counted)
  }

  lemma {:induction false} LinesIgnoreTail(file: Bytes)
    ensures Lines(Repaired(file)) == Lines(file)
    decreases |file|
  {
    if file != [] {
      var init := file[..|file| - 1];
      if file[|file| - 1] != NEWLINE {
        LinesIgnoreTail(init);
        assert Repaired(init) == Repaired(file);
      } else {
        assert Repaired(file) == file;
      }
    }
  }

  function Joined(lines: seq<Bytes>): Bytes {
    if lines == [] then [] else Joined(lines[..|lines| - 1]) + lines[|lines| - 1]
  }

  lemma JoinedLast(lines: seq<Bytes>, last: Bytes)
    ensures Joined(lines + [last]) == Joined(lines) + last
  {
    assert (lines + [last])[..|lines|] == lines;
  }

  lemma LastLine(file: Bytes)
    requires file != [] && file[|file| - 1] == NEWLINE
    ensures var init := file[..|file| - 1]; Repaired(init) + file[RepairedLength(init)..] == file
    ensures Repaired(file) == file
  {
  }

  /** The lines are the file but for its unfinished tail: nothing in it goes uncounted. */
  lemma {:induction false} LinesAreTheFile(file: Bytes)
    ensures Joined(Lines(file)) == Repaired(file)
    decreases |file|
  {
    if file != [] {
      var init := file[..|file| - 1];
      LinesAreTheFile(init);
      if file[|file| - 1] == NEWLINE {
        LinesLast(file);
        LastLine(file);
        hide Lines, Joined, Repaired;
        LinesIgnoreTail(init);
        JoinedLast(Lines(init), file[RepairedLength(init)..]);
      } else {
        assert Repaired(init) == Repaired(file);
      }
    }
  }

  lemma LinesLast(file: Bytes)
    requires file != [] && file[|file| - 1] == NEWLINE
    ensures IsWhole(file)
    ensures var init := file[..|file| - 1];
            Lines(file) == Lines(init[..RepairedLength(init)]) + [file[RepairedLength(init)..]]
  {
  }

  lemma LinesAppend(whole: Bytes, r: Bytes)
    requires IsWhole(whole) && IsRecord(r)
    ensures Lines(whole + r) == Lines(whole) + [r]
    ensures IsWhole(whole + r)
  {
    hide Lines;
    var file := whole + r;
    var init := file[..|file| - 1];
    assert init == whole + r[..|r| - 1];
    RepairedLengthIsUnique(init, |whole|);
    LinesLast(file);
    assert init[..|whole|] == whole && file[|whole|..] == r;
  }

  lemma LinesPartial(whole: Bytes, r: Bytes, k: nat)
    requires IsWhole(whole) && IsRecord(r) && k < |r|
    ensures Lines(whole + r[..k]) == Lines(whole)
  {
    var file := whole + r[..k];
    RepairedLengthIsUnique(file, |whole|);
    assert Repaired(file) == whole;
    LinesIgnoreTail(file);
  }

  lemma SuffixOfLonger(xs: seq<Bytes>, of: seq<Bytes>, r: Bytes)
    requires IsSuffix(xs, of)
    ensures IsSuffix(xs + [r], of + [r])
  {
  }

  lemma SuffixOfSuffix(xs: seq<Bytes>, ys: seq<Bytes>, of: seq<Bytes>)
    requires IsSuffix(xs + ys, of)
    ensures IsSuffix(ys, of)
  {
  }

  lemma OpenKeeps(before: Files, after: Files, ok: bool, counted: seq<Bytes>)
    requires Holds(before, counted) && Opened(before, after, ok)
    ensures Holds(after, counted)
    ensures Retained(after) == Retained(before) && after.backup == before.backup
  {
    LinesIgnoreTail(Content(before.current));
  }

  /** Making room loses nothing but, in a rotation, the old backup. */
  lemma RoomKeeps(before: Files, r: Bytes, counted: seq<Bytes>)
    requires Holds(before, counted) && IsRecord(r)
    ensures Holds(Room(before, r), counted) && IsWhole(Room(before, r).current.value)
    ensures |Room(before, r).current.value| + |r| <= MAX_FILE_BYTES
    ensures Retained(Room(before, r)) == if Rotates(before, r) then Lines(Content(before.current)) else Retained(before)
  {
    var whole := Repaired(Content(before.current));
    LinesIgnoreTail(Content(before.current));
    RepairIsIdempotent(Content(before.current));
    if Rotates(before, r) {
      SuffixOfSuffix(Lines(Content(before.backup)), Lines(whole), counted);
      assert Retained(Room(before, r)) == Lines(whole);
    }
  }

  /** One append: a success adds its record, a failure adds it once or not at all; and
      nothing retained is lost but, in a rotation, the old backup. */
  lemma AppendKeeps(before: Files, r: Bytes, after: Files, ok: bool, counted: seq<Bytes>)
    returns (kept: bool, rotated: bool)
    requires Holds(before, counted) && IsRecord(r) && Appended(before, r, after, ok)
    ensures ok ==> kept && (rotated <==> Rotates(before, r))
    ensures Holds(after, if kept then counted + [r] else counted)
    ensures rotated ==> Rotates(before, r)
    ensures Retained(after) ==
            (if rotated then Lines(Content(before.current)) else Retained(before)) + if kept then [r] else []
  {
    hide Holds, RepairedLength, Lines, Retained;
    var room := Room(before, r);
    RoomKeeps(before, r, counted);
    kept, rotated := ok, Rotates(before, r);
    if ok {
      WriteKeeps(room, r, counted);
    } else if Opened(before, after, false) {
      OpenKeeps(before, after, false, counted);
      rotated := false;
    } else if Rotates(before, r) && after == room.(current := None) {
      NoCurrentKeeps(room, counted);
    } else {
      var k :| 0 <= k <= |r| && after == room.(current := Some(room.current.value + r[..k]));
      if k == |r| {
        assert r[..k] == r;
        WriteKeeps(room, r, counted);
        kept := true;
      } else {
        PartialKeeps(room, r, k, counted);
      }
    }
  }

  lemma NoCurrentKeeps(room: Files, counted: seq<Bytes>)
    requires Holds(room, counted) && room.current == Some([]) && room.backup.Some?
    ensures Holds(room.(current := None), counted) && Retained(room.(current := None)) == Retained(room)
  {
  }

  lemma PartialKeeps(room: Files, r: Bytes, k: nat, counted: seq<Bytes>)
    requires Holds(room, counted) && IsRecord(r) && k < |r| && room.current.Some?
    requires IsWhole(room.current.value) && |room.current.value| + |r| <= MAX_FILE_BYTES
    ensures var next := room.(current := Some(room.current.value + r[..k]));
            Holds(next, counted) && Retained(next) == Retained(room)
  {
    LinesPartial(room.current.value, r, k);
  }

  lemma WriteKeeps(room: Files, r: Bytes, counted: seq<Bytes>)
    requires Holds(room, counted) && IsRecord(r) && room.current.Some?
    requires IsWhole(room.current.value) && |room.current.value| + |r| <= MAX_FILE_BYTES
    ensures Holds(room.(current := Some(room.current.value + r)), counted + [r])
    ensures Retained(room.(current := Some(room.current.value + r))) == Retained(room) + [r]
  {
    hide Lines, RepairedLength, IsRecord;
    LinesAppend(room.current.value, r);
    SuffixOfLonger(Retained(room), counted, r);
    var next := room.(current := Some(room.current.value + r));
    assert Lines(Content(room.backup)) + Lines(room.current.value) + [r]
        == Lines(Content(room.backup)) + (Lines(room.current.value) + [r]);
    assert Retained(next) == Retained(room) + [r];
  }

  // ------------------------------------------------------------------ runs

  datatype Call = Open(ok: bool) | Append(record: Bytes, ok: bool)

  ghost predicate Steps(before: Files, call: Call, after: Files) {
    match call
    case Open(ok) => Opened(before, after, ok)
    case Append(r, ok) => if IsRecord(r) then Appended(before, r, after, ok) else after == before && !ok
  }

  /** Any sequence of calls, each with any outcome its faults allow. */
  ghost predicate IsRun(states: seq<Files>, calls: seq<Call>) {
    && |states| == |calls| + 1
    && forall i :: 0 <= i < |calls| ==> Steps(states[i], calls[i], states[i + 1])
  }

  /** The offered records that were kept, in order. */
  ghost function Counted(calls: seq<Call>, kept: seq<bool>): seq<Bytes>
    requires |kept| == |calls|
  {
    if calls == [] then []
    else
      var n := |calls| - 1;
      Counted(calls[..n], kept[..n]) + if kept[n] && calls[n].Append? then [calls[n].record] else []
  }

  lemma StepKeeps(before: Files, call: Call, after: Files, counted: seq<Bytes>) returns (kept: bool)
    requires Holds(before, counted) && Steps(before, call, after)
    ensures call.Append? && call.ok ==> kept
    ensures Holds(after, counted + if kept && call.Append? then [call.record] else [])
  {
    kept := false;
    assert counted + [] == counted;
    match call {
      case Open(ok) => OpenKeeps(before, after, ok, counted);
      case Append(r, ok) =>
        if IsRecord(r) {
          var rotated;
          kept, rotated := AppendKeeps(before, r, after, ok, counted);
        }
    }
  }

  lemma RunUpTo(states: seq<Files>, calls: seq<Call>, n: nat)
    requires IsRun(states, calls) && n <= |calls|
    ensures IsRun(states[..n + 1], calls[..n])
  {
    forall i | 0 <= i < n
      ensures Steps(states[..n + 1][i], calls[..n][i], states[..n + 1][i + 1])
    {
      assert Steps(states[i], calls[i], states[i + 1]);
    }
  }

  lemma NothingHolds()
    ensures Holds(Files(None, None), [])
  {
  }

  /** In every run from an empty directory, whatever fails, both generations stay
      within the limit and hold a contiguous suffix of the records offered in
      order, every success once, every failure once or not at all: all of them
      before the first rotation. */
  lemma {:induction false} EveryRunHolds(states: seq<Files>, calls: seq<Call>) returns (kept: seq<bool>)
    requires IsRun(states, calls) && states[0] == Files(None, None)
    ensures |kept| == |calls|
    ensures forall i :: 0 <= i < |calls| && calls[i].Append? && calls[i].ok ==> kept[i]
    ensures Holds(states[|calls|], Counted(calls, kept))
    decreases |calls|
  {
    hide Holds, Steps;
    NothingHolds();
    if calls == [] {
      kept := [];
    } else {
      var n := |calls| - 1;
      RunUpTo(states, calls, n);
      var earlier := EveryRunHolds(states[..n + 1], calls[..n]);
      assert Steps(states[n], calls[n], states[n + 1]);
      var last := StepKeeps(states[n], calls[n], states[n + 1], Counted(calls[..n], earlier));
      kept := earlier + [last];
      assert kept[..n] == earlier;
      assert forall i :: 0 <= i < n ==> calls[..n][i] == calls[i];
    }
  }

  lemma {:induction false} BackupStays(states: seq<Files>, calls: seq<Call>, i: nat, j: nat)
    requires IsRun(states, calls) && i <= j <= |calls| && states[i].backup.Some?
    ensures states[j].backup.Some?
    decreases j
  {
    if i < j {
      BackupStays(states, calls, i, j - 1);
      assert Steps(states[j - 1], calls[j - 1], states[j]);
    }
  }

  /** Once rotated there is always a backup, and it always holds more than two mebibytes
      less one record. */
  lemma RotatedBackupIsFull(states: seq<Files>, calls: seq<Call>, i: nat, j: nat)
    requires IsRun(states, calls) && states[0] == Files(None, None)
    requires i <= j <= |calls| && states[i].backup.Some?
    ensures states[j].backup.Some?
    ensures MAX_FILE_BYTES - MAX_RECORD_BYTES < |states[j].backup.value| <= MAX_FILE_BYTES
  {
    BackupStays(states, calls, i, j);
    RunUpTo(states, calls, j);
    var kept := EveryRunHolds(states[..j + 1], calls[..j]);
  }

  // ----------------------------------------------------------- the journal

  /** The open journal: both files change in place, and any system call may fail. */
  class Diagnostics {
    var current: Option<Bytes>
    var backup: Option<Bytes>

    ghost function View(): Files
      reads this
    {
      Files(current, backup)
    }

    /** `create_current`: a failure may come before or after the file exists. */
    method CreateCurrent() returns (ok: bool)
      requires current.None?
      modifies this`current
      ensures ok ==> current == Some([])
      ensures !ok ==> current in {None, Some([])}
    {
      if * {
        return false;
      }
      current := Some([]);
      ok := *;
    }

    /** `repair_tail`: truncates, and reports the length to write from. */
    method RepairTail() returns (ok: bool, length: nat)
      requires current.Some?
      modifies this`current
      ensures ok ==> current == Some(Repaired(old(current).value)) && length == |current.value|
      ensures !ok ==> current == old(current) || current == Some(Repaired(old(current).value))
    {
      ok, length := false, 0;
      if |current.value| > MAX_FILE_BYTES {
        return;
      }
      if * {
        return;  // reading a block failed
      }
      var repaired := ScanTail(current.value);
      if repaired != |current.value| {
        if * {
          return;  // truncation failed
        }
        current := Some(current.value[..repaired]);
        if * {
          return;  // it could not be synced
        }
      } else {
        assert current.value[..repaired] == current.value;
      }
      ok, length := true, repaired;
    }

    /** The write loop. It may be interrupted any finite number of times, write any
        part of what remains at each turn, or give up. */
    method WriteAll(bytes: Bytes) returns (ok: bool)
      requires current.Some?
      modifies this`current
      ensures ok ==> current == Some(old(current).value + bytes)
      ensures !ok ==> exists k :: 0 <= k <= |bytes| && current == Some(old(current).value + bytes[..k])
    {
      ghost var start := current.value;
      var written: nat := 0;
      var interruptions: nat :| 0 <= interruptions;
      assert start + bytes[..0] == start;
      while written < |bytes|
        invariant written <= |bytes|
        invariant current == Some(start + bytes[..written])
        decreases |bytes| - written, interruptions
      {
        if * {
          if interruptions == 0 {
            return false;
          }
          interruptions := interruptions - 1;
        } else {
          var count: nat :| count <= |bytes| - written;
          if count == 0 {
            return false;
          }
          current := Some(current.value + bytes[written..written + count]);
          assert start + bytes[..written] + bytes[written..written + count] == start + bytes[..written + count];
          written := written + count;
        }
      }
      assert bytes[..written] == bytes;
      ok := *;  // the data or directory sync decides
    }

    method Access(bytes: Option<Bytes>) returns (ok: bool)
      modifies this
      ensures bytes.None? ==> Opened(old(View()), View(), ok)
      ensures bytes.Some? ==> Appended(old(View()), bytes.value, View(), ok)
    {
      ok := false;
      if * {
        return;  // the lock or a leaf could not be opened
      }
      if (current.Some? && |current.value| > MAX_FILE_BYTES) || (backup.Some? && |backup.value| > MAX_FILE_BYTES) {
        return;
      }
      if current.None? {
        var created := CreateCurrent();
        if !created {
          return;
        }
      }
      var repaired, length := RepairTail();
      if !repaired || bytes.None? {
        return repaired;
      }
      if length + |bytes.value| > MAX_FILE_BYTES {
        if * {
          return;  // the rename failed
        }
        current, backup := None, current;
        if * {
          return;  // the directory could not be synced
        }
        var created := CreateCurrent();
        if !created {
          assert current.Some? ==> current.value == [] + bytes.value[..0];
          return;
        }
        length := 0;
      }
      ghost var whole := current.value;
      ok := WriteAll(bytes.value);
      if !ok {
        if * {
          current := Some(current.value[..length]);  // the rollback; its sync changes nothing
          assert current.value == whole + bytes.value[..0];
        }
      }
    }

    /** `append`: anything but one whole record is refused untouched. */
    method Append(bytes: Bytes) returns (ok: bool)
      modifies this
      ensures Steps(old(View()), Call.Append(bytes, ok), View())
    {
      if !IsRecord(bytes) {
        return false;
      }
      ok := Access(Some(bytes));
    }

    method Open() returns (ok: bool)
      modifies this
      ensures Steps(old(View()), Call.Open(ok), View())
    {
      ok := Access(None);
    }
  }
}
