/** The size-rotated daemon log (apps/daemon-rs/src/supervisor.rs:124-168). A file is the list of the
    chunks written to it; its bytes are their concatenation. */
module LogRotation {
  import opened Arithmetic
  import opened Sequences

  type Chunk = seq<Byte>
  type File = seq<Chunk>

  datatype Limits = Limits(maxBytes: nat, maxFiles: nat)

  /** The files in the order of their age: the rotated ones, oldest first, and the current one. */
  datatype Log = Log(past: seq<File>, current: File)

  function Kept(limits: Limits): (n: nat)
    ensures n >= 1
  {
    if limits.maxFiles >= 1 then limits.maxFiles else 1
  }

  function Newest(files: seq<File>, n: nat): seq<File> {
    if |files| <= n then files else files[|files| - n..]
  }

  function Size(file: File): nat {
    |Flatten(file)|
  }

  function Rotate(limits: Limits, log: Log): Log {
    Log(Newest(log.past + [log.current], Kept(limits)), [])
  }

  function Write(limits: Limits, log: Log, chunk: Chunk): Log {
    var log := if limits.maxBytes > 0 && Size(log.current) + |chunk| > limits.maxBytes then Rotate(limits, log) else log;
    log.(current := log.current + [chunk])
  }

  function WriteAll(limits: Limits, log: Log, chunks: seq<Chunk>): Log {
    if chunks == [] then log else Write(limits, WriteAll(limits, log, chunks[..|chunks| - 1]), chunks[|chunks| - 1])
  }

  // ---------------------------------------------------------------- what any sequence of writes leaves

  function OnDisk(log: Log): seq<Chunk> {
    Flatten(log.past) + log.current
  }

  ghost predicate IsSuffix(part: seq<Chunk>, whole: seq<Chunk>) {
    |part| <= |whole| && part == whole[|whole| - |part|..]
  }

  ghost predicate Fits(file: File, maxBytes: nat) {
    Size(file) <= maxBytes || |file| == 1
  }

  /** No file was left for the next one while the chunk that opens that one still fitted. */
  ghost predicate Packed(files: seq<File>, maxBytes: nat) {
    forall i, j :: 0 <= i && j == i + 1 < |files| ==> Overflows(files[i], files[j], maxBytes)
  }

  /** The chunk that opens `next` did not fit behind `file`. */
  ghost predicate Overflows(file: File, next: File, maxBytes: nat) {
    next != [] && Size(file) + |next[0]| > maxBytes > 0
  }

  ghost predicate LogInv(limits: Limits, log: Log, written: seq<Chunk>) {
    && IsSuffix(OnDisk(log), written)
    && |log.past| <= Kept(limits)
    && (|OnDisk(log)| < |written| ==> |log.past| == Kept(limits))
    && (limits.maxBytes > 0 ==>
          Fits(log.current, limits.maxBytes) && forall i :: 0 <= i < |log.past| ==> Fits(log.past[i], limits.maxBytes))
  }

  lemma SuffixOfSuffix(front: seq<Chunk>, back: seq<Chunk>, whole: seq<Chunk>)
    requires IsSuffix(front + back, whole)
    ensures IsSuffix(back, whole)
  {
    assert back == (front + back)[|front|..];
  }

  lemma NewestIsSuffix(files: seq<File>, n: nat) returns (dropped: seq<File>)
    ensures files == dropped + Newest(files, n) && |Newest(files, n)| <= n
    ensures dropped != [] ==> |Newest(files, n)| == n
  {
    dropped := files[..|files| - |Newest(files, n)|];
  }

  lemma RotateKeeps(limits: Limits, log: Log, written: seq<Chunk>)
    requires LogInv(limits, log, written)
    ensures LogInv(limits, Rotate(limits, log), written)
  {
    var all := log.past + [log.current];
    var kept := Newest(all, Kept(limits));
    var dropped := NewestIsSuffix(all, Kept(limits));
    FlattenSnoc(log.past, log.current);
    FlattenAppend(dropped, kept);
    SuffixOfSuffix(Flatten(dropped), Flatten(kept), written);
    EmptyFits(limits.maxBytes);
    hide Fits, Flatten, IsSuffix, Newest;
    assert Flatten(kept) + [] == Flatten(kept);
    forall i | 0 <= i < |kept|
      ensures limits.maxBytes > 0 ==> Fits(kept[i], limits.maxBytes)
    {
      assert kept[i] == all[|dropped| + i];
    }
  }

  lemma EmptyFits(maxBytes: nat)
    ensures Fits([], maxBytes)
  {
  }

  lemma AppendKeeps(limits: Limits, log: Log, written: seq<Chunk>, chunk: Chunk)
    requires LogInv(limits, log, written)
    requires limits.maxBytes > 0 ==> log.current == [] || Size(log.current) + |chunk| <= limits.maxBytes
    ensures LogInv(limits, log.(current := log.current + [chunk]), written + [chunk])
  {
    FlattenSnoc(log.current, chunk);
    assert OnDisk(log.(current := log.current + [chunk])) == OnDisk(log) + [chunk];
  }

  lemma WriteKeeps(limits: Limits, log: Log, written: seq<Chunk>, chunk: Chunk)
    requires LogInv(limits, log, written)
    ensures LogInv(limits, Write(limits, log, chunk), written + [chunk])
  {
    hide LogInv, Size, Newest;
    if limits.maxBytes > 0 && Size(log.current) + |chunk| > limits.maxBytes {
      RotateKeeps(limits, log, written);
      AppendKeeps(limits, Rotate(limits, log), written, chunk);
    } else {
      AppendKeeps(limits, log, written, chunk);
    }
  }

  lemma EmptyKeeps(limits: Limits)
    ensures LogInv(limits, Log([], []), [])
  {
    EmptyFits(limits.maxBytes);
    assert OnDisk(Log([], [])) == [];
    hide Fits;
  }

  lemma {:induction false} WritesKeep(limits: Limits, chunks: seq<Chunk>)
    ensures LogInv(limits, WriteAll(limits, Log([], []), chunks), chunks)
  {
    hide LogInv, Write;
    if chunks == [] {
      EmptyKeeps(limits);
    } else {
      var front, chunk := chunks[..|chunks| - 1], chunks[|chunks| - 1];
      WritesKeep(limits, front);
      WriteKeeps(limits, WriteAll(limits, Log([], []), front), front, chunk);
      assert front + [chunk] == chunks;
    }
  }

  lemma PackedSuffix(files: seq<File>, n: nat, maxBytes: nat)
    requires Packed(files, maxBytes)
    ensures Packed(Newest(files, n), maxBytes)
  {
    hide Overflows;
    var kept := Newest(files, n);
    var k := |files| - |kept|;
    forall i, j | 0 <= i && j == i + 1 < |kept|
      ensures Overflows(kept[i], kept[j], maxBytes)
    {
      assert kept[i] == files[k + i] && kept[j] == files[k + j];
    }
  }

  lemma PackedSnoc(files: seq<File>, last: File, maxBytes: nat)
    requires Packed(files, maxBytes)
    requires files != [] ==> Overflows(files[|files| - 1], last, maxBytes)
    ensures Packed(files + [last], maxBytes)
  {
    hide Overflows;
    var all := files + [last];
    forall i, j | 0 <= i && j == i + 1 < |all|
      ensures Overflows(all[i], all[j], maxBytes)
    {
      assert all[i] == files[i];
      assert j < |files| ==> all[j] == files[j];
    }
  }

  lemma WritePacks(limits: Limits, log: Log, chunk: Chunk)
    requires Packed(log.past + [log.current], limits.maxBytes)
    ensures var w := Write(limits, log, chunk); Packed(w.past + [w.current], limits.maxBytes)
  {
    hide Size, Newest;
    var all, n := log.past + [log.current], |log.past|;
    assert all[n] == log.current;
    if limits.maxBytes > 0 && Size(log.current) + |chunk| > limits.maxBytes {
      NewestLast(all, Kept(limits));
      PackedSuffix(all, Kept(limits), limits.maxBytes);
      PackedSnoc(Newest(all, Kept(limits)), [chunk], limits.maxBytes);
      assert [] + [chunk] == [chunk];
    } else {
      PackedPrefix(log.past, log.current, limits.maxBytes);
      PackedSnoc(log.past, log.current + [chunk], limits.maxBytes);
    }
  }

  lemma NewestLast(files: seq<File>, n: nat)
    requires files != [] && n >= 1
    ensures Newest(files, n) != [] && Newest(files, n)[|Newest(files, n)| - 1] == files[|files| - 1]
  {
  }

  lemma PackedPrefix(files: seq<File>, last: File, maxBytes: nat)
    requires Packed(files + [last], maxBytes)
    ensures Packed(files, maxBytes)
    ensures files != [] ==> Overflows(files[|files| - 1], last, maxBytes)
  {
    hide Overflows;
    var all := files + [last];
    assert files != [] ==> all[|files|] == last && all[|files| - 1] == files[|files| - 1];
    forall i, j | 0 <= i && j == i + 1 < |files|
      ensures Overflows(files[i], files[j], maxBytes)
    {
      assert all[i] == files[i] && all[j] == files[j];
    }
  }

  lemma {:induction false} WritesPack(limits: Limits, chunks: seq<Chunk>)
    ensures var log := WriteAll(limits, Log([], []), chunks); Packed(log.past + [log.current], limits.maxBytes)
  {
    hide Write, Packed;
    if chunks == [] {
      PackedOne(limits.maxBytes);
    } else {
      WritesPack(limits, chunks[..|chunks| - 1]);
      WritePacks(limits, WriteAll(limits, Log([], []), chunks[..|chunks| - 1]), chunks[|chunks| - 1]);
    }
  }

  lemma PackedOne(maxBytes: nat)
    ensures Packed([] + [[]], maxBytes)
  {
  }

  /** From an empty directory, after any sequence of writes: what is on disk, oldest file first, is
      what was written last, cut between two writes; there are at most max(max_files, 1) rotated
      files, and exactly that many once anything is lost; a new file was begun only for a chunk that
      no longer fitted; and every file fits `max_bytes` or holds one chunk. */
  lemma LogIsRecentHistory(limits: Limits, chunks: seq<Chunk>)
    ensures var log := WriteAll(limits, Log([], []), chunks);
            && (exists cut :: 0 <= cut <= |chunks| && OnDisk(log) == chunks[cut..] &&
                  (cut > 0 ==> |log.past| == if limits.maxFiles >= 1 then limits.maxFiles else 1))
            && Packed(log.past + [log.current], limits.maxBytes)
            && |log.past| <= (if limits.maxFiles >= 1 then limits.maxFiles else 1)
            && (limits.maxBytes > 0 ==> Fits(log.current, limits.maxBytes))
            && (limits.maxBytes > 0 ==> forall i :: 0 <= i < |log.past| ==> Fits(log.past[i], limits.maxBytes))
            && (limits.maxBytes == 0 ==> log.past == [] && log.current == chunks)
  {
    WritesKeep(limits, chunks);
    WritesPack(limits, chunks);
    hide Packed;
    var log := WriteAll(limits, Log([], []), chunks);
    var cut := |chunks| - |OnDisk(log)|;
    assert OnDisk(log) == chunks[cut..] && (cut > 0 ==> |log.past| == Kept(limits));
    if limits.maxBytes == 0 {
      UnlimitedKeepsAll(limits, chunks);
    }
  }

  lemma {:induction false} UnlimitedKeepsAll(limits: Limits, chunks: seq<Chunk>)
    requires limits.maxBytes == 0
    ensures WriteAll(limits, Log([], []), chunks) == Log([], chunks)
  {
    if chunks == [] {
    } else {
      UnlimitedKeepsAll(limits, chunks[..|chunks| - 1]);
      assert chunks[..|chunks| - 1] + [chunks[|chunks| - 1]] == chunks;
    }
  }

  // ---------------------------------------------------------------- the directory

  /** The numbered files are exactly .1 to .k, and the higher the number the older the file. */
  ghost predicate Filed(numbered: map<nat, File>, past: seq<File>) {
    && (forall i: nat :: i in numbered <==> 1 <= i <= |past|)
    && (forall i :: 1 <= i <= |past| ==> numbered[i] == past[|past| - i])
  }

  /** All but .1 are the files one number below, up to `kept`. */
  ghost predicate Shifted(before: map<nat, File>, after: map<nat, File>, n: nat, kept: nat)
    requires forall i: nat :: i in before <==> 1 <= i <= n
  {
    && (forall i: nat :: i != 1 ==> (i in after <==> 2 <= i <= kept && i - 1 <= n))
    && (forall i: nat :: i != 1 && i in after ==> after[i] == before[i - 1])
  }

  lemma ShiftedIsFiled(before: map<nat, File>, shifted: map<nat, File>, past: seq<File>, current: File, kept: nat)
    requires Filed(before, past) && Shifted(before, shifted, |past|, kept) && |past| <= kept && 1 <= kept
    ensures Filed(shifted[1 := current], Newest(past + [current], kept))
    ensures |Newest(past + [current], kept)| <= kept
  {
    var all, newer, after := past + [current], Newest(past + [current], kept), shifted[1 := current];
    forall i: nat
      ensures i in after <==> 1 <= i <= |newer|
    {
    }
    forall i | 1 <= i <= |newer|
      ensures after[i] == newer[|newer| - i]
    {
      assert newer[|newer| - i] == all[|all| - i];
      if i > 1 {
        assert after[i] == before[i - 1];
      }
    }
  }

  class LogFile {
    const limits: Limits
    /** `daemon.log.1`, `daemon.log.2`, ... and `daemon.log` itself. */
    var numbered: map<nat, File>
    var current: File
    ghost var past: seq<File>

    ghost predicate Valid()
      reads this
    {
      |past| <= Kept(limits) && Filed(numbered, past)
    }

    ghost function State(): Log
      reads this
    {
      Log(past, current)
    }

    constructor (limits: Limits)
      ensures Valid() && State() == Log([], []) && this.limits == limits
    {
      this.limits := limits;
      numbered, current, past := map[], [], [];
    }

    /** Renames .i to .i+1, from the oldest kept number down. */
    method ShiftFiles()
      requires Valid()
      modifies this`numbered
      ensures Shifted(old(numbered), numbered, |past|, Kept(limits))
    {
      var kept := Kept(limits);
      ghost var n, before := |past|, numbered;
      for index := kept downto 1
        invariant index == kept ==> numbered == before
        invariant index < kept ==>
                    forall i: nat :: i in numbered <==> (1 <= i < index && i <= n) || (index < i <= kept && i - 1 <= n)
        invariant forall i: nat :: i in numbered && i < index ==> numbered[i] == before[i]
        invariant index < kept ==> forall i: nat :: i in numbered && i > index ==> numbered[i] == before[i - 1]
      {
        if index in numbered {
          numbered := numbered[index + 1 := numbered[index]] - {index};
        }
      }
    }

    method RotateFiles()
      requires Valid()
      modifies this
      ensures Valid() && State() == Rotate(limits, old(State()))
    {
      ghost var before := numbered;
      ShiftFiles();
      ShiftedIsFiled(before, numbered, past, current, Kept(limits));
      hide Filed, Newest;
      numbered := numbered[1 := current];
      past := Newest(past + [current], Kept(limits));
      current := [];
    }

    method WriteChunk(chunk: Chunk)
      requires Valid()
      modifies this
      ensures Valid() && State() == Write(limits, old(State()), chunk)
    {
      if limits.maxBytes > 0 && Size(current) + |chunk| > limits.maxBytes {
        RotateFiles();
      }
      current := current + [chunk];
    }
  }
}
