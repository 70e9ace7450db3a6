/**
  The bounded set of log files: a record that does not fit the open file first
  shifts every file up by one index, dropping the oldest.
 */
module RotatingFile {
  import opened Common

  datatype Rec = Rec(id: nat, bytes: nat)

  /** Files by index; 0 is open for appending, larger indices are older. */
  type Files = map<nat, seq<Rec>>

  function FileAt(files: Files, i: nat): seq<Rec> { if i in files then files[i] else [] }

  function Size(recs: seq<Rec>): nat { if recs == [] then 0 else Size(recs[..|recs| - 1]) + recs[|recs| - 1].bytes }

  /** The first n files read from the oldest to the newest. */
  function ReadAll(files: Files, n: nat): seq<Rec> { if n == 0 then [] else FileAt(files, n - 1) + ReadAll(files, n - 1) }

  function Lookup(files: Files, i: nat): Option<seq<Rec>> { if i in files then Some(files[i]) else None }

  /** What is found at index i once the files from `from` up to n-1 have moved up by one, leaving `from` free. */
  function Shifted(files: Files, n: nat, from: nat, i: nat): Option<seq<Rec>> {
    if i < from || n <= i then Lookup(files, i) else if i == from then None else Lookup(files, i - 1)
  }

  /** Every file moves up one index, the last of n is dropped, and a new empty one is opened. */
  ghost predicate IsRotation(files: Files, after: Files, n: nat) {
    forall i: nat :: Lookup(after, i) == if i == 0 then Some([]) else Shifted(files, n, 0, i)
  }

  predicate Suffix(tail: seq<Rec>, whole: seq<Rec>) { |tail| <= |whole| && whole[|whole| - |tail|..] == tail }

  lemma {:induction false} ReadRotated(files: Files, after: Files, n: nat, k: nat)
    requires 1 <= k <= n && IsRotation(files, after, n)
    ensures ReadAll(after, k) == ReadAll(files, k - 1)
  {
    assert Lookup(after, k - 1) == if k == 1 then Some([]) else Shifted(files, n, 0, k - 1);
    if k == 1 {
      assert FileAt(after, 0) == [];
    } else {
      ReadRotated(files, after, n, k - 1);
      assert FileAt(after, k - 1) == FileAt(files, k - 2);
    }
  }

  /** What a rotation leaves readable is what was readable, less the oldest file. */
  lemma RotationDropsOldest(files: Files, after: Files, n: nat)
    requires n >= 1 && IsRotation(files, after, n)
    ensures ReadAll(files, n) == FileAt(files, n - 1) + ReadAll(after, n)
  {
    ReadRotated(files, after, n, n);
  }

  lemma {:induction false} ReadAppended(files: Files, n: nat, rec: Rec)
    requires n >= 1 && 0 in files
    ensures ReadAll(files[0 := files[0] + [rec]], n) == ReadAll(files, n) + [rec]
  {
    var g := files[0 := files[0] + [rec]];
    if n == 1 {
      assert ReadAll(g, 0) == [] && ReadAll(files, 0) == [];
    } else {
      ReadAppended(files, n - 1, rec);
      assert FileAt(g, n - 1) == FileAt(files, n - 1);
    }
  }

  lemma SuffixTail(a: seq<Rec>, b: seq<Rec>, whole: seq<Rec>)
    requires Suffix(a + b, whole)
    ensures Suffix(b, whole)
  {
    assert (a + b)[|a|..] == b;
    assert whole[|whole| - |b|..] == whole[|whole| - |a + b|..][|a|..];
  }

  lemma SuffixMore(tail: seq<Rec>, whole: seq<Rec>, rec: Rec)
    requires Suffix(tail, whole)
    ensures Suffix(tail + [rec], whole + [rec])
  {
  }

  lemma SizeMore(recs: seq<Rec>, rec: Rec)
    ensures Size(recs + [rec]) == Size(recs) + rec.bytes
  {
    assert (recs + [rec])[..|recs|] == recs;
  }

  class RotatingFile {
    const maxBytes: nat
    const maxFiles: nat

    var files: Files
    var size: nat

    /** Everything ever written, and how many of the newest files this process wrote. */
    ghost var stream: seq<Rec>
    ghost var own: nat

    ghost predicate Valid()
      reads this
    {
      && maxFiles >= 1 && 0 in files && size == Size(files[0])
      && Suffix(ReadAll(files, maxFiles), stream)
      && forall i :: 0 <= i < own && i < maxFiles ==> i in files && Size(files[i]) <= maxBytes
    }

    /** Opening takes over whatever earlier processes left; a non-empty file is rotated away first. */
    constructor (maxBytes: nat, maxFiles: nat, found: Files)
      requires maxFiles >= 1
      ensures Valid() && own >= 1 && this.maxBytes == maxBytes && this.maxFiles == maxFiles
      ensures stream == ReadAll(found, maxFiles) && size == 0
      ensures if Size(FileAt(found, 0)) != 0 then IsRotation(found, files, maxFiles) else files == found[0 := FileAt(found, 0)]
    {
      this.maxBytes, this.maxFiles := maxBytes, maxFiles;
      files := found[0 := FileAt(found, 0)];
      size := Size(FileAt(found, 0));
      stream := ReadAll(found, maxFiles);
      own := 0;
      new;
      SameFiles(found, maxFiles);
      if size != 0 {
        assert files == found;
        Rotate();
      } else {
        own := 1;
      }
    }

    /** Shift the files up, newest last; no rename overwrites a file that is still to be kept. */
    method Shift()
      requires maxFiles > 1
      modifies this`files
      ensures forall i: nat :: Lookup(files, i) == Shifted(old(files), maxFiles, 0, i)
    {
      files := files - {maxFiles - 1};
      var index := maxFiles - 1;
      while index > 0
        invariant 0 <= index <= maxFiles - 1
        invariant forall i: nat :: Lookup(files, i) == Shifted(old(files), maxFiles, index, i)
      {
        index := index - 1;
        assert Lookup(files, index + 1) == None && Lookup(files, index) == Lookup(old(files), index);
        ghost var before := files;
        if index in files {
          files := (files - {index})[index + 1 := files[index]];
        }
        forall i: nat
          ensures Lookup(files, i) == Shifted(old(files), maxFiles, index, i)
        {
          assert Lookup(before, i) == Shifted(old(files), maxFiles, index + 1, i);
        }
      }
    }

    method Rotate()
      requires Valid()
      modifies this
      ensures Valid() && IsRotation(old(files), files, maxFiles) && files[0] == [] && size == 0
      ensures stream == old(stream) && own == old(own) + 1
    {
      ghost var was := files;
      if maxFiles > 1 {
        Shift();
      }
      files := files[0 := []];
      size := 0;
      own := own + 1;
      assert IsRotation(was, files, maxFiles);
      RotationDropsOldest(was, files, maxFiles);
      SuffixTail(FileAt(was, maxFiles - 1), ReadAll(files, maxFiles), stream);
      OwnShifted(was, files, maxFiles, maxBytes, own);
    }

    /** A record that fits no file is refused; any other is the next of the stream. */
    method WriteRecord(rec: Rec) returns (ok: bool)
      requires Valid() && own >= 1
      modifies this
      ensures Valid() && own >= old(own) && ok == (rec.bytes <= maxBytes)
      ensures stream == if ok then old(stream) + [rec] else old(stream)
      ensures !ok ==> files == old(files) && size == old(size)
      ensures ok ==>
        if old(size) != 0 && old(size) + rec.bytes > maxBytes
        then files[0] == [rec] && IsRotation(old(files), files[0 := []], maxFiles)
        else files == old(files)[0 := old(files[0]) + [rec]]
    {
      hide Size, ReadAll, Suffix, Lookup, Shifted;
      if rec.bytes > maxBytes {
        return false;
      }
      if size != 0 && size + rec.bytes > maxBytes {
        Rotate();
      }
      ghost var was := files;
      SizeMore(files[0], rec);
      ReadAppended(files, maxFiles, rec);
      SuffixMore(ReadAll(files, maxFiles), stream, rec);
      files := files[0 := files[0] + [rec]];
      assert was[0] == [] ==> files[0] == [rec] && files[0 := []] == was;
      size := size + rec.bytes;
      stream := stream + [rec];
      return true;
    }
  }

  lemma {:induction false} SameFiles(found: Files, n: nat)
    ensures ReadAll(found[0 := FileAt(found, 0)], n) == ReadAll(found, n)
  {
    if n > 0 {
      SameFiles(found, n - 1);
      assert FileAt(found[0 := FileAt(found, 0)], n - 1) == FileAt(found, n - 1);
    }
  }

  lemma OwnShifted(files: Files, after: Files, n: nat, maxBytes: nat, own: nat)
    requires IsRotation(files, after, n) && own >= 1
    requires forall i :: 0 <= i < own - 1 && i < n ==> i in files && Size(files[i]) <= maxBytes
    ensures forall i :: 0 <= i < own && i < n ==> i in after && Size(after[i]) <= maxBytes
  {
    forall i | 0 <= i < own && i < n
      ensures i in after && Size(after[i]) <= maxBytes
    {
      assert Lookup(after, i) == if i == 0 then Some([]) else Shifted(files, n, 0, i);
    }
  }
}
