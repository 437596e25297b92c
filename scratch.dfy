/**
 * The per-request scratch directory: the files the downloader left in it, the
 * `*.mp3` glob over its listing, and the in-place rename of the chosen file.
 */
module Scratch {

  newtype Byte = x: int | 0 <= x < 256

  type Bytes = seq<Byte>

  /** A flat directory: each entry name mapped to the file's bytes. */
  type Directory = map<string, Bytes>

  const Mp3Suffix: string := ".mp3"

  /** The glob `*.mp3`: the name ends in `.mp3` (case-sensitive; `*` may match nothing). */
  predicate IsMp3(name: string) {
    |name| >= |Mp3Suffix| && name[|name| - |Mp3Suffix|..] == Mp3Suffix
  }

  /**
   * `listing` enumerates the directory: every entry exactly once, in whatever
   * order the file system yields them.
   */
  predicate Enumerates(listing: seq<string>, dir: Directory) {
    && (forall name :: name in listing ==> name in dir)
    && (forall name :: name in dir ==> name in listing)
    && (forall i, j :: 0 <= i < j < |listing| ==> listing[i] != listing[j])
  }

  /** The entries the glob `*.mp3` yields, in listing order. */
  function Mp3Files(listing: seq<string>): (r: seq<string>)
    ensures forall name :: name in r <==> name in listing && IsMp3(name)
    ensures |r| <= |listing|
  {
    if listing == [] then []
    else (if IsMp3(listing[0]) then [listing[0]] else []) + Mp3Files(listing[1..])
  }

  /** The glob yields nothing exactly when no listed name ends in `.mp3`. */
  lemma NoMp3Files(listing: seq<string>)
    ensures Mp3Files(listing) == [] <==> forall i :: 0 <= i < |listing| ==> !IsMp3(listing[i])
  {
    if Mp3Files(listing) != [] {
      var name := Mp3Files(listing)[0];
      assert name in Mp3Files(listing);
    }
  }

  /** The first file the glob yields is the earliest `.mp3` entry of the listing. */
  lemma {:induction false} FirstMp3File(listing: seq<string>, i: nat)
    requires i < |listing| && IsMp3(listing[i])
    requires forall j :: 0 <= j < i ==> !IsMp3(listing[j])
    ensures Mp3Files(listing) != [] && Mp3Files(listing)[0] == listing[i]
  {
    if i > 0 {
      FirstMp3File(listing[1..], i - 1);
    }
  }

  /**
   * The directory after renaming `src` to `dst`: `dst` holds what `src` held
   * (replacing any earlier `dst`), `src` is gone unless it was `dst` itself, and
   * every other entry is untouched.
   */
  function Renamed(dir: Directory, src: string, dst: string): (r: Directory)
    requires src in dir
    ensures r.Keys == dir.Keys - {src} + {dst}
    ensures r[dst] == dir[src]
    ensures forall name :: name in dir && name != src && name != dst ==> r[name] == dir[name]
  {
    (dir - {src})[dst := dir[src]]
  }

  /** Renaming keeps the number of entries, or loses one when `dst` already existed. */
  lemma RenamedSize(dir: Directory, src: string, dst: string)
    requires src in dir
    ensures |Renamed(dir, src, dst)| == if src != dst && dst in dir then |dir| - 1 else |dir|
  {
    var r := Renamed(dir, src, dst);
    if src == dst {
      assert r.Keys == dir.Keys;
    } else if dst in dir {
      assert r.Keys == dir.Keys - {src};
    } else {
      assert r.Keys == dir.Keys - {src} + {dst};
      assert |dir.Keys - {src}| == |dir| - 1;
    }
  }

  /** The temporary directory of one request. */
  class ScratchDir {
    var files: Directory

    /** A freshly created temporary directory is empty. */
    constructor ()
      ensures files == map[]
    {
      files := map[];
    }

    /** The downloader writes its output files into the directory. */
    method Receive(produced: Directory)
      modifies this
      ensures files == produced
    {
      files := produced;
    }

    /** `Path.rename` within the directory; an existing `dst` is replaced. */
    method Rename(src: string, dst: string)
      requires src in files
      modifies this
      ensures files == Renamed(old(files), src, dst)
    {
      var data := files[src];
      files := files - {src};
      files := files[dst := data];
    }
  }
}
