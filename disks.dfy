/**
 * The local filesystem as the deployment code sees it: a map from file path
 * to text, a set of directory paths, and a set of paths on which every file
 * operation throws (missing permissions, a broken share).
 */
module Disks {
  import opened Common

  /** The prefix every entry directly inside directory `d` starts with. */
  function DirPrefix(d: string): string
  {
    if d != "" && d[|d| - 1] == '/' then d else d + "/"
  }

  /** `q` names an entry directly inside directory `d`. */
  predicate IsChildOf(q: string, d: string)
  {
    var pre := DirPrefix(d);
    |pre| < |q| && q[..|pre|] == pre && '/' !in q[|pre|..]
  }

  /** Path.Combine(d, name) names an entry directly inside d. */
  lemma CombineIsChild(d: string, name: string)
    requires d != "" && name != "" && '/' !in name
    ensures IsChildOf(Combine(d, name), d)
  {
    var pre := DirPrefix(d);
    assert Combine(d, name) == pre + name;
    assert (pre + name)[..|pre|] == pre;
    assert (pre + name)[|pre|..] == name;
  }

  class Disk {
    var files: map<string, string>
    var dirs: set<string>
    const faulty: set<string>

    constructor (files: map<string, string>, dirs: set<string>, faulty: set<string>)
      ensures this.files == files && this.dirs == dirs && this.faulty == faulty
    {
      this.files := files;
      this.dirs := dirs;
      this.faulty := faulty;
    }

    /** File.Exists */
    predicate FileExists(p: string)
      reads this
    {
      p in files
    }

    /** Directory.Exists */
    predicate DirectoryExists(p: string)
      reads this
    {
      p in dirs
    }

    /** What File.ReadAllText(p) yields. */
    function ReadOutcome(p: string): (r: Result<string>)
      reads this
      ensures r.Ok? <==> p in files && p !in faulty
      ensures r.Ok? ==> r.value == files[p]
    {
      if p !in files || p in faulty then Err(IoFailure(p)) else Ok(files[p])
    }

    /** File.ReadAllText(p) */
    method ReadAllText(p: string) returns (r: Result<string>)
      ensures r == ReadOutcome(p)
    {
      if p !in files || p in faulty {
        r := Err(IoFailure(p));
      } else {
        r := Ok(files[p]);
      }
    }

    /** File.WriteAllText(p, text) succeeds unless p is faulty or names a directory. */
    predicate CanWrite(p: string)
      reads this
    {
      p !in faulty && p !in dirs
    }

    /** File.WriteAllText(p, text) */
    method WriteAllText(p: string, text: string) returns (r: Result<()>)
      modifies this`files
      ensures r.Ok? <==> old(CanWrite(p))
      ensures files == if r.Ok? then old(files)[p := text] else old(files)
    {
      if p in faulty || p in dirs {
        r := Err(IoFailure(p));
      } else {
        files := files[p := text];
        r := Ok(());
      }
    }

    /** File.Delete(p): deleting a missing file is not an error. */
    method Delete(p: string) returns (r: Result<()>)
      modifies this`files
      ensures r.Ok? <==> p !in faulty
      ensures files == if r.Ok? then old(files) - {p} else old(files)
    {
      if p in faulty {
        r := Err(IoFailure(p));
      } else {
        files := files - {p};
        r := Ok(());
      }
    }

    /** Every path the disk knows, files and directories. */
    function Entries(): set<string>
      reads this
    {
      files.Keys + dirs
    }

    /** Directory.EnumerateFileSystemEntries(d).Any() */
    predicate HasEntries(d: string)
      reads this
    {
      exists q :: q in Entries() && IsChildOf(q, d)
    }
  }
}
