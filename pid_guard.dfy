/**
 * The PID-file guard shared by the two script libraries: before a run the
 * file at a fixed path is inspected, a live owner refuses the start, a
 * stale or absent file is (re)written with the process's own id.
 *
 * The filesystem is a map from path to contents; which paths cannot be
 * read, written or removed is fixed when it is built.
 */
module PidGuard {
  import opened Text

  class FileSystem {
    /** The existing files and what they hold. */
    var files: map<string, string>
    /** Paths whose `open(path, 'r')` or `readline` raises. */
    const unreadable: set<string>
    /** Paths whose `open(path, 'w')` raises (the file is then left as it was). */
    const unwritable: set<string>
    /** Paths whose `os.remove` raises even though the file exists. */
    const undeletable: set<string>

    constructor (files: map<string, string>, unreadable: set<string>, unwritable: set<string>, undeletable: set<string>)
      ensures this.files == files && this.unreadable == unreadable
      ensures this.unwritable == unwritable && this.undeletable == undeletable
    {
      this.files := files;
      this.unreadable := unreadable;
      this.unwritable := unwritable;
      this.undeletable := undeletable;
    }
  }

  /** What the guard writes: `'{}\n'.format(pid)`. */
  function PidLine(pid: nat): string {
    DecimalText(pid) + "\n"
  }

  /** What the guard reads back: `f.readline().strip()`. */
  function StoredPid(contents: string): string {
    Strip(FirstLine(contents))
  }

  /** How the guard judges the file at the path before deciding. */
  datatype Finding =
    | Absent        // no file: write it
    | Unreadable    // reading raised: refuse
    | Corrupt       // the first line is not a number: refuse, manual removal needed
    | Running       // the recorded process is alive: refuse
    | Stale         // the recorded process is gone: overwrite

  /**
   * The finding for `path`, where `live(pid)` says whether the liveness
   * check succeeds for that process id.
   */
  function Inspect(files: map<string, string>, unreadable: set<string>, path: string, live: int -> bool): (f: Finding)
    ensures f == Absent <==> path !in files
    ensures f == Corrupt ==> !IsDigits(StoredPid(files[path]))
    ensures f == Running || f == Stale ==>
      path in files && path !in unreadable && IsDigits(StoredPid(files[path])) &&
      (f == Running <==> live(DecimalValue(StoredPid(files[path]))))
  {
    if path !in files then Absent
    else if path in unreadable then Unreadable
    else
      var pid := StoredPid(files[path]);
      if !IsDigits(pid) then Corrupt
      else if live(DecimalValue(pid)) then Running
      else Stale
  }

  /** The findings after which the guard goes on to write its own id. */
  predicate MayWrite(f: Finding) {
    f == Absent || f == Stale
  }

  /**
   * The file the guard writes is read back as the writer's id: a second
   * start while the first process lives finds it running, and after it
   * died finds it stale.
   */
  lemma WrittenPidReadsBack(files: map<string, string>, unreadable: set<string>, path: string,
                            live: int -> bool, pid: nat)
    requires path !in unreadable
    ensures StoredPid(PidLine(pid)) == DecimalText(pid)
    ensures Inspect(files[path := PidLine(pid)], unreadable, path, live) ==
      if live(pid) then Running else Stale
  {
    var w := DecimalText(pid);
    assert forall i :: 0 <= i < |w| ==> w[i] != '\n';
    FirstLineOfLine(w, "");
    assert w + "\n" + "" == PidLine(pid);
    StripDigitsLine(w);
    DecimalRoundTrip(pid);
  }
}
