/**
 * The Python 3 PID-file function (slib3/pid.py): the same sequence as the
 * Python 2 `mkpid`, with the process table query `ps_check_pid` as the
 * liveness check.
 */
module Slib3Pid {
  import opened Text
  import opened PidGuard

  /**
   * `pid_mk_file`: `psCheckPid(pid)` is what `ps_check_pid` answers;
   * `ownPid` is `os.getpid()`.  On refusal the filesystem is left as it was.
   */
  method PidMkFile(fs: FileSystem, path: string, ownPid: nat, psCheckPid: int -> bool) returns (ok: bool)
    modifies fs
    ensures ok <==> MayWrite(Inspect(old(fs.files), fs.unreadable, path, psCheckPid)) && path !in fs.unwritable
    ensures fs.files == if ok then old(fs.files)[path := PidLine(ownPid)] else old(fs.files)
  {
    if path in fs.files {
      if path in fs.unreadable {
        return false;
      }
      var pid := Strip(FirstLine(fs.files[path]));
      if IsDigits(pid) {
        if psCheckPid(DecimalValue(pid)) {
          return false;
        }
      } else {
        return false;
      }
    }
    if path in fs.unwritable {
      return false;
    }
    fs.files := fs.files[path := PidLine(ownPid)];
    ok := true;
  }
}
