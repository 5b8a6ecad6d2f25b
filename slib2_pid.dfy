/**
 * The Python 2 PID-file functions (slib2/s_pid.py): `mkpid` checks an
 * existing file with `os.kill(pid, 0)` and writes the own id; `rmfile`
 * removes a file.
 */
module Slib2Pid {
  import opened Text
  import opened PidGuard

  /**
   * `mkpid`: `killOk(pid)` says whether `os.kill(pid, 0)` returns without
   * an OSError, which is how the process is judged alive; `ownPid` is
   * `os.getpid()`.  On refusal the filesystem is left as it was.
   */
  method MkPid(fs: FileSystem, path: string, ownPid: nat, killOk: int -> bool) returns (ok: bool)
    modifies fs
    ensures ok <==> MayWrite(Inspect(old(fs.files), fs.unreadable, path, killOk)) && path !in fs.unwritable
    ensures fs.files == if ok then old(fs.files)[path := PidLine(ownPid)] else old(fs.files)
  {
    if path in fs.files {
      if path in fs.unreadable {
        return false;
      }
      var pid := Strip(FirstLine(fs.files[path]));
      if IsDigits(pid) {
        if killOk(DecimalValue(pid)) {
          return false;
        }
      } else {
        return false;
      }
    }
    if path in fs.unwritable {
      return false;
    }
    fs.files := fs.files[path := PidLine(ownPid)];
    return true;
  }

  /** `rmfile`: true exactly when the file existed and could be removed, and then it is gone. */
  method RmFile(fs: FileSystem, path: string) returns (ok: bool)
    modifies fs
    ensures ok <==> path in old(fs.files) && path !in fs.undeletable
    ensures fs.files == if ok then old(fs.files) - {path} else old(fs.files)
  {
    if path !in fs.files || path in fs.undeletable {
      return false;
    }
    fs.files := fs.files - {path};
    return true;
  }
}
