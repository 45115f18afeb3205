/** The file system as the plugin sees it: a map from path to contents.
    Which deletions throw is decided by the caller (an input set of paths),
    and so is whether and how a write throws. */
module Disk {
  import opened Wrappers
  import opened Encoding

  /** How a File.WriteAllBytes or File.WriteAllText that throws fails: before
      the file was opened (`afterOpen` false: nothing on disk changes), or after
      FileMode.Create opened it, which creates or empties the file, with the
      first `written` bytes of the data on disk. */
  datatype WriteFailure = WriteFailure(message: string, afterOpen: bool, written: nat)

  /** The files after a write of `data` to `path` that throws with `f`: a
      failure after the open leaves a prefix of the data, possibly empty, in
      place of the old contents; no other file changes. */
  function FailedWrite(files: map<string, Bytes>, path: string, data: Bytes, f: WriteFailure): (r: map<string, Bytes>)
    ensures !f.afterOpen ==> r == files
    ensures f.afterOpen ==> path in r && r[path] <= data && |r[path]| == Min(f.written, |data|)
    ensures f.afterOpen ==> forall p :: p != path ==> (p in r <==> p in files) && (p in r ==> r[p] == files[p])
  {
    if f.afterOpen then files[path := data[..Min(f.written, |data|)]] else files
  }

  class Disk {
    var files: map<string, Bytes>

    constructor (initial: map<string, Bytes>)
      ensures files == initial
    {
      files := initial;
    }

    /** File.Exists */
    predicate Exists(path: string)
      reads this
    {
      path in files
    }

    /** File.WriteAllBytes, when it does not throw. */
    method WriteAllBytes(path: string, data: Bytes)
      modifies this
      ensures files == old(files)[path := data]
    {
      files := files[path := data];
    }

    /** File.WriteAllBytes, when it throws with `failure`. */
    method FailWriteAllBytes(path: string, data: Bytes, failure: WriteFailure)
      modifies this
      ensures files == FailedWrite(old(files), path, data, failure)
    {
      if failure.afterOpen {
        files := files[path := data[..Min(failure.written, |data|)]];
      }
    }

    /** File.Delete, when it does not throw. */
    method Delete(path: string)
      modifies this
      ensures files == old(files) - {path}
    {
      files := files - {path};
    }
  }
}
