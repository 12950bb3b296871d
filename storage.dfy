/** The file system the lessons are written to. A file is created (or
    truncated) and then written chunk by chunk. Two things can fail: creating
    a file at a path the policy refuses, and writing past the size limit, in
    which case the part that fits is written before the error, as a partial
    `write_all` leaves it. */
module Storage {
  import opened Common

  /** Which paths can be created, and the largest size a file may reach. */
  datatype DiskPolicy = DiskPolicy(canCreate: string -> bool, maxFileSize: nat)

  datatype WriteOutcome = WriteOutcome(content: Bytes, complete: bool)

  /** Writing `data` at the end of a file that holds `current`. */
  function Append(policy: DiskPolicy, current: Bytes, data: Bytes): (w: WriteOutcome)
    ensures w.complete <==> |current| + |data| <= policy.maxFileSize
    ensures w.complete ==> w.content == current + data
    ensures current <= w.content && w.content <= current + data
    ensures |current| <= policy.maxFileSize ==> |w.content| <= policy.maxFileSize
  {
    if |current| + |data| <= policy.maxFileSize then
      WriteOutcome(current + data, true)
    else if |current| >= policy.maxFileSize then
      WriteOutcome(current, false)
    else
      var room := policy.maxFileSize - |current|;
      assert (current + data)[..|current| + room] == current + data[..room];
      WriteOutcome(current + data[..room], false)
  }

  class Disk {
    const policy: DiskPolicy
    /** The content of every file, by path. */
    var files: map<string, Bytes>

    constructor (policy: DiskPolicy, files: map<string, Bytes>)
      ensures this.policy == policy && this.files == files
    {
      this.policy := policy;
      this.files := files;
    }

    /** Creates the file, or truncates it when it exists. */
    method Create(path: string) returns (r: Result<()>)
      modifies this
      ensures r.Ok? <==> policy.canCreate(path)
      ensures r.Fail? ==> r.fault == Error(IOError) && files == old(files)
      ensures r.Ok? ==> files == old(files)[path := []]
    {
      if policy.canCreate(path) {
        files := files[path := []];
        r := Ok(());
      } else {
        r := Fail(Error(IOError));
      }
    }

    /** Writes all of `data` at the end of the file, or fails after writing
        the part that fits. Other files are left as they are. */
    method WriteAll(path: string, data: Bytes) returns (r: Result<()>)
      requires path in files
      modifies this
      ensures var w := Append(policy, old(files)[path], data);
              files == old(files)[path := w.content] &&
              r == (if w.complete then Ok(()) else Fail(Error(IOError)))
    {
      var w := Append(policy, files[path], data);
      files := files[path := w.content];
      r := if w.complete then Ok(()) else Fail(Error(IOError));
    }
  }
}
