/** The receive engine as the program runs it: an object over a file system, with
    the search for a free destination as a loop. */
module ReceiveEngine {
  import opened Prelude
  import opened FileNames
  import opened TransferEngine

  /** The save directory. */
  class FileSystem {
    var files: Disk

    constructor (files: Disk)
      ensures this.files == files
    {
      this.files := files;
    }

    method Exists(name: string) returns (yes: bool)
      ensures yes == (name in files)
    {
      yes := name in files;
    }

    /** Exclusive creation. */
    method CreateNew(name: string) returns (ok: bool)
      modifies this
      ensures ok == (name !in old(files))
      ensures files == if ok then old(files)[name := []] else old(files)
    {
      ok := name !in files;
      if ok {
        files := files[name := []];
      }
    }

    method Append(name: string, data: Bytes) returns (ok: bool)
      modifies this
      ensures ok == (name in old(files))
      ensures files == if ok then old(files)[name := old(files)[name] + data] else old(files)
    {
      ok := name in files;
      if ok {
        files := files[name := files[name] + data];
      }
    }

    method Rename(from: string, to: string) returns (ok: bool)
      modifies this
      ensures ok == (from in old(files))
      ensures files == if ok then (old(files) - {from})[to := old(files)[from]] else old(files)
    {
      ok := from in files;
      if ok {
        files := (files - {from})[to := files[from]];
      }
    }

    method Remove(name: string)
      modifies this
      ensures files == old(files) - {name}
    {
      files := files - {name};
    }
  }

  /** The plain name if it is free, else the first free numbered copy, else the
      plain name after all. */
  method FreeDestination(fs: FileSystem, fileName: string) returns (to: string)
    ensures to == Destination(fs.files, fileName)
    ensures fileName !in fs.files ==> to == fileName
    ensures to in fs.files ==> to == fileName && forall n :: 0 <= n < 10_000 ==> Candidate(fileName, n) in fs.files
    ensures to !in fs.files ==> exists n :: FirstFree(fs.files, fileName, n) && to == Candidate(fileName, n)
  {
    var taken := fs.Exists(fileName);
    if !taken {
      return fileName;
    }
    var n := 1;
    while n < MAX_NAME_COLLISIONS
      invariant 1 <= n <= MAX_NAME_COLLISIONS
      invariant Destination(fs.files, fileName) == FreeFrom(fs.files, fileName, n)
      invariant fileName in fs.files && forall i :: 0 <= i < n ==> Candidate(fileName, i) in fs.files
    {
      var candidate := Candidate(fileName, n);
      taken := fs.Exists(candidate);
      if !taken {
        return candidate;
      }
      n := n + 1;
    }
    return fileName;
  }

  class Engine {
    const fs: FileSystem
    var incoming: map<Id, Incoming>

    constructor (fs: FileSystem)
      ensures this.fs == fs && incoming == map[]
    {
      this.fs := fs;
      incoming := map[];
    }

    ghost function View(): State
      reads this, fs
    {
      State(fs.files, incoming)
    }

    method StartReceive(id: Id, fileName: string, fileSize: u64) returns (r: Result<(), Error>)
      modifies this, fs
      ensures Out(View(), r) == Start(old(View()), id, fileName, fileSize)
    {
      if id in incoming {
        return Err(AlreadyActive);
      }
      var finalName := SanitizeFileName(fileName);
      var partName := finalName + PART_SUFFIX;
      var created := fs.CreateNew(partName);
      if !created {
        return Err(PartExists);
      }
      incoming := incoming[id := Incoming(fileSize, finalName, partName, 0)];
      return Ok(());
    }

    method WriteChunk(id: Id, data: Bytes) returns (r: Result<u64, Error>)
      modifies this, fs
      ensures Out(View(), r) == Write(old(View()), id, data)
    {
      if |data| > CHUNK_SIZE {
        return Err(ChunkTooLarge);
      }
      if id !in incoming {
        return Err(UnknownTransfer);
      }
      var transfer := incoming[id];
      var totalAfter := (transfer.received + |data|) % U64_RANGE;
      if totalAfter > transfer.fileSize {
        return Err(Overflows);
      }
      var appended := fs.Append(transfer.partName, data);
      if !appended {
        return Err(PartMissing);
      }
      incoming := incoming[id := transfer.(received := totalAfter)];
      return Ok(totalAfter);
    }

    method FinishReceive(id: Id) returns (r: Result<string, Error>)
      modifies this, fs
      ensures Out(View(), r) == Finish(old(View()), id)
    {
      if id !in incoming {
        return Err(UnknownTransfer);
      }
      var transfer := incoming[id];
      if transfer.fileSize != UNKNOWN_SIZE && transfer.received != transfer.fileSize {
        return Err(Incomplete);
      }
      var destination := FreeDestination(fs, transfer.finalName);
      var renamed := fs.Rename(transfer.partName, destination);
      if !renamed {
        return Err(PartMissing);
      }
      incoming := incoming - {id};
      return Ok(destination);
    }

    /** A part file that is already gone does not stop the cancellation. */
    method AbortReceive(id: Id) returns (r: Result<(), Error>)
      modifies this, fs
      ensures Out(View(), r) == Abort(old(View()), id)
    {
      if id !in incoming {
        return Err(UnknownTransfer);
      }
      var transfer := incoming[id];
      incoming := incoming - {id};
      fs.Remove(transfer.partName);
      return Ok(());
    }
  }
}
