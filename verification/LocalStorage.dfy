// The local backend: upload into a temporary file, then an atomic rename to the content key.
module LocalStorage {
  import opened Types
  import opened StorageBase
  import opened StoredContent

  const WRITE_BUFFER := 4 * 1024 * 1024

  /** Final objects and temporary files by name; `faults` says which of the coming disk operations fail. */
  class Storage {
    const codecs: Codecs
    const chunkSize: nat
    var files: map<string, Bytes>
    var tmp: map<string, Bytes>
    var faults: seq<bool>

    constructor (codecs: Codecs, chunkSize: nat)
      requires chunkSize > 0
      ensures this.codecs == codecs && this.chunkSize == chunkSize && files == map[] && tmp == map[] && faults == []
    {
      this.codecs, this.chunkSize := codecs, chunkSize;
      files, tmp, faults := map[], map[], [];
    }

    method Disk() returns (ok: bool)
      modifies `faults
      ensures ok <==> old(faults) == [] || !old(faults)[0]
      ensures faults == if old(faults) == [] then [] else old(faults)[1..]
    {
      ok := true;
      if faults != [] {
        ok := !faults[0];
        faults := faults[1..];
      }
    }

    method WriteTmp(name: string, data: Bytes) returns (ok: bool)
      requires name in tmp
      modifies `tmp, `faults
      ensures old(faults) == [] ==> ok && faults == []
      ensures tmp == if ok then old(tmp)[name := old(tmp)[name] + data] else old(tmp)
    {
      ok := Disk();
      if ok { tmp := tmp[name := tmp[name] + data]; }
    }

    method UnlinkTmp(name: string)
      modifies `tmp
      ensures tmp == old(tmp) - {name}
    {
      tmp := tmp - {name};
    }

    /** Adds a chunk to the buffer and writes the buffer out once enough has gathered. */
    method Gather(up: Upload, n: nat, name: string, buf0: Bytes) returns (ok: bool, buf: Bytes)
      requires n < |up.chunks| && name in tmp && tmp[name] + buf0 == Concat(up.chunks[..n])
      modifies `tmp, `faults
      ensures name in tmp && tmp == old(tmp)[name := tmp[name]] && (old(faults) == [] ==> ok && faults == [])
      ensures ok ==> tmp[name] + buf == Concat(up.chunks[..n + 1]) && |buf| < WRITE_BUFFER
    {
      assert up.chunks[..n + 1][..n] == up.chunks[..n];
      ok, buf := true, buf0 + up.chunks[n];
      assert tmp[name] + buf == Concat(up.chunks[..n + 1]);
      if |buf| >= WRITE_BUFFER {
        ok := WriteTmp(name, buf);
        if ok { buf := []; }
      }
    }

    /** The loop over the stream and the final flush, into an empty temporary file. */
    method Receive(up: Upload, name: string)
      returns (error: Option<StorageError>, size: nat, head: Bytes, mimeType: Option<string>)
      requires name in tmp && tmp[name] == []
      modifies `tmp, `faults
      ensures name in tmp && tmp == old(tmp)[name := tmp[name]]
      ensures error.Some? ==>
                || error == Some(BackendFailure)
                || error == Consume(codecs, up.filename, up.maxBytes, up.chunks)
                || (error == Some(Disconnected) && up.broken && Consume(codecs, up.filename, up.maxBytes, up.chunks).None?)
      ensures error.None? ==> Consume(codecs, up.filename, up.maxBytes, up.chunks).None? && !up.broken
                              && Sniffed(codecs, up, Concat(up.chunks), size, head, mimeType) && tmp[name] == Concat(up.chunks)
      ensures old(faults) == [] ==> faults == [] && error != Some(BackendFailure)
    {
      var buf: Bytes;
      size, head, mimeType, buf, error := 0, [], None, [], None;
      assert up.chunks[..0] == [];
      for n := 0 to |up.chunks|
        invariant name in tmp && tmp == old(tmp)[name := tmp[name]]
        invariant tmp[name] + buf == Concat(up.chunks[..n]) && |buf| < WRITE_BUFFER
        invariant Consume(codecs, up.filename, up.maxBytes, up.chunks[..n]).None? && error.None?
        invariant Sniffed(codecs, up, Concat(up.chunks[..n]), size, head, mimeType)
        invariant old(faults) == [] ==> faults == []
      {
        error, size, head, mimeType := Sniff(codecs, up, n, size, head, mimeType);
        if error.Some? {
          RejectionLasts(codecs, up, n + 1);
          return;
        }
        var ok;
        ok, buf := Gather(up, n, name, buf);
        if !ok { return Some(BackendFailure), size, head, mimeType; }
      }
      assert up.chunks[..|up.chunks|] == up.chunks;
      if up.broken { return Some(Disconnected), size, head, mimeType; }
      if buf != [] {
        var ok := WriteTmp(name, buf);
        if !ok { return Some(BackendFailure), size, head, mimeType; }
      }
      var synced := Disk();
      if !synced { error := Some(BackendFailure); }
    }

    /** The stream received and described: the answer of a fault-free upload, or a failure of the disk. */
    method Accept(up: Upload, name: string) returns (r: Result<StoredObject>)
      requires name in tmp && tmp[name] == []
      modifies `tmp, `faults
      ensures name in tmp && tmp == old(tmp)[name := tmp[name]]
      ensures r == Admit(codecs, up) || r == Err(BackendFailure)
      ensures r.Ok? ==> tmp[name] == Concat(up.chunks)
      ensures old(faults) == [] ==> faults == [] && r == Admit(codecs, up)
    {
      var error, size, head, mimeType := Receive(up, name);
      if error.Some? { return Err(error.value); }
      r := Describe(codecs, up, size, head, mimeType);
    }

    /** Where the bytes of an admitted upload go. */
    ghost function FinalKey(up: Upload): string {
      if Admit(codecs, up).Ok? then Admit(codecs, up).value.key else ""
    }

    /** The files while other requests publish and delete. */
    method Interfere(world: State, evs: seq<Event>)
      requires files == world.objects
      modifies `files
      ensures files == Run(codecs, world, evs).objects
    {
      files := Run(codecs, world, evs).objects;
    }

    /** Storing a received temporary file under its key, unless there is an object. */
    method Place(up: Upload, stored: StoredObject, name: string, world: State, before: seq<Event>, between: seq<Event>, id: nat)
      returns (r: Result<StoredObject>, ghost ending: Ending)
      requires Admit(codecs, up) == Ok(stored) && name in tmp && tmp[name] == Concat(up.chunks)
      requires files == Run(codecs, world, before).objects
      requires id !in world.pending && Foreign(before, id) && Foreign(between, id)
      modifies `files, `tmp, `faults
      ensures tmp == old(tmp) - {name}
      ensures Ends(files, up, world, before, between, id, r, ending) && (old(faults) == [] ==> r.Ok?)
    {
      if stored.key in files {
        UnlinkTmp(name);
        r, ending := Ok(stored.(deduplicated := true)), Found;
        FoundEnds(files, up, world, before, between, id, stored);
      } else {
        ChecksOnce(codecs, world, id, up, before);
        Interfere(Run(codecs, world, Checked(id, up, before)), between);
        r, ending := Rename(up, stored, name, world, before, between, id);
      }
    }

    /** The last step once the key was found free: the rename, which may fail. */
    method Rename(up: Upload, stored: StoredObject, name: string, world: State, before: seq<Event>, between: seq<Event>, id: nat)
      returns (r: Result<StoredObject>, ghost ending: Ending)
      requires Admit(codecs, up) == Ok(stored) && name in tmp && tmp[name] == Concat(up.chunks)
      requires files == Run(codecs, Run(codecs, world, Checked(id, up, before)), between).objects
      requires stored.key !in Run(codecs, world, before).objects
      requires id !in world.pending && Foreign(before, id) && Foreign(between, id)
      modifies `files, `tmp, `faults
      ensures tmp == old(tmp) - {name}
      ensures Ends(files, up, world, before, between, id, r, ending) && (old(faults) == [] ==> r.Ok?)
    {
      PublishesOrCancels(codecs, world, id, up, before, between);
      var ok := Disk();
      if !ok {
        UnlinkTmp(name);
        return Err(BackendFailure), GaveUp;
      }
      files := files[stored.key := tmp[name]];
      tmp := tmp - {name};
      r, ending := Ok(stored), Published;
    }

    lemma FoundEnds(objects: map<string, Bytes>, up: Upload, world: State, before: seq<Event>, between: seq<Event>, id: nat,
                    stored: StoredObject)
      requires Admit(codecs, up) == Ok(stored) && stored.key in objects && objects == Run(codecs, world, before).objects
      requires id !in world.pending && Foreign(before, id)
      ensures Ends(objects, up, world, before, between, id, Ok(stored.(deduplicated := true)), Found)
    {
      ChecksOnce(codecs, world, id, up, before);
    }

    /** How the upload ended, its answer, and the files as one upload among others leaves them. */
    ghost predicate Ends(objects: map<string, Bytes>, up: Upload, world: State, before: seq<Event>, between: seq<Event>, id: nat,
                         r: Result<StoredObject>, ending: Ending)
    {
      && objects == Run(codecs, world, Events(id, up, before, between, ending)).objects
      && Answers(codecs, up, r, FinalKey(up) in Run(codecs, world, before).objects)
      && (ending.Published? <==> r.Ok? && !r.value.deduplicated)
      && (ending.Found? <==> r.Ok? && r.value.deduplicated)
      && (ending.GaveUp? ==> r == Err(BackendFailure) && Admit(codecs, up).Ok?
                             && FinalKey(up) !in Run(codecs, world, before).objects)
    }

    /** The upload once its temporary file is open. */
    method Fill(up: Upload, name: string, world: State, before: seq<Event>, between: seq<Event>, id: nat)
      returns (r: Result<StoredObject>, ghost ending: Ending)
      requires name in tmp && tmp[name] == [] && files == world.objects
      requires id !in world.pending && Foreign(before, id) && Foreign(between, id)
      modifies `files, `tmp, `faults
      ensures tmp == old(tmp) - {name} && Ends(files, up, world, before, between, id, r, ending)
      ensures old(faults) == [] ==> r.Ok? == Admit(codecs, up).Ok? && (r.Err? ==> r == Admit(codecs, up))
    {
      ending := Unseen;
      r := Accept(up, name);
      Interfere(world, before);
      if r.Err? {
        UnlinkTmp(name);
        return;
      }
      r, ending := Place(up, r.value, name, world, before, between, id);
    }

    /**
     * Stores the whole stream under its content key, unless it is there already, while other
     * requests take the steps `before` the check for the key and `between` that and the rename;
     * among them this is upload number `id`. `name` is a fresh random name. Whatever happens, no
     * temporary file is left and no other object changes.
     */
    method PutStream(up: Upload, name: string, world: State, before: seq<Event>, between: seq<Event>, id: nat)
      returns (r: Result<StoredObject>, ghost ending: Ending)
      requires name !in tmp && files == world.objects
      requires id !in world.pending && Foreign(before, id) && Foreign(between, id)
      modifies `files, `tmp, `faults
      ensures tmp == old(tmp) && Ends(files, up, world, before, between, id, r, ending)
      ensures old(faults) == [] ==> r.Ok? == Admit(codecs, up).Ok? && (r.Err? ==> r == Admit(codecs, up))
    {
      ending := Unseen;
      var created := Disk();
      if !created {
        Interfere(world, before);
        return Err(BackendFailure), ending;
      }
      tmp := tmp[name := []];
      r, ending := Fill(up, name, world, before, between, id);
    }

    /** The chunks a reader gets: the whole object in order, full chunks but for the last. */
    method Get(key: string) returns (r: Option<seq<Bytes>>)
      requires chunkSize > 0
      ensures r.Some? <==> key in files
      ensures r.Some? ==> Concat(r.value) == files[key]
      ensures r.Some? ==> forall i :: 0 <= i < |r.value| ==> 0 < |r.value[i]| <= chunkSize
                                                             && (i + 1 < |r.value| ==> |r.value[i]| == chunkSize)
    {
      if key !in files { return None; }
      var chunks: seq<Bytes> := [];
      var at := 0;
      while at < |files[key]|
        invariant 0 <= at <= |files[key]| && Concat(chunks) == files[key][..at]
        invariant forall i :: 0 <= i < |chunks| ==> 0 < |chunks[i]| <= chunkSize
        invariant forall i :: 0 <= i < |chunks| && at < |files[key]| ==> |chunks[i]| == chunkSize
        invariant forall i :: 0 <= i < |chunks| - 1 ==> |chunks[i]| == chunkSize
      {
        var end := if at + chunkSize <= |files[key]| then at + chunkSize else |files[key]|;
        var chunk := files[key][at..end];
        assert (chunks + [chunk])[..|chunks|] == chunks;
        assert files[key][..end] == files[key][..at] + chunk;
        chunks := chunks + [chunk];
        at := end;
      }
      assert files[key][..|files[key]|] == files[key];
      r := Some(chunks);
    }

    /** Removing an object; removing a missing one is no error. */
    method Delete(key: string)
      modifies `files
      ensures files == old(files) - {key}
    {
      files := files - {key};
    }
  }
}
