// The S3 backend: buffered upload that spills to a multipart upload under a staging key, while other
// requests publish and delete. Every call to the service may fail; the first failing call fixes what
// the upload answers and leaves.
module S3Storage {
  import opened Types
  import opened StorageBase
  import opened StoredContent
  import opened S3Calls

  const MIN_PART_SIZE := 5 * 1024 * 1024

  /** An open multipart upload: part number i + 1 is `parts[i]`. */
  datatype Multipart = Multipart(key: string, parts: seq<Bytes>)

  /** The service. `faults` says which calls fail, `calls` how many there have been. */
  class S3Client {
    const faults: nat -> bool
    var objects: map<string, Bytes>
    var open: map<nat, Multipart>
    var nextUpload: nat
    var calls: nat

    ghost predicate Valid()
      reads this
    {
      forall id :: id in open ==> id < nextUpload
    }

    constructor (faults: nat -> bool)
      ensures Valid() && objects == map[] && open == map[] && calls == 0 && this.faults == faults
    {
      this.faults, objects, open, nextUpload, calls := faults, map[], map[], 0, 0;
    }

    method Call() returns (ok: bool)
      modifies `calls
      ensures ok <==> !faults(old(calls))
      ensures calls == old(calls) + 1
    {
      ok := !faults(calls);
      calls := calls + 1;
    }

    method CreateMultipart(key: string) returns (id: Option<nat>)
      requires Valid()
      modifies this
      ensures Valid() && objects == old(objects) && calls == old(calls) + 1 && (id.Some? <==> !faults(old(calls)))
      ensures id.None? ==> open == old(open)
      ensures id.Some? ==> id.value !in old(open) && open == old(open)[id.value := Multipart(key, [])]
    {
      var ok := Call();
      if !ok { return None; }
      open := open[nextUpload := Multipart(key, [])];
      id := Some(nextUpload);
      nextUpload := nextUpload + 1;
    }

    method UploadPart(id: nat, partNumber: nat, body: Bytes) returns (ok: bool)
      requires Valid() && id in open && partNumber == |open[id].parts| + 1
      modifies this
      ensures Valid() && objects == old(objects) && calls == old(calls) + 1 && (ok <==> !faults(old(calls)))
      ensures open == if ok then old(open)[id := old(open)[id].(parts := old(open)[id].parts + [body])] else old(open)
    {
      ok := Call();
      if ok { open := open[id := open[id].(parts := open[id].parts + [body])]; }
    }

    /** The service accepts only lists of all parts in order, each but the last of the minimum size. */
    method CompleteMultipart(id: nat, listed: nat) returns (ok: bool)
      requires Valid() && id in open && 0 < listed == |open[id].parts|
      requires forall i :: 0 <= i < listed - 1 ==> |open[id].parts[i]| >= MIN_PART_SIZE
      modifies this
      ensures Valid() && calls == old(calls) + 1 && (ok <==> !faults(old(calls)))
      ensures open == if ok then old(open) - {id} else old(open)
      ensures objects == if ok then old(objects)[old(open)[id].key := Concat(old(open)[id].parts)] else old(objects)
    {
      ok := Call();
      if ok {
        objects := objects[open[id].key := Concat(open[id].parts)];
        open := open - {id};
      }
    }

    method AbortMultipart(id: nat) returns (ok: bool)
      requires Valid()
      modifies `open, `calls
      ensures Valid() && calls == old(calls) + 1 && (ok <==> !faults(old(calls)))
      ensures open == if ok then old(open) - {id} else old(open)
    {
      ok := Call();
      if ok { open := open - {id}; }
    }

    method PutObject(key: string, body: Bytes) returns (ok: bool)
      requires Valid()
      modifies `objects, `calls
      ensures Valid() && calls == old(calls) + 1 && (ok <==> !faults(old(calls)))
      ensures objects == if ok then old(objects)[key := body] else old(objects)
    {
      ok := Call();
      if ok { objects := objects[key := body]; }
    }

    method CopyObject(key: string, source: string) returns (ok: bool)
      requires Valid() && source in objects
      modifies `objects, `calls
      ensures Valid() && calls == old(calls) + 1 && (ok <==> !faults(old(calls)))
      ensures objects == if ok then old(objects)[key := old(objects)[source]] else old(objects)
    {
      ok := Call();
      if ok { objects := objects[key := objects[source]]; }
    }

    method DeleteObject(key: string) returns (ok: bool)
      requires Valid()
      modifies `objects, `calls
      ensures Valid() && calls == old(calls) + 1 && (ok <==> !faults(old(calls)))
      ensures objects == if ok then old(objects) - {key} else old(objects)
    {
      ok := Call();
      if ok { objects := objects - {key}; }
    }

    /** None when the call itself fails. */
    method HeadObject(key: string) returns (present: Option<bool>)
      modifies `calls
      ensures calls == old(calls) + 1 && (present.Some? <==> !faults(old(calls)))
      ensures present.Some? ==> present.value == (key in objects)
    {
      var ok := Call();
      present := if ok then Some(key in objects) else None;
    }
  }

  class Storage {
    const client: S3Client
    const codecs: Codecs
    const prefix: string
    const partSize: nat

    constructor (client: S3Client, codecs: Codecs, prefix: string, partSize: nat)
      requires partSize >= MIN_PART_SIZE
      ensures this.client == client && this.codecs == codecs && this.prefix == prefix && this.partSize == partSize
    {
      this.client, this.codecs, this.prefix, this.partSize := client, codecs, prefix, partSize;
    }

    // ----- the stream -----

    /**
     * The multipart upload of this request: none so far, or one with the parts sent. `others` are
     * the uploads that were open before.
     */
    ghost predicate Sent(others: map<nat, Multipart>, stagingKey: string, uploadId: Option<nat>, parts: seq<Bytes>)
      reads client
    {
      && client.Valid()
      && (uploadId.None? ==> client.open == others && parts == [])
      && (uploadId.Some? ==> uploadId.value !in others && client.open == others[uploadId.value := Multipart(stagingKey, parts)])
    }

    /** The calls made since number `from`; the last of them, if not `ok`, failed. */
    ghost predicate Made(from: nat, ran: seq<Step>, ok: bool)
      reads client
    {
      client.calls == from + |ran| + (if ok then 0 else 1) && Ran(client.faults, from, ran, ok)
    }

    /** Starts the multipart upload if necessary and sends one part. */
    method FlushPart(stagingKey: string, uploadId0: Option<nat>, partNumber0: nat, data: Bytes,
                     ghost others: map<nat, Multipart>, ghost parts: seq<Bytes>, ghost from: nat, ghost ran0: seq<Step>)
      returns (ok: bool, uploadId: Option<nat>, partNumber: nat, ghost ran: seq<Step>)
      requires Sent(others, stagingKey, uploadId0, parts) && partNumber0 == |parts| && data != []
      requires Made(from, ran0, true)
      modifies client
      ensures client.objects == old(client.objects) && Made(from, ran, ok)
      ensures ok ==> uploadId.Some? && partNumber == |parts| + 1 && Sent(others, stagingKey, uploadId, parts + [data])
                     && ran == ran0 + (if uploadId0.None? then [Create] else []) + [SendPart]
      ensures !ok ==> Sent(others, stagingKey, uploadId, parts)
                      && ran == ran0 + (if uploadId0.None? && uploadId.Some? then [Create] else [])
      ensures uploadId0.Some? ==> uploadId == uploadId0
    {
      uploadId, partNumber, ran := uploadId0, partNumber0, ran0;
      if uploadId.None? {
        uploadId := client.CreateMultipart(stagingKey);
        if uploadId.None? { return false, uploadId, partNumber, ran; }
        ran := ran + [Create];
      }
      partNumber := partNumber + 1;
      ok := client.UploadPart(uploadId.value, partNumber, data);
      if ok { ran := ran + [SendPart]; }
    }

    /** Every part but a last one that is still to be sent is exactly `partSize` long. */
    ghost predicate AllFull(parts: seq<Bytes>) {
      forall i :: 0 <= i < |parts| ==> |parts[i]| == partSize
    }

    /** Between two chunks: what was sent followed by the buffer is what was consumed. */
    ghost predicate Buffered(up: Upload, n: nat, buffer: Bytes, uploadId: Option<nat>, parts: seq<Bytes>)
      requires n <= |up.chunks|
    {
      && Concat(parts) + buffer == Concat(up.chunks[..n])
      && AllFull(parts)
      && (|parts|, |buffer|) == Spill(partSize, up.chunks[..n])
      && (uploadId.None? <==> parts == [])
      && (uploadId.None? ==> |buffer| <= partSize)
      && ((forall i :: 0 <= i < n ==> |up.chunks[i]| <= partSize) ==> |buffer| <= partSize)
    }

    /** What a chunk does to the buffer, and when a part is spilled. */
    lemma ChunkGathers(up: Upload, n: nat, buffer0: Bytes, uploadId0: Option<nat>, parts: seq<Bytes>, id: nat)
      requires n < |up.chunks| && partSize >= MIN_PART_SIZE && Buffered(up, n, buffer0, uploadId0, parts)
      ensures var buffer := buffer0 + up.chunks[n];
              if |buffer| > partSize || (uploadId0.Some? && |buffer| == partSize)
              then Buffered(up, n + 1, buffer[partSize..], Some(id), parts + [buffer[..partSize]])
              else Buffered(up, n + 1, buffer, uploadId0, parts)
    {
      var buffer := buffer0 + up.chunks[n];
      assert up.chunks[..n + 1][..n] == up.chunks[..n];
      assert Concat(parts) + buffer == Concat(up.chunks[..n + 1]);
      if |buffer| >= partSize {
        assert (parts + [buffer[..partSize]])[..|parts|] == parts;
        assert Concat(parts + [buffer[..partSize]]) + buffer[partSize..] == Concat(parts) + buffer;
      }
    }

    /** Adds a chunk to the buffer and sends one part if enough has gathered. */
    method BufferChunk(up: Upload, n: nat, stagingKey: string, buffer0: Bytes, uploadId0: Option<nat>, partNumber0: nat,
                       ghost others: map<nat, Multipart>, ghost parts0: seq<Bytes>, ghost from: nat)
      returns (ok: bool, buffer: Bytes, uploadId: Option<nat>, partNumber: nat, ghost parts: seq<Bytes>, ghost ran: seq<Step>)
      requires n < |up.chunks| && partSize >= MIN_PART_SIZE
      requires Buffered(up, n, buffer0, uploadId0, parts0) && Sent(others, stagingKey, uploadId0, parts0) && partNumber0 == |parts0|
      requires Made(from, Streamed(|parts0|), true)
      modifies client
      ensures client.objects == old(client.objects) && Sent(others, stagingKey, uploadId, parts)
      ensures Made(from, ran, ok) && (uploadId.Some? <==> Create in ran)
      ensures ok ==> Buffered(up, n + 1, buffer, uploadId, parts) && partNumber == |parts| && ran == Streamed(|parts|)
      ensures !ok ==> ran < Streamed(Spill(partSize, up.chunks[..n + 1]).0)
    {
      ok, uploadId, partNumber, parts, ran := true, uploadId0, partNumber0, parts0, Streamed(|parts0|);
      buffer := buffer0 + up.chunks[n];
      if (uploadId.None? && |buffer| > partSize) || (uploadId.Some? && |buffer| >= partSize) {
        var ready := buffer[..partSize];
        buffer := buffer[partSize..];
        ok, uploadId, partNumber, ran := FlushPart(stagingKey, uploadId, partNumber, ready, others, parts, from, ran);
        ChunkGathers(up, n, buffer0, uploadId0, parts, if uploadId.Some? then uploadId.value else 0);
        StreamedNext(|parts|, uploadId0.None? && uploadId.Some?);
        if ok { parts := parts + [ready]; }
      } else {
        ChunkGathers(up, n, buffer0, uploadId0, parts, 0);
      }
    }

    /** The stream was consumed, or its rejection or a failed call ended it. */
    ghost predicate Streaming(up: Upload, from: nat, error: Option<StorageError>, uploadId: Option<nat>, ran: seq<Step>)
      reads client
    {
      && Made(from, ran, error != Some(BackendFailure))
      && (uploadId.Some? <==> Create in ran)
      && (if error == Some(BackendFailure) then ran < Streamed(Spilling(codecs, partSize, up).0)
          else ran == Streamed(Spilling(codecs, partSize, up).0))
    }

    /** One chunk of the stream: sniffed, then buffered. */
    method TakeChunk(up: Upload, n: nat, stagingKey: string, size0: nat, head0: Bytes, mimeType0: Option<string>,
                     buffer0: Bytes, uploadId0: Option<nat>, partNumber0: nat,
                     ghost others: map<nat, Multipart>, ghost parts0: seq<Bytes>, ghost from: nat)
      returns (error: Option<StorageError>, size: nat, head: Bytes, mimeType: Option<string>, buffer: Bytes,
               uploadId: Option<nat>, partNumber: nat, ghost parts: seq<Bytes>, ghost ran: seq<Step>)
      requires n < |up.chunks| && partSize >= MIN_PART_SIZE
      requires Consume(codecs, up.filename, up.maxBytes, up.chunks[..n]).None?
      requires Sniffed(codecs, up, Concat(up.chunks[..n]), size0, head0, mimeType0)
      requires Buffered(up, n, buffer0, uploadId0, parts0) && Sent(others, stagingKey, uploadId0, parts0) && partNumber0 == |parts0|
      requires Made(from, Streamed(|parts0|), true)
      modifies client
      ensures client.objects == old(client.objects) && Sent(others, stagingKey, uploadId, parts)
      ensures error.Some? ==> error == Some(BackendFailure) || error == Consume(codecs, up.filename, up.maxBytes, up.chunks)
      ensures error.Some? ==> Streaming(up, from, error, uploadId, ran)
      ensures error.None? ==> Consume(codecs, up.filename, up.maxBytes, up.chunks[..n + 1]).None?
                              && Sniffed(codecs, up, Concat(up.chunks[..n + 1]), size, head, mimeType)
                              && Buffered(up, n + 1, buffer, uploadId, parts) && partNumber == |parts|
                              && Made(from, Streamed(|parts|), true)
    {
      buffer, uploadId, partNumber, parts, ran := buffer0, uploadId0, partNumber0, parts0, Streamed(|parts0|);
      error, size, head, mimeType := Sniff(codecs, up, n, size0, head0, mimeType0);
      if error.Some? {
        RejectionLasts(codecs, up, n + 1);
        AcceptedAtLeast(codecs, up.filename, up.maxBytes, up.chunks, n);
        return;
      }
      var ok;
      ok, buffer, uploadId, partNumber, parts, ran :=
        BufferChunk(up, n, stagingKey, buffer, uploadId, partNumber, others, parts, from);
      if !ok {
        error := Some(BackendFailure);
        FailsWithin(up, n + 1, ran);
      }
    }

    lemma FailsWithin(up: Upload, n: nat, ran: seq<Step>)
      requires n <= |up.chunks| && Consume(codecs, up.filename, up.maxBytes, up.chunks[..n]).None?
      requires ran < Streamed(Spill(partSize, up.chunks[..n]).0)
      ensures ran < Streamed(Spilling(codecs, partSize, up).0)
    {
      var all := up.chunks[..Accepted(codecs, up.filename, up.maxBytes, up.chunks)];
      AcceptedAtLeast(codecs, up.filename, up.maxBytes, up.chunks, n);
      assert all[..n] == up.chunks[..n];
      SpillGrows(partSize, all, n);
    }

    /** The loop over the stream: stops at the first rejection or failed call. */
    method ConsumeStream(up: Upload, stagingKey: string)
      returns (error: Option<StorageError>, size: nat, head: Bytes, mimeType: Option<string>, buffer: Bytes,
               uploadId: Option<nat>, partNumber: nat, ghost parts: seq<Bytes>, ghost ran: seq<Step>)
      requires client.Valid() && partSize >= MIN_PART_SIZE
      modifies client
      ensures client.objects == old(client.objects) && Sent(old(client.open), stagingKey, uploadId, parts)
      ensures error.Some? ==> error == Some(BackendFailure) || error == Consume(codecs, up.filename, up.maxBytes, up.chunks)
      ensures Streaming(up, old(client.calls), error, uploadId, ran)
      ensures error.None? ==> Consume(codecs, up.filename, up.maxBytes, up.chunks).None?
                              && Sniffed(codecs, up, Concat(up.chunks), size, head, mimeType)
                              && Buffered(up, |up.chunks|, buffer, uploadId, parts) && partNumber == |parts|
    {
      size, head, mimeType, buffer := 0, [], None, [];
      uploadId, partNumber, parts, error, ran := None, 0, [], None, [];
      ghost var others, from := client.open, client.calls;
      assert up.chunks[..0] == [];
      for n := 0 to |up.chunks|
        invariant client.objects == old(client.objects) && Sent(others, stagingKey, uploadId, parts)
        invariant Made(from, Streamed(|parts|), true)
        invariant Consume(codecs, up.filename, up.maxBytes, up.chunks[..n]).None?
        invariant Sniffed(codecs, up, Concat(up.chunks[..n]), size, head, mimeType)
        invariant Buffered(up, n, buffer, uploadId, parts) && partNumber == |parts|
        invariant error.None?
      {
        error, size, head, mimeType, buffer, uploadId, partNumber, parts, ran :=
          TakeChunk(up, n, stagingKey, size, head, mimeType, buffer, uploadId, partNumber, others, parts, from);
        if error.Some? {
          return;
        }
      }
      assert up.chunks[..|up.chunks|] == up.chunks;
      ran := Streamed(|parts|);
    }

    /** Cleaning up after an error or a duplicate: a failed abort is only logged. */
    method Abort(uploadId: Option<nat>, ghost others: map<nat, Multipart>, ghost stagingKey: string)
      requires Settled(others, stagingKey, uploadId)
      modifies client`open, client`calls
      ensures client.Valid()
      ensures client.open == others <==> uploadId.None? || !client.faults(old(client.calls))
    {
      if uploadId.Some? {
        var ok := client.AbortMultipart(uploadId.value);
      }
    }

    // ----- storing -----

    /** Every upload is closed but the one named, of which some parts were sent. */
    ghost predicate Settled(others: map<nat, Multipart>, stagingKey: string, uploadId: Option<nat>)
      reads client
    {
      && client.Valid()
      && (uploadId.None? ==> client.open == others)
      && (uploadId.Some? ==> uploadId.value !in others && uploadId.value in client.open && client.open - {uploadId.value} == others)
    }

    /** What the storing calls `ran` did to the objects: the staging object and the final one. */
    ghost predicate Placed(before: map<string, Bytes>, now: map<string, Bytes>, stagingKey: string, key: string,
                           data: Bytes, ran: seq<Step>) {
      && (stagingKey in now <==> Complete in ran && Remove !in ran)
      && (stagingKey in now ==> now[stagingKey] == data)
      && now - {stagingKey} == if Put in ran || Copy in ran then before[key := data] else before
    }

    /** The last part, if bytes are left for one. */
    method SendRest(stagingKey: string, buffer: Bytes, uploadId: nat, partNumber: nat,
                    ghost others: map<nat, Multipart>, ghost parts: seq<Bytes>)
      returns (ok: bool, listed: nat, ghost sent: seq<Bytes>, ghost ran: seq<Step>)
      requires parts != [] && partNumber == |parts| && Sent(others, stagingKey, Some(uploadId), parts)
      modifies client
      ensures client.objects == old(client.objects) && Sent(others, stagingKey, Some(uploadId), sent)
      ensures Made(old(client.calls), ran, ok)
      ensures ok ==> listed == |sent| && sent == parts + (if buffer == [] then [] else [buffer]) && Concat(sent) == Concat(parts) + buffer
      ensures ran == if ok && buffer != [] then [SendPart] else []
    {
      ok, listed, sent, ran := true, partNumber, parts, [];
      if buffer != [] {
        assert (parts + [buffer])[..|parts|] == parts;
        var unchangedId;
        ok, unchangedId, listed, ran := FlushPart(stagingKey, Some(uploadId), partNumber, buffer, others, parts, client.calls, ran);
        if ok { sent := parts + [buffer]; }
      }
    }

    /** The objects after the first `n` of completion, copy and removal. */
    ghost function Closed(objects: map<string, Bytes>, stagingKey: string, key: string, data: Bytes, n: nat): map<string, Bytes> {
      if n == 0 then objects
      else if n == 1 then objects[stagingKey := data]
      else if n == 2 then objects[stagingKey := data][key := data]
      else objects[stagingKey := data][key := data] - {stagingKey}
    }

    lemma ClosedIsPlaced(objects: map<string, Bytes>, stagingKey: string, key: string, data: Bytes, ran: seq<Step>, closing: seq<Step>)
      requires stagingKey !in objects && stagingKey != key && closing <= [Complete, Copy, Remove]
      requires forall step: Step :: step in ran <==> step in closing || (step == SendPart && SendPart in ran)
      ensures Placed(objects, Closed(objects, stagingKey, key, data, |closing|), stagingKey, key, data, ran)
    {
      var now := Closed(objects, stagingKey, key, data, |closing|);
      assert |closing| >= 1 ==> closing[0] == Complete;
      assert |closing| >= 2 ==> closing[1] == Copy;
      assert |closing| == 3 ==> closing[2] == Remove;
      assert Complete in closing <==> |closing| >= 1;
      assert Copy in closing <==> |closing| >= 2;
      assert Remove in closing <==> |closing| == 3;
      assert now - {stagingKey} == if |closing| >= 2 then objects[key := data] else objects;
    }

    lemma Forgotten(others: map<nat, Multipart>, id: nat, m: Multipart)
      requires id !in others
      ensures others[id := m] - {id} == others
    {
    }

    /** Completion, copy to the final key and removal of the staging object: `ran` of these three succeed. */
    method MoveIntoPlace(stagingKey: string, key: string, uploadId: nat, listed: nat,
                         ghost others: map<nat, Multipart>, ghost sent: seq<Bytes>)
      returns (ok: bool, completed: bool, ghost ran: seq<Step>)
      requires Sent(others, stagingKey, Some(uploadId), sent) && 0 < listed == |sent|
      requires forall i :: 0 <= i < listed - 1 ==> |sent[i]| >= MIN_PART_SIZE
      requires stagingKey !in client.objects && stagingKey != key
      modifies client
      ensures client.Valid() && Made(old(client.calls), ran, ok)
      ensures |ran| <= 3 && ran == [Complete, Copy, Remove][..|ran|] && (ok <==> |ran| == 3)
      ensures client.open == (if completed then old(client.open) - {uploadId} else old(client.open)) && (completed <==> Complete in ran)
      ensures client.objects == Closed(old(client.objects), stagingKey, key, Concat(sent), |ran|)
    {
      ran := [];
      ok := client.CompleteMultipart(uploadId, listed);
      completed := ok;
      if !ok { return; }
      ran := [Complete];
      ok := client.CopyObject(key, stagingKey);
      if !ok { return; }
      ran := [Complete, Copy];
      ok := client.DeleteObject(stagingKey);
      if ok { ran := [Complete, Copy, Remove]; }
    }

    /** From the open multipart upload to the object under its final key. */
    method FinishMultipart(stagingKey: string, key: string, buffer: Bytes, uploadId0: nat, partNumber: nat,
                           ghost others: map<nat, Multipart>, ghost parts: seq<Bytes>)
      returns (ok: bool, uploadId: Option<nat>, ghost ran: seq<Step>)
      requires partSize >= MIN_PART_SIZE && AllFull(parts) && parts != [] && partNumber == |parts|
      requires Sent(others, stagingKey, Some(uploadId0), parts)
      requires stagingKey !in client.objects && stagingKey != key
      modifies client
      ensures Settled(others, stagingKey, uploadId) && (uploadId.None? <==> Complete in ran)
      ensures Made(old(client.calls), ran, ok) && ran <= Storing((|parts|, |buffer|)) && (ok <==> ran == Storing((|parts|, |buffer|)))
      ensures Placed(old(client.objects), client.objects, stagingKey, key, Concat(parts) + buffer, ran)
    {
      uploadId := Some(uploadId0);
      var listed;
      ghost var sent, closing;
      ok, listed, sent, ran := SendRest(stagingKey, buffer, uploadId0, partNumber, others, parts);
      Forgotten(others, uploadId0, Multipart(stagingKey, sent));
      if !ok {
        ClosedIsPlaced(old(client.objects), stagingKey, key, Concat(parts) + buffer, ran, []);
        return;
      }
      ghost var middle := client.calls;
      var completed;
      ok, completed, closing := MoveIntoPlace(stagingKey, key, uploadId0, listed, others, sent);
      if completed { uploadId := None; }
      ClosingSteps((|parts|, |buffer|), closing);
      RanConcat(client.faults, old(client.calls), middle, ran, closing, ok);
      ran := ran + closing;
      ClosedIsPlaced(old(client.objects), stagingKey, key, Concat(sent), ran, closing);
    }

    /** Where the bytes of an admitted upload go: its content key, which the service sees with the prefix. */
    ghost function FinalKey(up: Upload): string {
      if Admit(codecs, up).Ok? then Admit(codecs, up).value.key else ""
    }

    /** Everything up to the decision where the bytes belong. */
    method Receive(up: Upload, stagingKey: string)
      returns (r: Result<StoredObject>, buffer: Bytes, uploadId: Option<nat>, partNumber: nat,
               ghost parts: seq<Bytes>, ghost ran: seq<Step>)
      requires client.Valid() && partSize >= MIN_PART_SIZE
      modifies client
      ensures client.objects == old(client.objects) && Sent(old(client.open), stagingKey, uploadId, parts)
      ensures Streaming(up, old(client.calls), if r == Err(BackendFailure) then Some(BackendFailure) else None, uploadId, ran)
      ensures r != Err(BackendFailure) ==> r == Admit(codecs, up)
      ensures r.Ok? ==> Buffered(up, |up.chunks|, buffer, uploadId, parts) && partNumber == |parts|
                        && (|parts|, |buffer|) == Spilling(codecs, partSize, up)
    {
      var error, size, head, mimeType;
      error, size, head, mimeType, buffer, uploadId, partNumber, parts, ran := ConsumeStream(up, stagingKey);
      if error.Some? { return Err(error.value), buffer, uploadId, partNumber, parts, ran; }
      if up.broken { return Err(Disconnected), buffer, uploadId, partNumber, parts, ran; }
      r := Describe(codecs, up, size, head, mimeType);
      assert up.chunks[..|up.chunks|] == up.chunks;
    }

    // ----- other requests -----

    /** Keys of the service that are content keys behind the prefix. */
    predicate Inner(key: string) {
      prefix <= key && codecs.validKey(key[|prefix|..])
    }

    /** The stored objects, seen without the prefix. */
    ghost predicate Shows(objects: map<string, Bytes>, logical: map<string, Bytes>) {
      forall key {:trigger codecs.validKey(key)} :: codecs.validKey(key) ==>
        && (prefix + key in objects <==> key in logical)
        && (key in logical ==> objects[prefix + key] == logical[key])
    }

    /** Whatever is neither a stored object nor the staging object stays as it was. */
    ghost predicate SameElsewhere(before: map<string, Bytes>, now: map<string, Bytes>, stagingKey: string) {
      SameOutside(before - {stagingKey}, now - {stagingKey})
    }

    ghost predicate SameOutside(before: map<string, Bytes>, now: map<string, Bytes>) {
      forall key :: !Inner(key) ==> (key in now <==> key in before) && (key in now ==> now[key] == before[key])
    }

    lemma PrefixedKeys(key: string, other: string)
      ensures (prefix + key)[|prefix|..] == key
      ensures prefix + key == prefix + other ==> key == other
    {
      assert (prefix + key)[|prefix|..] == key && (prefix + other)[|prefix|..] == other;
    }

    /** One object of the service is set or removed. */
    lemma ShowsUpdate(objects: map<string, Bytes>, logical: map<string, Bytes>, key: string, data: Bytes)
      requires Shows(objects, logical)
      ensures codecs.validKey(key) ==> Inner(prefix + key)
      ensures codecs.validKey(key) ==> Shows(objects[prefix + key := data], logical[key := data])
      ensures codecs.validKey(key) ==> Shows(objects - {prefix + key}, logical - {key})
      ensures !codecs.validKey(key) ==> Shows(objects, logical[key := data]) && Shows(objects, logical - {key})
    {
      PrefixedKeys(key, key);
      forall other | codecs.validKey(other)
        ensures prefix + other == prefix + key ==> other == key
      {
        PrefixedKeys(other, key);
      }
    }

    /** What storing shows: the object under its key, or nothing new. The staging object is not shown. */
    lemma ShowsPlaced(objects: map<string, Bytes>, now: map<string, Bytes>, logical: map<string, Bytes>,
                      stagingKey: string, key: string, data: Bytes, ran: seq<Step>)
      requires Shows(objects, logical) && codecs.validKey(key) && stagingKey !in objects && !Inner(stagingKey)
      requires Placed(objects, now, stagingKey, prefix + key, data, ran)
      ensures Shows(now, if Put in ran || Copy in ran then logical[key := data] else logical)
      ensures SameElsewhere(objects, now, stagingKey)
    {
      ShowsUpdate(objects, logical, key, data);
      var stored := now - {stagingKey};
      assert Shows(stored, if Put in ran || Copy in ran then logical[key := data] else logical);
      assert objects - {stagingKey} == objects;
      forall other | codecs.validKey(other)
        ensures prefix + other != stagingKey
      {
        PrefixedKeys(other, other);
        assert Inner(prefix + other);
      }
    }

    /** The service while another request takes a step. */
    method Elsewise(s: State, ev: Event)
      requires Shows(client.objects, s.objects)
      modifies client`objects
      ensures Shows(client.objects, Apply(codecs, s, ev).objects)
      ensures SameOutside(old(client.objects), client.objects)
    {
      match ev
      case Publish(other) =>
        if other in s.pending && s.pending[other].Missing? {
          var key, data := s.pending[other].key, s.pending[other].data;
          ShowsUpdate(client.objects, s.objects, key, data);
          if codecs.validKey(key) { client.objects := client.objects[prefix + key := data]; }
        }
      case Delete(key) =>
        ShowsUpdate(client.objects, s.objects, key, []);
        if codecs.validKey(key) { client.objects := client.objects - {prefix + key}; }
      case _ =>
    }

    /** The service while other requests publish and delete. */
    method Interfere(world: State, evs: seq<Event>)
      requires Shows(client.objects, world.objects)
      modifies client`objects
      ensures Shows(client.objects, Run(codecs, world, evs).objects)
      ensures SameOutside(old(client.objects), client.objects)
    {
      var s := world;
      for i := 0 to |evs|
        invariant s == Run(codecs, world, evs[..i]) && Shows(client.objects, s.objects)
        invariant SameOutside(old(client.objects), client.objects)
      {
        assert evs[..i + 1] == evs[..i] + [evs[i]];
        RunSnoc(codecs, world, evs[..i], evs[i]);
        Elsewise(s, evs[i]);
        s := Apply(codecs, s, evs[i]);
      }
      assert evs[..|evs|] == evs;
    }

    // ----- the whole upload -----

    /** Storing under the final key, by a single put or from the finished multipart upload. */
    method Store(up: Upload, stagingKey: string, key: string, buffer: Bytes, uploadId0: Option<nat>, partNumber: nat,
                 ghost others: map<nat, Multipart>, ghost parts: seq<Bytes>)
      returns (ok: bool, uploadId: Option<nat>, ghost ran: seq<Step>)
      requires partSize >= MIN_PART_SIZE && partNumber == |parts|
      requires Buffered(up, |up.chunks|, buffer, uploadId0, parts) && Sent(others, stagingKey, uploadId0, parts)
      requires stagingKey !in client.objects && stagingKey != key
      modifies client
      ensures Settled(others, stagingKey, uploadId) && (uploadId.Some? <==> uploadId0.Some? && Complete !in ran)
      ensures Made(old(client.calls), ran, ok) && ran <= Storing((|parts|, |buffer|)) && (ok <==> ran == Storing((|parts|, |buffer|)))
      ensures Placed(old(client.objects), client.objects, stagingKey, key, Concat(up.chunks), ran)
    {
      assert up.chunks[..|up.chunks|] == up.chunks;
      if uploadId0.None? {
        assert parts == [] && Concat(up.chunks) == [] + buffer == buffer;
        uploadId, ran := uploadId0, [];
        ok := client.PutObject(key, buffer);
        if ok { ran := [Put]; }
      } else {
        ok, uploadId, ran := FinishMultipart(stagingKey, key, buffer, uploadId0.value, partNumber, others, parts);
      }
    }

    /** Storing under a free key while other requests take the steps `between`. */
    method StoreAmongOthers(up: Upload, stagingKey: string, key: string, buffer: Bytes, uploadId0: Option<nat>, partNumber: nat,
                            s: State, between: seq<Event>, ghost others: map<nat, Multipart>, ghost parts: seq<Bytes>)
      returns (ok: bool, uploadId: Option<nat>, ghost ran: seq<Step>)
      requires partSize >= MIN_PART_SIZE && partNumber == |parts|
      requires Buffered(up, |up.chunks|, buffer, uploadId0, parts) && Sent(others, stagingKey, uploadId0, parts)
      requires stagingKey !in client.objects && !Inner(stagingKey) && codecs.validKey(key) && Shows(client.objects, s.objects)
      modifies client
      ensures Settled(others, stagingKey, uploadId) && (uploadId.Some? <==> uploadId0.Some? && Complete !in ran)
      ensures Made(old(client.calls), ran, ok) && ran <= Storing((|parts|, |buffer|)) && (ok <==> ran == Storing((|parts|, |buffer|)))
      ensures var logical := Run(codecs, s, between).objects;
              Shows(client.objects, if Put in ran || Copy in ran then logical[key := Concat(up.chunks)] else logical)
      ensures Staged(client.objects, stagingKey, up, ran) && SameElsewhere(old(client.objects), client.objects, stagingKey)
    {
      Interfere(s, between);
      ghost var shown := client.objects;
      ShowsUpdate(shown, Run(codecs, s, between).objects, key, []);
      ok, uploadId, ran := Store(up, stagingKey, prefix + key, buffer, uploadId0, partNumber, others, parts);
      ShowsPlaced(shown, client.objects, Run(codecs, s, between).objects, stagingKey, key, Concat(up.chunks), ran);
    }

    /** Storing once the key was found free. */
    method PlaceFree(up: Upload, stagingKey: string, key: string, buffer: Bytes, uploadId0: Option<nat>, partNumber: nat,
                     world: State, before: seq<Event>, between: seq<Event>, id: nat,
                     ghost others: map<nat, Multipart>, ghost parts: seq<Bytes>, ghost from: nat)
      returns (ok: bool, uploadId: Option<nat>, ghost ran: seq<Step>)
      requires partSize >= MIN_PART_SIZE && partNumber == |parts|
      requires Buffered(up, |up.chunks|, buffer, uploadId0, parts) && Sent(others, stagingKey, uploadId0, parts)
      requires stagingKey !in client.objects && !Inner(stagingKey) && Admit(codecs, up).Ok? && key == FinalKey(up)
      requires id !in world.pending && Foreign(before, id) && Foreign(between, id)
      requires Shows(client.objects, Run(codecs, world, before).objects) && key !in Run(codecs, world, before).objects
      requires Made(from, [LookUp], true)
      modifies client
      ensures Settled(others, stagingKey, uploadId) && (uploadId.Some? <==> uploadId0.Some? && Complete !in ran)
      ensures Made(from, ran, ok)
      ensures Complies(up, world, before, between, id, ok, ran, Storing((|parts|, |buffer|)), client.objects)
      ensures Staged(client.objects, stagingKey, up, ran) && SameElsewhere(old(client.objects), client.objects, stagingKey)
    {
      ChecksOnce(codecs, world, id, up, before);
      ghost var storing;
      ok, uploadId, storing := StoreAmongOthers(up, stagingKey, key, buffer, uploadId0, partNumber,
                                                Run(codecs, world, Checked(id, up, before)), between, others, parts);
      StoredComplies(up, world, before, between, id, ok, storing, (|parts|, |buffer|), client.objects);
      RanFirst(client.faults, from, LookUp, storing, ok);
      ran := [LookUp] + storing;
    }

    /** `head_object` of the final key: it tells what the others see, or fails. */
    method IsStored(key: string, ghost logical: map<string, Bytes>) returns (present: Option<bool>)
      requires codecs.validKey(key) && Shows(client.objects, logical)
      modifies client`calls
      ensures present.Some? ==> (present.value <==> key in logical)
      ensures Made(old(client.calls), if present.Some? then [LookUp] else [], present.Some?)
    {
      present := client.HeadObject(prefix + key);
    }

    lemma SentSettles(others: map<nat, Multipart>, stagingKey: string, uploadId: Option<nat>, parts: seq<Bytes>)
      requires Sent(others, stagingKey, uploadId, parts)
      ensures Settled(others, stagingKey, uploadId)
    {
      if uploadId.Some? { assert client.open - {uploadId.value} == others; }
    }

    /** The look-up of the key, and storing if it is free. */
    method Place(up: Upload, stagingKey: string, key: string, buffer: Bytes, uploadId0: Option<nat>, partNumber: nat,
                 world: State, before: seq<Event>, between: seq<Event>, id: nat,
                 ghost others: map<nat, Multipart>, ghost parts: seq<Bytes>)
      returns (ok: bool, deduplicated: bool, uploadId: Option<nat>, ghost ran: seq<Step>)
      requires partSize >= MIN_PART_SIZE && partNumber == |parts|
      requires Buffered(up, |up.chunks|, buffer, uploadId0, parts) && Sent(others, stagingKey, uploadId0, parts)
      requires stagingKey !in client.objects && !Inner(stagingKey) && Admit(codecs, up).Ok? && key == FinalKey(up)
      requires id !in world.pending && Foreign(before, id) && Foreign(between, id)
      requires Shows(client.objects, Run(codecs, world, before).objects)
      modifies client
      ensures Settled(others, stagingKey, uploadId) && (uploadId.Some? <==> uploadId0.Some? && Complete !in ran)
      ensures Made(old(client.calls), ran, ok) && (ok ==> (deduplicated <==> key in Run(codecs, world, before).objects))
      ensures Complies(up, world, before, between, id, ok, ran, Storing((|parts|, |buffer|)), client.objects)
      ensures Staged(client.objects, stagingKey, up, ran) && SameElsewhere(old(client.objects), client.objects, stagingKey)
    {
      var present := IsStored(key, Run(codecs, world, before).objects);
      deduplicated := present == Some(true);
      if present == Some(false) {
        ok, uploadId, ran := PlaceFree(up, stagingKey, key, buffer, uploadId0, partNumber, world, before, between, id,
                                       others, parts, old(client.calls));
      } else {
        ok, uploadId, ran := deduplicated, uploadId0, if deduplicated then [LookUp] else [];
        SentSettles(others, stagingKey, uploadId, parts);
        LookupComplies(up, world, before, between, id, ok, Storing((|parts|, |buffer|)), client.objects);
      }
    }

    /** The calls from the look-up on, and the objects as one upload among others leaves them. */
    ghost predicate Complies(up: Upload, world: State, before: seq<Event>, between: seq<Event>, id: nat,
                             ok: bool, ran: seq<Step>, storing: seq<Step>, objects: map<string, Bytes>) {
      var free := FinalKey(up) !in Run(codecs, world, before).objects;
      var script := [LookUp] + if free then storing else [];
      && ran <= script && (ok <==> ran == script)
      && Shows(objects, Run(codecs, world, Events(id, up, before, between, EndingOf(ran, free))).objects)
    }

    lemma LookupComplies(up: Upload, world: State, before: seq<Event>, between: seq<Event>, id: nat,
                         ok: bool, storing: seq<Step>, objects: map<string, Bytes>)
      requires id !in world.pending && Foreign(before, id) && Admit(codecs, up).Ok?
      requires Shows(objects, Run(codecs, world, before).objects) && (ok ==> FinalKey(up) in Run(codecs, world, before).objects)
      ensures Complies(up, world, before, between, id, ok, if ok then [LookUp] else [], storing, objects)
    {
      ChecksOnce(codecs, world, id, up, before);
    }

    lemma StoredComplies(up: Upload, world: State, before: seq<Event>, between: seq<Event>, id: nat,
                         ok: bool, storing: seq<Step>, spill: (nat, nat), objects: map<string, Bytes>)
      requires id !in world.pending && Foreign(before, id) && Foreign(between, id) && Admit(codecs, up).Ok?
      requires FinalKey(up) !in Run(codecs, world, before).objects
      requires storing <= Storing(spill) && (ok <==> storing == Storing(spill))
      requires var logical := Run(codecs, Run(codecs, world, Checked(id, up, before)), between).objects;
               Shows(objects, if Put in storing || Copy in storing then logical[FinalKey(up) := Concat(up.chunks)] else logical)
      ensures Complies(up, world, before, between, id, ok, [LookUp] + storing, Storing(spill), objects)
      ensures forall step: Step :: step in [LookUp] + storing <==> step == LookUp || step in storing
    {
      PublishesOrCancels(codecs, world, id, up, before, between);
      LookUpFirst(spill, storing);
    }

    lemma CompliesThenOutcome(up: Upload, world: State, before: seq<Event>, between: seq<Event>, id: nat,
                              ok: bool, rest: seq<Step>, objects: map<string, Bytes>)
      requires var spill := Spilling(codecs, partSize, up);
               Admit(codecs, up).Ok? && Complies(up, world, before, between, id, ok, rest, Storing(spill), objects)
      ensures var r := if ok then Ok(Admit(codecs, up).value.(deduplicated := FinalKey(up) in Run(codecs, world, before).objects))
                       else Err(BackendFailure);
              Outcome(up, world, before, between, id, r, Streamed(Spilling(codecs, partSize, up).0) + rest, objects)
    {
      Seen(codecs, partSize, up, FinalKey(up) !in Run(codecs, world, before).objects, rest);
    }

    /** What the failing call leaves: see `WhatAFailureLeaves`. */
    ghost predicate Staged(objects: map<string, Bytes>, stagingKey: string, up: Upload, ran: seq<Step>) {
      && (stagingKey in objects <==> Complete in ran && Remove !in ran)
      && (stagingKey in objects ==> objects[stagingKey] == Concat(up.chunks))
    }

    /** Receiving and placing, without the final clean-up. */
    method Attempt(up: Upload, stagingKey: string, world: State, before: seq<Event>, between: seq<Event>, id: nat)
      returns (r: Result<StoredObject>, uploadId: Option<nat>, ghost ran: seq<Step>)
      requires client.Valid() && partSize >= MIN_PART_SIZE
      requires stagingKey !in client.objects && !Inner(stagingKey)
      requires Shows(client.objects, world.objects) && id !in world.pending && Foreign(before, id) && Foreign(between, id)
      modifies client
      ensures Settled(old(client.open), stagingKey, uploadId) && (uploadId.Some? <==> Create in ran && Complete !in ran)
      ensures Made(old(client.calls), ran, r != Err(BackendFailure))
      ensures Outcome(up, world, before, between, id, r, ran, client.objects)
      ensures Staged(client.objects, stagingKey, up, ran) && SameElsewhere(old(client.objects), client.objects, stagingKey)
    {
      var buffer, partNumber;
      ghost var parts, storing;
      ghost var free := FinalKey(up) !in Run(codecs, world, before).objects;
      r, buffer, uploadId, partNumber, parts, ran := Receive(up, stagingKey);
      Interfere(world, before);
      if r.Err? {
        NotSeen(codecs, partSize, up, free, ran);
        return;
      }
      var ok, deduplicated;
      ghost var streamed := client.calls;
      ok, deduplicated, uploadId, storing := Place(up, stagingKey, r.value.key, buffer, uploadId, partNumber,
                                                   world, before, between, id, old(client.open), parts);
      Seen(codecs, partSize, up, free, storing);
      CompliesThenOutcome(up, world, before, between, id, ok, storing, client.objects);
      RanConcat(client.faults, old(client.calls), streamed, ran, storing, ok);
      ran := ran + storing;
      r := if ok then Ok(r.value.(deduplicated := deduplicated)) else Err(BackendFailure);
    }

    /** What an upload that made the calls `ran` answers, and the objects it leaves for the others to see. */
    ghost predicate Outcome(up: Upload, world: State, before: seq<Event>, between: seq<Event>, id: nat,
                            r: Result<StoredObject>, ran: seq<Step>, objects: map<string, Bytes>) {
      var free := FinalKey(up) !in Run(codecs, world, before).objects;
      var script := Script(codecs, partSize, up, free);
      && ran <= script
      && r == (if ran != script then Err(BackendFailure)
               else if Admit(codecs, up).Ok? then Ok(Admit(codecs, up).value.(deduplicated := !free))
               else Admit(codecs, up))
      && Shows(objects, Run(codecs, world, Events(id, up, before, between, EndingOf(ran, free))).objects)
    }

    /** No multipart upload is open after these calls, or the call that aborts it, the next one, does not fail. */
    ghost predicate Closes(from: nat, ran: seq<Step>, ok: bool) {
      Create !in ran || Complete in ran || !client.faults(from + |ran| + if ok then 0 else 1)
    }

    /** Giving up what is still open. */
    method CleanUp(uploadId: Option<nat>, ghost stagingKey: string, ghost ran: seq<Step>, ghost ok: bool,
                   ghost from: nat, ghost others: map<nat, Multipart>)
      requires Settled(others, stagingKey, uploadId) && (uploadId.Some? <==> Create in ran && Complete !in ran)
      requires Made(from, ran, ok)
      modifies client`open, client`calls
      ensures client.Valid()
      ensures client.open == others <==> Closes(from, ran, ok)
    {
      Abort(uploadId, others, stagingKey);
    }

    /**
     * Stores the whole stream under its content key, unless it is there already, while other
     * requests take the steps `before` the key is looked up and `between` that and the end; among
     * them this is upload number `id`. `stagingKey` is a fresh random key that is no content key.
     * The calls made are all of the script, or those before the first that fails; they fix the
     * answer, the objects, the staging object and whether a multipart upload stays open.
     */
    method PutStream(up: Upload, stagingKey: string, world: State, before: seq<Event>, between: seq<Event>, id: nat)
      returns (r: Result<StoredObject>, ghost ran: seq<Step>)
      requires client.Valid() && partSize >= MIN_PART_SIZE
      requires stagingKey !in client.objects && !Inner(stagingKey)
      requires Shows(client.objects, world.objects) && id !in world.pending && Foreign(before, id) && Foreign(between, id)
      modifies client
      ensures client.Valid() && Ran(client.faults, old(client.calls), ran, r != Err(BackendFailure))
      ensures Outcome(up, world, before, between, id, r, ran, client.objects)
      ensures Staged(client.objects, stagingKey, up, ran) && SameElsewhere(old(client.objects), client.objects, stagingKey)
      ensures client.open == old(client.open) <==> Closes(old(client.calls), ran, r != Err(BackendFailure))
    {
      var uploadId;
      r, uploadId, ran := Attempt(up, stagingKey, world, before, between, id);
      CleanUp(uploadId, stagingKey, ran, r != Err(BackendFailure), old(client.calls), old(client.open));
    }
  }
}
