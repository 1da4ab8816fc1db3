// What both storage backends promise about an upload, as a function of the streamed bytes.
module StorageBase {
  import opened Types

  type Bytes = seq<bv8>

  const HEAD_BYTES := 8192

  datatype StorageError = UploadTooLarge | UnsupportedMime | InvalidKey | Disconnected | BackendFailure

  datatype Result<+T> = Ok(value: T) | Err(error: StorageError)

  datatype StoredObject = StoredObject(
    key: string, filename: string, contentHash: string, mimeType: string, sizeBytes: nat, deduplicated: bool)

  /** Hashing, MIME detection (None: not accepted), extensions and the key pattern. */
  datatype Codecs = Codecs(
    sha256: Bytes -> string,
    detectMime: (Bytes, string) -> Option<string>,
    extensionFor: string -> string,
    validKey: string -> bool)

  /** A request: the chunks as they arrive, and whether the client disconnects after the last one. */
  datatype Upload = Upload(user: string, filename: string, maxBytes: nat, chunks: seq<Bytes>, broken: bool)

  function KeyFor(user: string, hash: string, extension: string): string {
    user + "/" + (if |hash| < 2 then hash else hash[..2]) + "/" + hash + extension
  }

  function Concat(chunks: seq<Bytes>): Bytes {
    if chunks == [] then [] else Concat(chunks[..|chunks| - 1]) + chunks[|chunks| - 1]
  }

  function Head(data: Bytes): Bytes {
    if |data| <= HEAD_BYTES then data else data[..HEAD_BYTES]
  }

  // ----- the consuming loop shared by the backends -----

  /** The error that consuming the chunks raises, if any: size first, then the type once the head is full. */
  function Consume(c: Codecs, filename: string, maxBytes: nat, chunks: seq<Bytes>): (error: Option<StorageError>)
    ensures error.Some? ==> error.value == UploadTooLarge || error.value == UnsupportedMime
  {
    if chunks == [] then None
    else
      var before := chunks[..|chunks| - 1];
      if Consume(c, filename, maxBytes, before).Some? then Consume(c, filename, maxBytes, before)
      else Reject(c, filename, maxBytes, Concat(before), Concat(chunks))
  }

  function Reject(c: Codecs, filename: string, maxBytes: nat, before: Bytes, after: Bytes): Option<StorageError> {
    if |after| > maxBytes then Some(UploadTooLarge)
    else if |before| < HEAD_BYTES <= |after| && c.detectMime(Head(after), filename).None? then Some(UnsupportedMime)
    else None
  }

  /** What a backend without failures answers, apart from the deduplication flag. */
  function Admit(c: Codecs, up: Upload): Result<StoredObject> {
    var data := Concat(up.chunks);
    var error := Consume(c, up.filename, up.maxBytes, up.chunks);
    if error.Some? then Err(error.value)
    else if up.broken then Err(Disconnected)
    else
      match c.detectMime(Head(data), up.filename)
      case None => Err(UnsupportedMime)
      case Some(mime) =>
        var hash := c.sha256(data);
        var key := KeyFor(up.user, hash, c.extensionFor(mime));
        if !c.validKey(key) then Err(InvalidKey)
        else Ok(StoredObject(key, up.filename, hash, mime, |data|, false))
  }

  /** The backend's answer: the logical one, or a failure of the disk or the service. */
  ghost predicate Answers(c: Codecs, up: Upload, r: Result<StoredObject>, deduplicated: bool) {
    var logical := Admit(c, up);
    if r.Ok? then logical.Ok? && r.value == logical.value.(deduplicated := deduplicated)
    else r == logical || r.error == BackendFailure
  }

  /** Head buffer, detected type and counters after `data`, of which nothing was rejected. */
  ghost predicate Sniffed(c: Codecs, up: Upload, data: Bytes, size: nat, head: Bytes, mimeType: Option<string>) {
    && size == |data| && head == Head(data)
    && mimeType == (if |data| >= HEAD_BYTES then c.detectMime(Head(data), up.filename) else None)
    && (mimeType.Some? <==> |data| >= HEAD_BYTES)
  }

  /** Counting, hashing and type detection of one chunk. */
  method Sniff(c: Codecs, up: Upload, n: nat, size0: nat, head0: Bytes, mimeType0: Option<string>)
    returns (error: Option<StorageError>, size: nat, head: Bytes, mimeType: Option<string>)
    requires n < |up.chunks| && Consume(c, up.filename, up.maxBytes, up.chunks[..n]).None?
    requires Sniffed(c, up, Concat(up.chunks[..n]), size0, head0, mimeType0)
    ensures error == Consume(c, up.filename, up.maxBytes, up.chunks[..n + 1])
    ensures error.None? ==> Sniffed(c, up, Concat(up.chunks[..n + 1]), size, head, mimeType)
  {
    var chunk := up.chunks[n];
    assert up.chunks[..n + 1][..n] == up.chunks[..n];
    ghost var before, after := Concat(up.chunks[..n]), Concat(up.chunks[..n + 1]);
    assert after == before + chunk;
    assert Consume(c, up.filename, up.maxBytes, up.chunks[..n + 1]) == Reject(c, up.filename, up.maxBytes, before, after);
    assert |before| >= HEAD_BYTES ==> Head(after) == Head(before);
    size, head, mimeType := size0 + |chunk|, head0, mimeType0;
    if size > up.maxBytes {
      return Some(UploadTooLarge), size, head, mimeType;
    }
    if |head| < HEAD_BYTES {
      head := head + if |chunk| <= HEAD_BYTES - |head| then chunk else chunk[..HEAD_BYTES - |head|];
      assert head == Head(after);
      if |head| >= HEAD_BYTES {
        mimeType := c.detectMime(head, up.filename);
        if mimeType.None? {
          return Some(UnsupportedMime), size, head, mimeType;
        }
      }
    }
    error := None;
  }

  /** Type of a short stream, content hash and key, once the whole stream has been read. */
  method Describe(c: Codecs, up: Upload, size: nat, head: Bytes, mimeType0: Option<string>) returns (r: Result<StoredObject>)
    requires !up.broken && Consume(c, up.filename, up.maxBytes, up.chunks).None?
    requires Sniffed(c, up, Concat(up.chunks), size, head, mimeType0)
    ensures r == Admit(c, up)
  {
    var mimeType := mimeType0;
    if mimeType.None? {
      mimeType := c.detectMime(head, up.filename);
      if mimeType.None? { return Err(UnsupportedMime); }
    }
    var hash := c.sha256(Concat(up.chunks));
    var key := KeyFor(up.user, hash, c.extensionFor(mimeType.value));
    if !c.validKey(key) { return Err(InvalidKey); }
    r := Ok(StoredObject(key, up.filename, hash, mimeType.value, size, false));
  }

  /** Once rejected, a stream stays rejected for the same reason. */
  lemma {:induction false} RejectionLasts(c: Codecs, up: Upload, n: nat)
    requires n <= |up.chunks| && Consume(c, up.filename, up.maxBytes, up.chunks[..n]).Some?
    ensures Consume(c, up.filename, up.maxBytes, up.chunks) == Consume(c, up.filename, up.maxBytes, up.chunks[..n])
    decreases |up.chunks| - n
  {
    if n < |up.chunks| {
      assert up.chunks[..n + 1][..n] == up.chunks[..n];
      RejectionLasts(c, up, n + 1);
    } else {
      assert up.chunks[..n] == up.chunks;
    }
  }

  // ----- independence of the chunking -----

  lemma {:induction false} ConcatGrows(chunks: seq<Bytes>, n: nat)
    requires n <= |chunks|
    ensures |Concat(chunks[..n])| <= |Concat(chunks)| && Concat(chunks[..n]) == Concat(chunks)[..|Concat(chunks[..n])|]
    decreases |chunks|
  {
    if n < |chunks| {
      ConcatGrows(chunks[..|chunks| - 1], n);
      assert chunks[..|chunks| - 1][..n] == chunks[..n];
    } else {
      assert chunks[..n] == chunks;
    }
  }

  /** Consuming succeeds exactly when the bytes are within the limit and a full head is accepted. */
  lemma {:induction false} ConsumeSucceedsIff(c: Codecs, filename: string, maxBytes: nat, chunks: seq<Bytes>)
    ensures var data := Concat(chunks);
            Consume(c, filename, maxBytes, chunks).None? <==>
              |data| <= maxBytes && (|data| >= HEAD_BYTES ==> c.detectMime(Head(data), filename).Some?)
  {
    if chunks != [] {
      var before := chunks[..|chunks| - 1];
      ConsumeSucceedsIff(c, filename, maxBytes, before);
      ConcatGrows(chunks, |before|);
      if |Concat(before)| >= HEAD_BYTES { assert Head(Concat(before)) == Head(Concat(chunks)); }
    }
  }

  /** Which error it is: each kind appears only if the bytes have that fault. */
  lemma {:induction false} ConsumeErrorIsReal(c: Codecs, filename: string, maxBytes: nat, chunks: seq<Bytes>)
    requires Consume(c, filename, maxBytes, chunks).Some?
    ensures var error, data := Consume(c, filename, maxBytes, chunks).value, Concat(chunks);
            || (error == UploadTooLarge && |data| > maxBytes)
            || (error == UnsupportedMime && HEAD_BYTES <= |data| && HEAD_BYTES <= maxBytes
                && c.detectMime(Head(data), filename).None?)
  {
    var before := chunks[..|chunks| - 1];
    ConcatGrows(chunks, |before|);
    if Consume(c, filename, maxBytes, before).Some? {
      ConsumeErrorIsReal(c, filename, maxBytes, before);
      if |Concat(before)| >= HEAD_BYTES { assert Head(Concat(before)) == Head(Concat(chunks)); }
    }
  }

  /** What the type is detected from: the first 8192 bytes, or all of them if there are fewer. */
  function Sample(data: Bytes): Bytes {
    if |data| > 8192 then data[..8192] else data
  }

  /** `user/ab/abcdef....ext` for the digest `abcdef...`. */
  function SpelledKey(up: Upload, hash: string, extension: string): string {
    up.user + "/" + (if |hash| <= 2 then hash else [hash[0], hash[1]]) + "/" + hash + extension
  }

  lemma KeyIsSpelled(up: Upload, hash: string, extension: string)
    ensures KeyFor(up.user, hash, extension) == SpelledKey(up, hash, extension)
  {
    if |hash| >= 2 { assert hash[..2] == [hash[0], hash[1]]; }
  }

  /**
   * An upload is accepted exactly when its bytes are within the limit, the client stayed, they are
   * of an accepted type, however many they are, and their key is valid; and then the answer holds
   * the key spelled out, the upload's file name, the digest, that type and the size.
   */
  lemma AdmitIff(c: Codecs, up: Upload)
    ensures var data := Concat(up.chunks);
            var mime, hash := c.detectMime(Sample(data), up.filename), c.sha256(data);
            && (Admit(c, up).Ok? <==> |data| <= up.maxBytes && !up.broken && mime.Some?
                                      && c.validKey(SpelledKey(up, hash, c.extensionFor(mime.value))))
            && (Admit(c, up).Ok? ==>
                  (Admit(c, up).value
                   == StoredObject(SpelledKey(up, hash, c.extensionFor(mime.value)), up.filename, hash, mime.value, |data|, false)))
  {
    var data := Concat(up.chunks);
    ConsumeSucceedsIff(c, up.filename, up.maxBytes, up.chunks);
    assert Sample(data) == Head(data);
    var mime := c.detectMime(Head(data), up.filename);
    if mime.Some? { KeyIsSpelled(up, c.sha256(data), c.extensionFor(mime.value)); }
  }

  /** Which error an upload gets that is not accepted, unless its bytes are faulty in both ways. */
  lemma RefusedWith(c: Codecs, up: Upload)
    requires !Admit(c, up).Ok? && !DoublyFaulty(c, up)
    ensures var data := Concat(up.chunks);
            var unsupported := c.detectMime(Sample(data), up.filename).None?;
            Admit(c, up).error == if |data| > up.maxBytes then UploadTooLarge
                                  else if |data| >= 8192 && unsupported then UnsupportedMime
                                  else if up.broken then Disconnected
                                  else if unsupported then UnsupportedMime
                                  else InvalidKey
  {
    AdmitIff(c, up);
    ConsumeSucceedsIff(c, up.filename, up.maxBytes, up.chunks);
    assert Sample(Concat(up.chunks)) == Head(Concat(up.chunks));
    if Consume(c, up.filename, up.maxBytes, up.chunks).Some? { ConsumeErrorIsReal(c, up.filename, up.maxBytes, up.chunks); }
  }

  /** Success, key, type, size and hash depend only on the concatenation of the stream. */
  lemma ChunkingDoesNotMatter(c: Codecs, a: Upload, b: Upload)
    requires Concat(a.chunks) == Concat(b.chunks) && b == a.(chunks := b.chunks)
    ensures Admit(c, a).Ok? <==> Admit(c, b).Ok?
    ensures Admit(c, a).Ok? ==> Admit(c, a) == Admit(c, b)
    ensures Admit(c, a).Ok? ==> Admit(c, a).value.contentHash == c.sha256(Concat(a.chunks))
                                && Admit(c, a).value.sizeBytes == |Concat(a.chunks)| <= a.maxBytes
  {
    ConsumeSucceedsIff(c, a.filename, a.maxBytes, a.chunks);
    ConsumeSucceedsIff(c, b.filename, b.maxBytes, b.chunks);
  }

  /** Too large, and of an unaccepted type that shows within the limit. */
  predicate DoublyFaulty(c: Codecs, up: Upload) {
    var data := Concat(up.chunks);
    HEAD_BYTES <= up.maxBytes < |data| && c.detectMime(Head(data), up.filename).None?
  }

  /** The kind of failure is fixed by the bytes as well, unless they are faulty in both ways. */
  lemma FailureKindIsFixedUnless(c: Codecs, a: Upload, b: Upload)
    requires Concat(a.chunks) == Concat(b.chunks) && b == a.(chunks := b.chunks)
    requires !DoublyFaulty(c, a)
    ensures Admit(c, a) == Admit(c, b)
  {
    ChunkingDoesNotMatter(c, a, b);
    ConsumeSucceedsIff(c, a.filename, a.maxBytes, a.chunks);
    ConsumeSucceedsIff(c, b.filename, b.maxBytes, b.chunks);
    if Consume(c, a.filename, a.maxBytes, a.chunks).Some? {
      ConsumeErrorIsReal(c, a.filename, a.maxBytes, a.chunks);
      ConsumeErrorIsReal(c, b.filename, b.maxBytes, b.chunks);
    }
  }

  lemma OneOrTwo(x: Bytes, y: Bytes)
    ensures Concat([x]) == x && Concat([x, y]) == x + y
  {
    assert [x, y][..1] == [x] && [x][..0] == [];
  }

  /** In one piece a doubly faulty stream is too large; cut after its head it is of the wrong type. */
  lemma TwoChunkings(c: Codecs, up: Upload)
    requires DoublyFaulty(c, up)
    ensures var data := Concat(up.chunks);
            && Concat([data]) == data == Concat([data[..HEAD_BYTES], data[HEAD_BYTES..]])
            && Admit(c, up.(chunks := [data])) == Err(UploadTooLarge)
            && Admit(c, up.(chunks := [data[..HEAD_BYTES], data[HEAD_BYTES..]])) == Err(UnsupportedMime)
  {
    var data := Concat(up.chunks);
    var head, rest := data[..HEAD_BYTES], data[HEAD_BYTES..];
    assert data == head + rest;
    OneOrTwo(data, []);
    OneOrTwo(head, rest);
    assert [data][..0] == [] && [head, rest][..1] == [head] && [head][..0] == [];
    assert Head(data) == head == Head(head);
    assert Consume(c, up.filename, up.maxBytes, [data]) == Reject(c, up.filename, up.maxBytes, [], data);
    assert Consume(c, up.filename, up.maxBytes, [head]) == Some(UnsupportedMime);
  }

  /** The answer is the same for every chunking of the bytes exactly when they are not doubly faulty. */
  lemma AnswerIsFixedIff(c: Codecs, up: Upload)
    ensures (forall chunks {:trigger Concat(chunks)} :: Concat(chunks) == Concat(up.chunks) ==>
               Admit(c, up.(chunks := chunks)) == Admit(c, up))
            <==> !DoublyFaulty(c, up)
  {
    if DoublyFaulty(c, up) {
      TwoChunkings(c, up);
    } else {
      forall chunks | Concat(chunks) == Concat(up.chunks)
        ensures Admit(c, up.(chunks := chunks)) == Admit(c, up)
      {
        FailureKindIsFixedUnless(c, up, up.(chunks := chunks));
      }
    }
  }
}
