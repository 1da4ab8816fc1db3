// Content addressing under concurrent uploads and deletes of one backend. A received upload checks
// for its key and publishes in two separate steps, so uploads of the same bytes can race. Both
// backends are proved to run this machine.
module StoredContent {
  import opened Hashing
  import opened StorageBase

  /** A fully received upload, before and after its check found no object. */
  datatype Pending = Staged(key: string, data: Bytes) | Missing(key: string, data: Bytes)

  datatype State = State(objects: map<string, Bytes>, pending: map<nat, Pending>)

  datatype Event =
    | Stage(upload: nat, request: Upload)
    | Check(upload: nat)
    | Publish(upload: nat)
    | Cancel(upload: nat)
    | Delete(key: string)

  const INIT := State(map[], map[])

  /** The check of `upload` would find its object and answer with the existing one. */
  predicate Hits(s: State, upload: nat) {
    upload in s.pending && s.pending[upload].Staged? && s.pending[upload].key in s.objects
  }

  function Apply(c: Codecs, s: State, ev: Event): State {
    match ev
    case Stage(upload, request) =>
      if upload in s.pending || Admit(c, request).Err? then s
      else s.(pending := s.pending[upload := Staged(Admit(c, request).value.key, Concat(request.chunks))])
    case Check(upload) =>
      if upload !in s.pending || !s.pending[upload].Staged? then s
      else if s.pending[upload].key in s.objects then s.(pending := s.pending - {upload})
      else s.(pending := s.pending[upload := Missing(s.pending[upload].key, s.pending[upload].data)])
    case Publish(upload) =>
      if upload !in s.pending || !s.pending[upload].Missing? then s
      else State(s.objects[s.pending[upload].key := s.pending[upload].data], s.pending - {upload})
    case Cancel(upload) => s.(pending := s.pending - {upload})
    case Delete(key) => s.(objects := s.objects - {key})
  }

  function Run(c: Codecs, s: State, evs: seq<Event>): State
    decreases |evs|
  {
    if evs == [] then s else Apply(c, Run(c, s, evs[..|evs| - 1]), evs[|evs| - 1])
  }

  lemma RunSnoc(c: Codecs, s: State, evs: seq<Event>, ev: Event)
    ensures Run(c, s, evs + [ev]) == Apply(c, Run(c, s, evs), ev)
  {
    assert (evs + [ev])[..|evs|] == evs;
  }

  lemma {:induction false} RunConcat(c: Codecs, s: State, a: seq<Event>, b: seq<Event>)
    ensures Run(c, s, a + b) == Run(c, Run(c, s, a), b)
    decreases |b|
  {
    if b == [] {
      assert a + b == a;
    } else {
      var n := |b| - 1;
      RunConcat(c, s, a, b[..n]);
      assert (a + b)[..|a + b| - 1] == a + b[..n] && (a + b)[|a + b| - 1] == b[n];
    }
  }

  // ----- events of other requests -----

  /** The event is not a step of this upload. */
  predicate Elsewhere(ev: Event, upload: nat) {
    ev.Delete? || ev.upload != upload
  }

  predicate Foreign(evs: seq<Event>, upload: nat) {
    forall i :: 0 <= i < |evs| ==> Elsewhere(evs[i], upload)
  }

  /** Others neither see nor change what an upload has pending. */
  lemma {:induction false} OthersKeepPending(c: Codecs, s: State, evs: seq<Event>, upload: nat)
    requires Foreign(evs, upload)
    ensures upload in Run(c, s, evs).pending <==> upload in s.pending
    ensures upload in s.pending ==> Run(c, s, evs).pending[upload] == s.pending[upload]
    decreases |evs|
  {
    if evs != [] { OthersKeepPending(c, s, evs[..|evs| - 1], upload); }
  }

  // ----- what keys say about contents -----

  /** Users are written as 36 characters and digests as 64. */
  const USER_LENGTH := 36
  const DIGEST_LENGTH := 64

  predicate Proper(c: Codecs, request: Upload) {
    |request.user| == USER_LENGTH && |c.sha256(Concat(request.chunks))| == DIGEST_LENGTH
  }

  /** The digest part of a key: after the user and the first two characters of the digest. */
  function DigestIn(key: string): string {
    var from := USER_LENGTH + 4;
    if |key| >= from + DIGEST_LENGTH then key[from..from + DIGEST_LENGTH] else ""
  }

  lemma KeyHoldsDigest(c: Codecs, request: Upload)
    requires Proper(c, request) && Admit(c, request).Ok?
    ensures DigestIn(Admit(c, request).value.key) == c.sha256(Concat(request.chunks))
  {
    var hash := c.sha256(Concat(request.chunks));
    var ext := c.extensionFor(c.detectMime(Head(Concat(request.chunks)), request.filename).value);
    var front := request.user + "/" + hash[..2] + "/";
    assert Admit(c, request).value.key == front + hash + ext;
    assert |front| == USER_LENGTH + 4;
    assert (front + hash + ext)[|front|..|front| + DIGEST_LENGTH] == hash;
  }

  ghost predicate Uploads(c: Codecs, evs: seq<Event>, contents: set<Bytes>) {
    forall i :: 0 <= i < |evs| && evs[i].Stage? ==> Proper(c, evs[i].request) && Concat(evs[i].request.chunks) in contents
  }

  /** No two of the uploaded contents have the same digest. */
  ghost predicate CollisionFree(c: Codecs, contents: set<Bytes>) {
    NoCollisions(c.sha256, contents)
  }

  ghost predicate Addressed(c: Codecs, contents: set<Bytes>, key: string, data: Bytes) {
    data in contents && DigestIn(key) == c.sha256(data)
  }

  ghost predicate Sound(c: Codecs, contents: set<Bytes>, s: State) {
    && (forall k {:trigger s.objects[k]} :: k in s.objects ==> Addressed(c, contents, k, s.objects[k]))
    && (forall u {:trigger s.pending[u]} :: u in s.pending ==> Addressed(c, contents, s.pending[u].key, s.pending[u].data))
  }

  lemma {:induction false} RunIsSound(c: Codecs, contents: set<Bytes>, evs: seq<Event>)
    requires Uploads(c, evs, contents)
    ensures Sound(c, contents, Run(c, INIT, evs))
  {
    if evs != [] {
      var ev := evs[|evs| - 1];
      RunIsSound(c, contents, evs[..|evs| - 1]);
      if ev.Stage? && Admit(c, ev.request).Ok? { KeyHoldsDigest(c, ev.request); }
    }
  }

  /** In every interleaving a stored object hashes to the digest in its key. */
  lemma ObjectsMatchTheirKeys(c: Codecs, contents: set<Bytes>, evs: seq<Event>, key: string)
    requires Uploads(c, evs, contents) && key in Run(c, INIT, evs).objects
    ensures c.sha256(Run(c, INIT, evs).objects[key]) == DigestIn(key)
  {
    RunIsSound(c, contents, evs);
    assert Addressed(c, contents, key, Run(c, INIT, evs).objects[key]);
  }

  /** A deduplicated upload is answered with an object that holds exactly the uploaded bytes. */
  lemma HitsServeTheUploadedBytes(c: Codecs, contents: set<Bytes>, evs: seq<Event>, upload: nat)
    requires Uploads(c, evs, contents) && CollisionFree(c, contents) && Hits(Run(c, INIT, evs), upload)
    ensures var s := Run(c, INIT, evs);
            s.objects[s.pending[upload].key] == s.pending[upload].data
  {
    RunIsSound(c, contents, evs);
    var s := Run(c, INIT, evs);
    var key := s.pending[upload].key;
    assert Addressed(c, contents, key, s.objects[key]) && Addressed(c, contents, key, s.pending[upload].data);
  }

  /** Racing uploads never change an object that is there: only a delete does. */
  lemma {:induction false} ObjectsOnlyChangeByDelete(c: Codecs, contents: set<Bytes>, evs: seq<Event>, more: seq<Event>, key: string)
    requires Uploads(c, evs + more, contents) && CollisionFree(c, contents) && Delete(key) !in more
    requires key in Run(c, INIT, evs).objects
    ensures key in Run(c, INIT, evs + more).objects && Run(c, INIT, evs + more).objects[key] == Run(c, INIT, evs).objects[key]
    decreases |more|
  {
    if more == [] {
      assert evs + more == evs;
    } else {
      var less, ev := more[..|more| - 1], more[|more| - 1];
      assert (evs + more)[..|evs + more| - 1] == evs + less && (evs + more)[|evs + more| - 1] == ev && ev in more;
      forall i | 0 <= i < |evs + less|
        ensures (evs + less)[i] == (evs + more)[i]
      {
      }
      ObjectsOnlyChangeByDelete(c, contents, evs, less, key);
      RunIsSound(c, contents, evs + less);
      var s := Run(c, INIT, evs + less);
      assert Addressed(c, contents, key, s.objects[key]);
      if ev.Publish? && ev.upload in s.pending {
        assert Addressed(c, contents, s.pending[ev.upload].key, s.pending[ev.upload].data);
      }
    }
  }

  /** What an upload stored, or found stored, is what a reader gets until somebody deletes it. */
  lemma UploadThenRead(c: Codecs, contents: set<Bytes>, evs: seq<Event>, ev: Event, more: seq<Event>)
    requires Uploads(c, evs + [ev] + more, contents) && CollisionFree(c, contents)
    requires (ev.Publish? && ev.upload in Run(c, INIT, evs).pending && Run(c, INIT, evs).pending[ev.upload].Missing?)
             || (ev.Check? && Hits(Run(c, INIT, evs), ev.upload))
    requires Delete(Run(c, INIT, evs).pending[ev.upload].key) !in more
    ensures var up := Run(c, INIT, evs).pending[ev.upload];
            var objects := Run(c, INIT, evs + [ev] + more).objects;
            up.key in objects && objects[up.key] == up.data
  {
    RunSnoc(c, INIT, evs, ev);
    forall i | 0 <= i < |evs|
      ensures evs[i] == (evs + [ev] + more)[i]
    {
    }
    if ev.Check? { HitsServeTheUploadedBytes(c, contents, evs, ev.upload); }
    ObjectsOnlyChangeByDelete(c, contents, evs + [ev], more, Run(c, INIT, evs).pending[ev.upload].key);
  }

  // ----- one upload among others -----

  /** Up to the check: what others did before, the received upload, and its check. */
  function Checked(upload: nat, request: Upload, before: seq<Event>): seq<Event> {
    before + [Stage(upload, request)] + [Check(upload)]
  }

  /** How far an upload came: it failed before its check, found its object, stored it, or gave up. */
  datatype Ending = Unseen | Found | Published | GaveUp

  /** One upload among what others did before its check and since. */
  function Events(upload: nat, request: Upload, before: seq<Event>, between: seq<Event>, ending: Ending): seq<Event> {
    match ending
    case Unseen => before
    case Found => Checked(upload, request, before)
    case Published => Checked(upload, request, before) + between + [Publish(upload)]
    case GaveUp => Checked(upload, request, before) + between + [Cancel(upload)]
  }

  /** The upload's own place in a run: others before its check, others before it publishes or gives up. */
  lemma ChecksOnce(c: Codecs, s: State, upload: nat, request: Upload, before: seq<Event>)
    requires upload !in s.pending && Foreign(before, upload) && Admit(c, request).Ok?
    ensures var s1, s2 := Run(c, s, before), Run(c, s, Checked(upload, request, before));
            var key, data := Admit(c, request).value.key, Concat(request.chunks);
            && s2.objects == s1.objects
            && (key in s1.objects ==> Hits(Run(c, s, before + [Stage(upload, request)]), upload) && s2.pending == s1.pending)
            && (key !in s1.objects ==> s2.pending == s1.pending[upload := Missing(key, data)])
            && upload !in s1.pending
  {
    OthersKeepPending(c, s, before, upload);
    RunSnoc(c, s, before, Stage(upload, request));
    RunSnoc(c, s, before + [Stage(upload, request)], Check(upload));
    var s1 := Run(c, s, before);
    var key, data := Admit(c, request).value.key, Concat(request.chunks);
    assert s1.pending[upload := Staged(key, data)] - {upload} == s1.pending;
    assert s1.pending[upload := Staged(key, data)][upload := Missing(key, data)] == s1.pending[upload := Missing(key, data)];
  }

  /** After the check and what others did since: publishing stores the bytes, giving up changes no object. */
  lemma PublishesOrCancels(c: Codecs, s: State, upload: nat, request: Upload, before: seq<Event>, between: seq<Event>)
    requires upload !in s.pending && Foreign(before, upload) && Foreign(between, upload) && Admit(c, request).Ok?
    requires Admit(c, request).value.key !in Run(c, s, before).objects
    ensures var s1 := Run(c, Run(c, s, Checked(upload, request, before)), between);
            && Run(c, s, Events(upload, request, before, between, Published)).objects
                 == s1.objects[Admit(c, request).value.key := Concat(request.chunks)]
            && Run(c, s, Events(upload, request, before, between, GaveUp)).objects == s1.objects
  {
    var checked := Checked(upload, request, before);
    ChecksOnce(c, s, upload, request, before);
    RunConcat(c, s, checked, between);
    OthersKeepPending(c, Run(c, s, checked), between, upload);
    RunSnoc(c, s, checked + between, Publish(upload));
    RunSnoc(c, s, checked + between, Cancel(upload));
  }
}
