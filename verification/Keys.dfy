// Artifact keys: a fingerprint per stage that chains in the fingerprints of the stages before it.
module Keys {

  const STAGE_NAMES: seq<string> := ["extract", "clean", "chunk", "embed", "index"]

  /** Everything that can change a stage's output, as the lines that are joined and hashed. */
  type StageConfig = seq<string>

  function JoinBars(lines: seq<string>): string {
    if lines == [] then "" else if |lines| == 1 then lines[0] else lines[0] + "|" + JoinBars(lines[1..])
  }

  /** `digest` stands for the first 16 hex digits of SHA-256. */
  function Chain(digest: string -> string, configs: seq<StageConfig>, n: nat): string
    requires n <= |configs|
    decreases n, 0
  {
    if n == 0 then "" else digest(Material(digest, configs, n - 1))
  }

  function Material(digest: string -> string, configs: seq<StageConfig>, n: nat): string
    requires n < |configs|
    decreases n, 1
  {
    Chain(digest, configs, n) + "|" + JoinBars(configs[n])
  }

  method Fingerprints(digest: string -> string, configs: seq<StageConfig>) returns (out: map<string, string>)
    requires |configs| == |STAGE_NAMES|
    ensures forall i :: 0 <= i < |STAGE_NAMES| ==> STAGE_NAMES[i] in out && out[STAGE_NAMES[i]] == Chain(digest, configs, i + 1)
  {
    out := map[];
    var chain := "";
    for n := 0 to |STAGE_NAMES|
      invariant chain == Chain(digest, configs, n)
      invariant forall i :: 0 <= i < n ==> STAGE_NAMES[i] in out && out[STAGE_NAMES[i]] == Chain(digest, configs, i + 1)
    {
      var material := chain + "|" + JoinBars(configs[n]);
      chain := digest(material);
      out := out[STAGE_NAMES[n] := chain];
    }
  }

  function CacheKey(digest: string -> string, configs: seq<StageConfig>, contentHash: string, stage: nat): string
    requires stage < |STAGE_NAMES| == |configs|
  {
    "_pipeline/cache/" + Chain(digest, configs, stage + 1) + "/" + contentHash + "/" + STAGE_NAMES[stage] + ".json.gz"
  }

  function ArtifactKeysFrom(digest: string -> string, configs: seq<StageConfig>, contentHash: string, from: nat): seq<string>
    requires from <= |STAGE_NAMES| == |configs|
  {
    seq(|STAGE_NAMES| - from, i requires 0 <= i < |STAGE_NAMES| - from => CacheKey(digest, configs, contentHash, from + i))
  }

  // ----- assumptions on the digest and the lines -----

  predicate NoBar(s: string) {
    '|' !in s
  }

  predicate Plain(config: StageConfig) {
    config != [] && forall i :: 0 <= i < |config| ==> NoBar(config[i])
  }

  /** Sixteen hex digits. */
  ghost predicate HexDigest(digest: string -> string) {
    forall s {:trigger digest(s)} :: |digest(s)| == 16 && NoBar(digest(s))
  }

  /** No collision among the materials that the two configurations hash for the same stage. */
  ghost predicate DistinctDigests(digest: string -> string, a: seq<StageConfig>, b: seq<StageConfig>)
    requires |a| == |b|
  {
    forall n {:trigger Material(digest, a, n)} :: 0 <= n < |a| && digest(Material(digest, a, n)) == digest(Material(digest, b, n)) ==>
      Material(digest, a, n) == Material(digest, b, n)
  }

  // ----- joining is injective on plain lines -----

  lemma FirstBar(x: string, y: string, s: string, t: string)
    requires NoBar(x) && NoBar(y) && x + "|" + s == y + "|" + t
    ensures x == y && s == t
  {
    var whole := x + "|" + s;
    assert whole[|x|] == '|' && (y + "|" + t)[|y|] == '|';
    assert whole[..|x|] == x && (y + "|" + t)[..|y|] == y;
    assert whole[|x| + 1..] == s && (y + "|" + t)[|y| + 1..] == t;
  }

  lemma LineHasNoBar(x: string, y: string, t: string)
    requires NoBar(x)
    ensures x != y + "|" + t
  {
    assert (y + "|" + t)[|y|] == '|';
  }

  lemma {:induction false} JoinIsInjective(a: StageConfig, b: StageConfig)
    requires Plain(a) && Plain(b) && JoinBars(a) == JoinBars(b)
    ensures a == b
  {
    if |a| == 1 && |b| > 1 {
      LineHasNoBar(a[0], b[0], JoinBars(b[1..]));
    } else if |b| == 1 && |a| > 1 {
      LineHasNoBar(b[0], a[0], JoinBars(a[1..]));
    } else if |a| > 1 {
      FirstBar(a[0], b[0], JoinBars(a[1..]), JoinBars(b[1..]));
      JoinIsInjective(a[1..], b[1..]);
      assert a == [a[0]] + a[1..] && b == [b[0]] + b[1..];
    }
  }

  /** Lines of the extract stage that differ although their joined text is the same. */
  lemma BarsAreAmbiguous(version: string, docling: string, more: string)
    ensures var a := ["version=" + version + "|docling=" + docling, "docling=" + more];
            var b := ["version=" + version, "docling=" + docling + "|docling=" + more];
            a != b && JoinBars(a) == JoinBars(b)
  {
    var a := ["version=" + version + "|docling=" + docling, "docling=" + more];
    var b := ["version=" + version, "docling=" + docling + "|docling=" + more];
    assert a[1..] == ["docling=" + more] && b[1..] == ["docling=" + docling + "|docling=" + more];
    assert |a[0]| > |b[0]|;
    assert JoinBars(a) == ("version=" + version) + ("|docling=" + docling) + "|" + ("docling=" + more);
    assert "|docling=" + docling == "|" + ("docling=" + docling);
    assert JoinBars(b) == ("version=" + version) + "|" + (("docling=" + docling) + ("|docling=" + more));
    assert "|docling=" + more == "|" + ("docling=" + more);
  }

  // ----- main results -----

  ghost predicate AgreeUpTo(a: seq<StageConfig>, b: seq<StageConfig>, n: nat)
    requires n <= |a| == |b|
  {
    forall i :: 0 <= i < n ==> a[i] == b[i]
  }

  /** One more stage: the digests agree exactly when the previous ones and the joined texts do. */
  lemma NextFingerprint(digest: string -> string, a: seq<StageConfig>, b: seq<StageConfig>, n: nat)
    requires n < |a| == |b| && HexDigest(digest) && DistinctDigests(digest, a, b)
    ensures Chain(digest, a, n + 1) == Chain(digest, b, n + 1)
            <==> Chain(digest, a, n) == Chain(digest, b, n) && JoinBars(a[n]) == JoinBars(b[n])
  {
    if Material(digest, a, n) == Material(digest, b, n) {
      FirstBar(Chain(digest, a, n), Chain(digest, b, n), JoinBars(a[n]), JoinBars(b[n]));
    }
  }

  /** For any lines at all, fingerprints agree exactly when the joined texts up to the stage agree. */
  lemma {:induction false} FingerprintsAgreeIffTexts(digest: string -> string, a: seq<StageConfig>, b: seq<StageConfig>, n: nat)
    requires n <= |a| == |b| && HexDigest(digest) && DistinctDigests(digest, a, b)
    ensures Chain(digest, a, n) == Chain(digest, b, n) <==> forall i :: 0 <= i < n ==> JoinBars(a[i]) == JoinBars(b[i])
  {
    if n > 0 {
      FingerprintsAgreeIffTexts(digest, a, b, n - 1);
      NextFingerprint(digest, a, b, n - 1);
    }
  }

  /** Fingerprints agree exactly when the configurations agree on the stage and all before it. */
  lemma FingerprintsAgreeIff(digest: string -> string, a: seq<StageConfig>, b: seq<StageConfig>, n: nat)
    requires 0 < n <= |a| == |b| && HexDigest(digest) && DistinctDigests(digest, a, b)
    requires forall i :: 0 <= i < |a| ==> Plain(a[i]) && Plain(b[i])
    ensures Chain(digest, a, n) == Chain(digest, b, n) <==> AgreeUpTo(a, b, n)
  {
    FingerprintsAgreeIffTexts(digest, a, b, n);
    forall i | 0 <= i < n && JoinBars(a[i]) == JoinBars(b[i])
      ensures a[i] == b[i]
    {
      JoinIsInjective(a[i], b[i]);
    }
  }

  lemma KeysDiffer(fp: string, fp': string, hash: string, hash': string, s: string, s': string)
    requires |fp| == |fp'| && |hash| == |hash'|
    ensures "_pipeline/cache/" + fp + "/" + hash + "/" + s + ".json.gz" == "_pipeline/cache/" + fp' + "/" + hash' + "/" + s' + ".json.gz"
            <==> fp == fp' && hash == hash' && s == s'
  {
    var head, tail := "_pipeline/cache/", ".json.gz";
    var k, k' := head + fp + "/" + hash + "/" + s + tail, head + fp' + "/" + hash' + "/" + s' + tail;
    if k == k' {
      var m := |head| + |fp| + 1;
      assert k[|head|..|head| + |fp|] == fp && k'[|head|..|head| + |fp|] == fp';
      assert k[m..m + |hash|] == hash && k'[m..m + |hash|] == hash';
      var n := m + |hash| + 1;
      assert k[n..|k| - |tail|] == s && k'[n..|k'| - |tail|] == s';
    }
  }

  lemma StageNamesAreDistinct(i: nat, j: nat)
    requires i < |STAGE_NAMES| && j < |STAGE_NAMES| && STAGE_NAMES[i] == STAGE_NAMES[j]
    ensures i == j
  {
    assert STAGE_NAMES[0][0] == 'e' && STAGE_NAMES[1][1] == 'l' && STAGE_NAMES[2][1] == 'h'
           && STAGE_NAMES[3][1] == 'm' && STAGE_NAMES[4][1] == 'n' && STAGE_NAMES[0][1] == 'x';
  }

  /** Under one configuration an artifact key belongs to one content hash and one stage. */
  lemma KeyNamesOneArtifact(digest: string -> string, configs: seq<StageConfig>, hash: string, hash': string, stage: nat, stage': nat)
    requires stage < |STAGE_NAMES| == |configs| && stage' < |STAGE_NAMES| && HexDigest(digest) && |hash| == |hash'|
    ensures CacheKey(digest, configs, hash, stage) == CacheKey(digest, configs, hash', stage') <==> hash == hash' && stage == stage'
  {
    KeysDiffer(Chain(digest, configs, stage + 1), Chain(digest, configs, stage' + 1), hash, hash', STAGE_NAMES[stage], STAGE_NAMES[stage']);
    if STAGE_NAMES[stage] == STAGE_NAMES[stage'] { StageNamesAreDistinct(stage, stage'); }
  }

  /** Reprocessing from a stage deletes that stage's key and all later ones, and no earlier one. */
  lemma ArtifactKeysAreTheDownstreamOnes(digest: string -> string, configs: seq<StageConfig>, hash: string, from: nat, stage: nat)
    requires from <= |STAGE_NAMES| == |configs| && stage < |STAGE_NAMES| && HexDigest(digest)
    ensures CacheKey(digest, configs, hash, stage) in ArtifactKeysFrom(digest, configs, hash, from) <==> stage >= from
  {
    var keys := ArtifactKeysFrom(digest, configs, hash, from);
    var key := CacheKey(digest, configs, hash, stage);
    if stage >= from { assert keys[stage - from] == key; }
    if key in keys {
      var i :| 0 <= i < |keys| && keys[i] == key;
      assert keys[i] == CacheKey(digest, configs, hash, from + i);
      KeysDiffer(Chain(digest, configs, from + i + 1), Chain(digest, configs, stage + 1), hash, hash, STAGE_NAMES[from + i], STAGE_NAMES[stage]);
      StageNamesAreDistinct(from + i, stage);
    }
  }

  /** For any lines: a change of the joined text at one stage keeps the keys before it and no other. */
  lemma TextChangeInvalidatesDownstream(digest: string -> string, a: seq<StageConfig>, b: seq<StageConfig>, hash: string,
                                        changed: nat, stage: nat)
    requires changed < |a| == |b| == |STAGE_NAMES| && stage < |a| && HexDigest(digest) && DistinctDigests(digest, a, b)
    requires (forall i :: 0 <= i < changed ==> JoinBars(a[i]) == JoinBars(b[i])) && JoinBars(a[changed]) != JoinBars(b[changed])
    ensures CacheKey(digest, a, hash, stage) == CacheKey(digest, b, hash, stage) <==> stage < changed
  {
    FingerprintsAgreeIffTexts(digest, a, b, stage + 1);
    KeysDiffer(Chain(digest, a, stage + 1), Chain(digest, b, stage + 1), hash, hash, STAGE_NAMES[stage], STAGE_NAMES[stage]);
  }

  /** A change at one stage keeps every earlier key and replaces every key from there on. */
  lemma ChangeInvalidatesDownstream(digest: string -> string, a: seq<StageConfig>, b: seq<StageConfig>, hash: string,
                                    changed: nat, stage: nat)
    requires changed < |a| == |b| == |STAGE_NAMES| && stage < |a| && HexDigest(digest) && DistinctDigests(digest, a, b)
    requires forall i :: 0 <= i < |a| ==> Plain(a[i]) && Plain(b[i])
    requires AgreeUpTo(a, b, changed) && a[changed] != b[changed]
    ensures CacheKey(digest, a, hash, stage) == CacheKey(digest, b, hash, stage) <==> stage < changed
  {
    if JoinBars(a[changed]) == JoinBars(b[changed]) { JoinIsInjective(a[changed], b[changed]); }
    TextChangeInvalidatesDownstream(digest, a, b, hash, changed, stage);
  }
}
