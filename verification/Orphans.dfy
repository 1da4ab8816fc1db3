// The orphan sweeper: which storage objects a pass may delete, and how many.
module Orphans {
  import opened Types

  const GRACE_PERIOD := 2 * HOUR
  const MAX_DELETES_PER_RUN := 1000

  type Uuid = nat
  type ObjectKey = string

  /** Columns of one document row; None stands for a null column. */
  datatype Row = Row(storageKey: Option<ObjectKey>, parsedKey: Option<ObjectKey>, contentHash: Option<string>,
                     userId: Uuid, id: Uuid)

  /** Parsing of identifiers, and the artifact keys of a content hash under the current fingerprints. */
  datatype Naming = Naming(parseUuid: string -> Option<Uuid>, artifactKeys: string -> seq<ObjectKey>)

  datatype Listed = Listed(key: ObjectKey, modified: Option<Time>)

  /** How the storage answers a delete. */
  datatype Answer = Deleted | NotFound | BadKey | Failed

  // ----- live keys -----

  function Split(s: string, at: char): (parts: seq<string>)
    ensures parts != []
  {
    if s == "" then [""]
    else
      var rest := Split(s[1..], at);
      if s[0] == at then [""] + rest else [[s[0]] + rest[0]] + rest[1..]
  }

  /** The keys one row keeps alive. */
  function KeysOf(n: Naming, row: Row): set<ObjectKey> {
    (if row.storageKey.Some? && row.storageKey.value != "" then {row.storageKey.value} else {})
    + (if row.parsedKey.Some? && row.parsedKey.value != "" then {row.parsedKey.value} else {})
    + (if row.contentHash.Some? && row.contentHash.value != "" then (set k | k in n.artifactKeys(row.contentHash.value)) else {})
  }

  /** The keys of all rows. */
  ghost predicate AreKeys(n: Naming, rows: seq<Row>, live: set<ObjectKey>) {
    forall k :: k in live <==> exists i :: 0 <= i < |rows| && k in KeysOf(n, rows[i])
  }

  /** The pairs of owner and document of all rows. */
  ghost predicate ArePrefixes(rows: seq<Row>, prefixes: set<(Uuid, Uuid)>) {
    forall p :: p in prefixes <==> exists i :: 0 <= i < |rows| && p == (rows[i].userId, rows[i].id)
  }

  ghost predicate AreLive(n: Naming, rows: seq<Row>, live: set<ObjectKey>, prefixes: set<(Uuid, Uuid)>) {
    AreKeys(n, rows, live) && ArePrefixes(rows, prefixes)
  }

  lemma OneMoreKeys(n: Naming, rows: seq<Row>, row: Row, live: set<ObjectKey>)
    requires AreKeys(n, rows, live)
    ensures AreKeys(n, rows + [row], live + KeysOf(n, row))
  {
    forall k
      ensures k in live + KeysOf(n, row) <==> exists i :: 0 <= i < |rows + [row]| && k in KeysOf(n, (rows + [row])[i])
    {
      if k in live {
        var i :| 0 <= i < |rows| && k in KeysOf(n, rows[i]);
        assert (rows + [row])[i] == rows[i];
      }
      assert (rows + [row])[|rows|] == row;
    }
  }

  lemma OneMorePrefix(rows: seq<Row>, row: Row, prefixes: set<(Uuid, Uuid)>)
    requires ArePrefixes(rows, prefixes)
    ensures ArePrefixes(rows + [row], prefixes + {(row.userId, row.id)})
  {
    forall p
      ensures p in prefixes + {(row.userId, row.id)}
              <==> exists i :: 0 <= i < |rows + [row]| && p == ((rows + [row])[i].userId, (rows + [row])[i].id)
    {
      if p in prefixes {
        var i :| 0 <= i < |rows| && p == (rows[i].userId, rows[i].id);
        assert (rows + [row])[i] == rows[i];
      }
      assert (rows + [row])[|rows|] == row;
    }
  }

  method LoadLiveKeys(n: Naming, rows: seq<Row>) returns (live: set<ObjectKey>, prefixes: set<(Uuid, Uuid)>)
    ensures AreLive(n, rows, live, prefixes)
  {
    live, prefixes := {}, {};
    for i := 0 to |rows|
      invariant AreKeys(n, rows[..i], live) && ArePrefixes(rows[..i], prefixes)
    {
      OneMoreKeys(n, rows[..i], rows[i], live);
      OneMorePrefix(rows[..i], rows[i], prefixes);
      assert rows[..i + 1] == rows[..i] + [rows[i]];
      prefixes := prefixes + {(rows[i].userId, rows[i].id)};
      live := live + KeysOf(n, rows[i]);
    }
    assert rows[..|rows|] == rows;
  }

  predicate IsLive(n: Naming, key: ObjectKey, live: set<ObjectKey>, prefixes: set<(Uuid, Uuid)>) {
    key in live ||
    var parts := Split(key, '/');
    |parts| >= 4 && parts[1] == "_pipeline"
    && n.parseUuid(parts[0]).Some? && n.parseUuid(parts[2]).Some?
    && (n.parseUuid(parts[0]).value, n.parseUuid(parts[2]).value) in prefixes
  }

  /** The key is the row's source file, its parsed document, or an artifact of its digest. */
  predicate Names(n: Naming, row: Row, key: ObjectKey) {
    (key != "" && (row.storageKey == Some(key) || row.parsedKey == Some(key)))
    || (row.contentHash.Some? && row.contentHash.value != "" && key in n.artifactKeys(row.contentHash.value))
  }

  lemma KeysAreNames(n: Naming, row: Row, key: ObjectKey)
    ensures key in KeysOf(n, row) <==> Names(n, row, key)
  {
  }

  /** Some row names the key, or the key lies under some row's own artifact directory. */
  ghost predicate Referenced(n: Naming, rows: seq<Row>, key: ObjectKey) {
    || (exists i :: 0 <= i < |rows| && Names(n, rows[i], key))
    || (exists i :: 0 <= i < |rows| && OwnDirectory(n, rows[i], key))
  }

  predicate OwnDirectory(n: Naming, row: Row, key: ObjectKey) {
    var parts := Split(key, '/');
    && |parts| >= 4 && parts[1] == "_pipeline"
    && n.parseUuid(parts[0]) == Some(row.userId) && n.parseUuid(parts[2]) == Some(row.id)
  }

  lemma LiveMeansReferenced(n: Naming, rows: seq<Row>, live: set<ObjectKey>, prefixes: set<(Uuid, Uuid)>, key: ObjectKey)
    requires AreLive(n, rows, live, prefixes)
    ensures IsLive(n, key, live, prefixes) <==> Referenced(n, rows, key)
  {
    forall i | 0 <= i < |rows|
      ensures key in KeysOf(n, rows[i]) <==> Names(n, rows[i], key)
    {
      KeysAreNames(n, rows[i], key);
    }
    var parts := Split(key, '/');
    if |parts| >= 4 && n.parseUuid(parts[0]).Some? && n.parseUuid(parts[2]).Some? {
      var pair := (n.parseUuid(parts[0]).value, n.parseUuid(parts[2]).value);
      assert pair in prefixes <==> exists i :: 0 <= i < |rows| && pair == (rows[i].userId, rows[i].id);
      if pair in prefixes {
        var i :| 0 <= i < |rows| && pair == (rows[i].userId, rows[i].id);
        assert parts[1] == "_pipeline" ==> OwnDirectory(n, rows[i], key);
      }
    }
  }

  /** Too recent to delete; what has no date is never deleted. */
  predicate WithinGrace(modified: Option<Time>, cutoff: int) {
    modified.None? || modified.value > cutoff
  }

  // ----- the pass -----

  ghost predicate Orphan(n: Naming, rows: seq<Row>, entry: Listed, cutoff: int) {
    !Referenced(n, rows, entry.key) && !WithinGrace(entry.modified, cutoff)
  }

  datatype Counters = Counters(scanned: nat, deleted: nat, skippedGrace: nat)

  /** The pass stops here. */
  predicate AtCap(deleted: nat) {
    deleted >= MAX_DELETES_PER_RUN
  }

  /** The entries attempted, in order, are exactly the orphans among the first `s`. */
  ghost predicate Scanned(n: Naming, rows: seq<Row>, listing: seq<Listed>, s: nat, cutoff: int, attempted: seq<nat>)
    requires s <= |listing|
  {
    && (forall i, j :: 0 <= i < j < |attempted| ==> attempted[i] < attempted[j])
    && (forall i {:trigger attempted[i]} :: 0 <= i < |attempted| ==> attempted[i] < s)
    && (forall k {:trigger k in attempted} :: k in attempted <==> 0 <= k < s && Orphan(n, rows, listing[k], cutoff))
  }

  lemma ScanLeft(n: Naming, rows: seq<Row>, listing: seq<Listed>, s: nat, cutoff: int, attempted: seq<nat>)
    requires s < |listing| && Scanned(n, rows, listing, s, cutoff, attempted) && !Orphan(n, rows, listing[s], cutoff)
    ensures Scanned(n, rows, listing, s + 1, cutoff, attempted)
  {
  }

  lemma ScanTried(n: Naming, rows: seq<Row>, listing: seq<Listed>, s: nat, cutoff: int, attempted: seq<nat>)
    requires s < |listing| && Scanned(n, rows, listing, s, cutoff, attempted) && Orphan(n, rows, listing[s], cutoff)
    ensures Scanned(n, rows, listing, s + 1, cutoff, attempted + [s])
  {
  }

  /** The test of one key against the live keys and prefixes. */
  method IsKept(n: Naming, rows: seq<Row>, key: ObjectKey, live: set<ObjectKey>, prefixes: set<(Uuid, Uuid)>) returns (kept: bool)
    requires AreLive(n, rows, live, prefixes)
    ensures kept <==> Referenced(n, rows, key)
  {
    LiveMeansReferenced(n, rows, live, prefixes, key);
    kept := IsLive(n, key, live, prefixes);
  }

  /** No date, or modified less than two hours ago. */
  predicate Young(entry: Listed, now: Time) {
    entry.modified.None? || now < entry.modified.value + 7_200_000_000
  }

  /** How many of the first `s` entries are young and referenced by no row. */
  ghost function YoungCount(n: Naming, rows: seq<Row>, listing: seq<Listed>, s: nat, now: Time): nat
    requires s <= |listing|
  {
    if s == 0 then 0
    else YoungCount(n, rows, listing, s - 1, now) + if !Referenced(n, rows, listing[s - 1].key) && Young(listing[s - 1], now) then 1 else 0
  }

  /** Of the first `s` entries, those attempted are the unreferenced ones that are not young. */
  ghost predicate AttemptsTheOld(n: Naming, rows: seq<Row>, listing: seq<Listed>, s: nat, now: Time, attempted: seq<nat>)
    requires s <= |listing|
  {
    forall k {:trigger k in attempted} :: 0 <= k < s ==> (k in attempted <==> !Referenced(n, rows, listing[k].key) && !Young(listing[k], now))
  }

  method SweepOrphans(n: Naming, rows: seq<Row>, listing: seq<Listed>, answers: seq<Answer>, now: Time)
    returns (counters: Counters, attempted: seq<nat>)
    requires |answers| == |listing|
    ensures counters.deleted <= 1000
    // In order, each at most once: exactly the scanned entries that no row needs and that are old enough.
    ensures counters.scanned <= |listing| && Scanned(n, rows, listing, counters.scanned, now - GRACE_PERIOD, attempted)
    ensures counters.deleted == CountDeleted(answers, attempted)
    // Scanning stops early only at the cap.
    ensures counters.scanned < |listing| ==> counters.deleted == 1000
    // So nothing that a row names is ever attempted, however old it is.
    ensures LeavesNamed(n, rows, listing, attempted)
    // An entry without a date, or modified less than two hours ago, is never attempted; every other unreferenced one is.
    ensures AttemptsTheOld(n, rows, listing, counters.scanned, now, attempted)
    ensures counters.skippedGrace == YoungCount(n, rows, listing, counters.scanned, now)
  {
    var live, prefixes := LoadLiveKeys(n, rows);
    counters, attempted := Counters(0, 0, 0), [];
    for s := 0 to |listing|
      invariant counters.deleted < MAX_DELETES_PER_RUN
      invariant PassAt(n, rows, listing, answers, s, now, counters, attempted)
    {
      counters, attempted := ScanEntry(n, rows, listing, answers, s, now, live, prefixes, counters, attempted);
      if AtCap(counters.deleted) {
        break;
      }
    }
    PassIsRight(n, rows, listing, answers, counters.scanned, now, counters, attempted);
  }

  /** One listed entry: kept, skipped for its age, or attempted. */
  method ScanEntry(n: Naming, rows: seq<Row>, listing: seq<Listed>, answers: seq<Answer>, s: nat, now: Time,
                   live: set<ObjectKey>, prefixes: set<(Uuid, Uuid)>, counters0: Counters, attempted0: seq<nat>)
    returns (counters: Counters, attempted: seq<nat>)
    requires AreLive(n, rows, live, prefixes)
    requires PassAt(n, rows, listing, answers, s, now, counters0, attempted0) && s < |listing|
    ensures PassAt(n, rows, listing, answers, s + 1, now, counters, attempted)
    ensures counters0.deleted <= counters.deleted <= counters0.deleted + 1
  {
    var entry := listing[s];
    var kept := IsKept(n, rows, entry.key, live, prefixes);
    if kept {
      PassEntry(n, rows, listing, answers, s, now, counters0, attempted0);
      return Counters(s + 1, counters0.deleted, counters0.skippedGrace), attempted0;
    }
    if WithinGrace(entry.modified, now - GRACE_PERIOD) {
      PassEntry(n, rows, listing, answers, s, now, counters0, attempted0);
      return Counters(s + 1, counters0.deleted, counters0.skippedGrace + 1), attempted0;
    }
    TryEntry(n, rows, listing, answers, s, now, counters0, attempted0);
    attempted := attempted0 + [s];
    counters := Counters(s + 1, counters0.deleted + if answers[s] == Deleted then 1 else 0, counters0.skippedGrace);
  }

  /** Where the pass stands after `s` entries. */
  ghost predicate PassAt(n: Naming, rows: seq<Row>, listing: seq<Listed>, answers: seq<Answer>, s: nat, now: Time,
                         counters: Counters, attempted: seq<nat>)
  {
    && s <= |listing| == |answers| && counters.scanned == s
    && Scanned(n, rows, listing, s, now - GRACE_PERIOD, attempted)
    && counters.deleted == CountDeleted(answers, attempted)
    && counters.skippedGrace == YoungCount(n, rows, listing, s, now)
  }

  lemma PassEntry(n: Naming, rows: seq<Row>, listing: seq<Listed>, answers: seq<Answer>, s: nat, now: Time,
                  counters: Counters, attempted: seq<nat>)
    requires PassAt(n, rows, listing, answers, s, now, counters, attempted) && s < |listing|
    requires Referenced(n, rows, listing[s].key) || WithinGrace(listing[s].modified, now - GRACE_PERIOD)
    ensures var skipped := counters.skippedGrace + if Referenced(n, rows, listing[s].key) then 0 else 1;
            PassAt(n, rows, listing, answers, s + 1, now, Counters(s + 1, counters.deleted, skipped), attempted)
  {
    ScanLeft(n, rows, listing, s, now - GRACE_PERIOD, attempted);
    YoungNext(n, rows, listing, s, now, !Referenced(n, rows, listing[s].key));
  }

  lemma TryEntry(n: Naming, rows: seq<Row>, listing: seq<Listed>, answers: seq<Answer>, s: nat, now: Time,
                 counters: Counters, attempted: seq<nat>)
    requires PassAt(n, rows, listing, answers, s, now, counters, attempted) && s < |listing|
    requires !Referenced(n, rows, listing[s].key) && !WithinGrace(listing[s].modified, now - GRACE_PERIOD)
    ensures var deleted := counters.deleted + if answers[s] == Deleted then 1 else 0;
            PassAt(n, rows, listing, answers, s + 1, now, Counters(s + 1, deleted, counters.skippedGrace), attempted + [s])
  {
    ScanTried(n, rows, listing, s, now - GRACE_PERIOD, attempted);
    CountOne(answers, attempted, s);
    YoungNext(n, rows, listing, s, now, false);
  }

  lemma YoungNext(n: Naming, rows: seq<Row>, listing: seq<Listed>, s: nat, now: Time, skipped: bool)
    requires s < |listing| && (skipped <==> !Referenced(n, rows, listing[s].key) && WithinGrace(listing[s].modified, now - GRACE_PERIOD))
    ensures YoungCount(n, rows, listing, s + 1, now) == YoungCount(n, rows, listing, s, now) + if skipped then 1 else 0
  {
  }

  lemma CountOne(answers: seq<Answer>, attempted: seq<nat>, s: nat)
    requires s < |answers| && forall i {:trigger attempted[i]} :: 0 <= i < |attempted| ==> attempted[i] < |answers|
    ensures CountDeleted(answers, attempted + [s]) == CountDeleted(answers, attempted) + if answers[s] == Deleted then 1 else 0
  {
    assert (attempted + [s])[..|attempted|] == attempted;
  }

  lemma PassIsRight(n: Naming, rows: seq<Row>, listing: seq<Listed>, answers: seq<Answer>, s: nat, now: Time,
                    counters: Counters, attempted: seq<nat>)
    requires PassAt(n, rows, listing, answers, s, now, counters, attempted)
    ensures AttemptsTheOld(n, rows, listing, s, now, attempted) && LeavesNamed(n, rows, listing, attempted)
  {
    NoneNamed(n, rows, listing, attempted, now - GRACE_PERIOD);
  }

  function CountDeleted(answers: seq<Answer>, attempted: seq<nat>): nat
    requires forall i {:trigger attempted[i]} :: 0 <= i < |attempted| ==> attempted[i] < |answers|
  {
    if attempted == [] then 0
    else CountDeleted(answers, attempted[..|attempted| - 1]) + if answers[attempted[|attempted| - 1]] == Deleted then 1 else 0
  }

  // ----- what a document row protects -----

  /** None of the entries attempted is named by a row. */
  ghost predicate LeavesNamed(n: Naming, rows: seq<Row>, listing: seq<Listed>, attempted: seq<nat>) {
    forall k, r {:trigger listing[k], rows[r]} :: 0 <= k < |listing| && 0 <= r < |rows| && k in attempted ==>
      !Names(n, rows[r], listing[k].key)
  }

  lemma NoneNamed(n: Naming, rows: seq<Row>, listing: seq<Listed>, attempted: seq<nat>, cutoff: int)
    requires forall k {:trigger k in attempted} :: k in attempted ==> 0 <= k < |listing| && Orphan(n, rows, listing[k], cutoff)
    ensures LeavesNamed(n, rows, listing, attempted)
  {
    forall k, r | 0 <= k < |listing| && 0 <= r < |rows| && k in attempted
      ensures !Names(n, rows[r], listing[k].key)
    {
      if Names(n, rows[r], listing[k].key) { RowsKeepTheirObjects(n, rows, r, listing[k], cutoff); }
    }
  }

  /** What a row names is never an orphan. */
  lemma RowsKeepTheirObjects(n: Naming, rows: seq<Row>, r: nat, entry: Listed, cutoff: int)
    requires r < |rows| && Names(n, rows[r], entry.key)
    ensures !Orphan(n, rows, entry, cutoff)
  {
    assert Referenced(n, rows, entry.key);
  }

  lemma {:induction false} SplitJoins(s: string, at: char)
    ensures forall i :: 0 <= i < |Split(s, at)| ==> at !in Split(s, at)[i]
    ensures JoinWith(Split(s, at), at) == s
  {
    if s != "" {
      SplitJoins(s[1..], at);
      var rest := Split(s[1..], at);
      if s[0] == at {
        assert ([""] + rest)[1..] == rest;
      } else {
        assert ([[s[0]] + rest[0]] + rest[1..])[1..] == rest[1..];
      }
      assert s == [s[0]] + s[1..];
    }
  }

  function JoinWith(parts: seq<string>, at: char): string
    requires parts != []
  {
    if |parts| == 1 then parts[0] else parts[0] + [at] + JoinWith(parts[1..], at)
  }
}
