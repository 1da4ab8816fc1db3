// The calls an S3 upload makes to the service, as a function of the upload and of whether its key is
// free, and what is left when one of them fails.
module S3Calls {
  import opened Types
  import opened StorageBase
  import opened StoredContent

  datatype Step = Create | SendPart | LookUp | Put | Complete | Copy | Remove

  /** Parts sent while the chunks arrive, and the bytes then still in the buffer. */
  function Spill(partSize: nat, chunks: seq<Bytes>): (r: (nat, nat))
    ensures r.0 == 0 ==> r.1 == |Concat(chunks)|
  {
    if chunks == [] then (0, 0)
    else
      var (parts, held) := Spill(partSize, chunks[..|chunks| - 1]);
      var now := held + |chunks[|chunks| - 1]|;
      if now > partSize || (parts > 0 && now == partSize) then (parts + 1, now - partSize) else (parts, now)
  }

  lemma {:induction false} SpillGrows(partSize: nat, chunks: seq<Bytes>, n: nat)
    requires n <= |chunks|
    ensures Spill(partSize, chunks[..n]).0 <= Spill(partSize, chunks).0
    decreases |chunks|
  {
    if n == |chunks| {
      assert chunks[..n] == chunks;
    } else {
      SpillGrows(partSize, chunks[..|chunks| - 1], n);
      assert chunks[..|chunks| - 1][..n] == chunks[..n];
    }
  }

  /** How many chunks are consumed before one is rejected. */
  function Accepted(c: Codecs, filename: string, maxBytes: nat, chunks: seq<Bytes>): (n: nat)
    ensures n <= |chunks|
  {
    if Consume(c, filename, maxBytes, chunks).None? then |chunks|
    else Accepted(c, filename, maxBytes, chunks[..|chunks| - 1])
  }

  lemma {:induction false} AcceptedAtLeast(c: Codecs, filename: string, maxBytes: nat, chunks: seq<Bytes>, n: nat)
    requires n <= |chunks| && Consume(c, filename, maxBytes, chunks[..n]).None?
    ensures n <= Accepted(c, filename, maxBytes, chunks)
    ensures n < |chunks| && Consume(c, filename, maxBytes, chunks[..n + 1]).Some? ==> Accepted(c, filename, maxBytes, chunks) == n
    decreases |chunks|
  {
    if n == |chunks| {
      assert chunks[..n] == chunks;
    } else {
      var less := chunks[..|chunks| - 1];
      assert less[..n] == chunks[..n];
      AcceptedAtLeast(c, filename, maxBytes, less, n);
      if n == |less| {
        assert chunks[..n + 1] == chunks && chunks[..n] == less;
      } else {
        assert less[..n + 1] == chunks[..n + 1];
        if Consume(c, filename, maxBytes, chunks[..n + 1]).Some? { RejectedStays(c, filename, maxBytes, chunks, n + 1); }
      }
    }
  }

  lemma RejectedStays(c: Codecs, filename: string, maxBytes: nat, chunks: seq<Bytes>, n: nat)
    requires n <= |chunks| && Consume(c, filename, maxBytes, chunks[..n]).Some?
    ensures Consume(c, filename, maxBytes, chunks).Some?
  {
    RejectionLasts(c, Upload("", filename, maxBytes, chunks, false), n);
  }

  /** What is spilled until the stream ends or is rejected. */
  function Spilling(c: Codecs, partSize: nat, up: Upload): (nat, nat) {
    Spill(partSize, up.chunks[..Accepted(c, up.filename, up.maxBytes, up.chunks)])
  }

  function Streamed(parts: nat): seq<Step> {
    if parts == 0 then [] else [Create] + seq(parts, _ => SendPart)
  }

  /** The calls that store the bytes once their key is known to be free. */
  function Storing(spill: (nat, nat)): seq<Step> {
    if spill.0 == 0 then [Put] else (if spill.1 > 0 then [SendPart] else []) + [Complete, Copy, Remove]
  }

  /** All calls of an upload of which none fails. */
  function Script(c: Codecs, partSize: nat, up: Upload, free: bool): seq<Step> {
    var spill := Spilling(c, partSize, up);
    if Admit(c, up).Err? then Streamed(spill.0)
    else if !free then Streamed(spill.0) + [LookUp]
    else Streamed(spill.0) + [LookUp] + Storing(spill)
  }

  /** The calls from number `from` on are `ran`, then one that fails unless `ok`. */
  ghost predicate Ran(faults: nat -> bool, from: nat, ran: seq<Step>, ok: bool) {
    && (forall i :: from <= i < from + |ran| ==> !faults(i))
    && (ok || faults(from + |ran|))
  }

  /** How an upload that made these calls ended. */
  function EndingOf(ran: seq<Step>, free: bool): Ending {
    if LookUp !in ran then Unseen
    else if !free then Found
    else if Put in ran || Copy in ran then Published
    else GaveUp
  }

  /** Streaming neither looks up nor stores. */
  lemma StreamedIsPlain(parts: nat, ran: seq<Step>, more: seq<Step>)
    requires ran <= Streamed(parts)
    ensures forall step: Step :: step in ran ==> step.Create? || step.SendPart?
    ensures forall step: Step :: !step.Create? && !step.SendPart? ==> (step in ran + more <==> step in more)
    ensures Create in ran + more <==> Create in ran || Create in more
  {
  }

  lemma RanConcat(faults: nat -> bool, from: nat, middle: nat, ran: seq<Step>, more: seq<Step>, ok: bool)
    requires middle == from + |ran| && Ran(faults, from, ran, true) && Ran(faults, middle, more, ok)
    ensures Ran(faults, from, ran + more, ok)
  {
  }

  /** One more part, or a failure on the way to it. */
  lemma StreamedNext(parts: nat, created: bool)
    requires parts > 0 ==> !created
    ensures Streamed(parts + 1) == Streamed(parts) + (if parts == 0 then [Create] else []) + [SendPart]
    ensures Streamed(parts) + (if created then [Create] else []) < Streamed(parts + 1)
    ensures Create in Streamed(parts) + (if created then [Create] else []) <==> parts > 0 || created
    ensures Create in Streamed(parts + 1)
  {
  }

  lemma RanFirst(faults: nat -> bool, from: nat, step: Step, more: seq<Step>, ok: bool)
    requires !faults(from) && Ran(faults, from + 1, more, ok)
    ensures Ran(faults, from, [step] + more, ok)
  {
  }

  lemma LookUpFirst(spill: (nat, nat), ran: seq<Step>)
    requires ran <= Storing(spill)
    ensures forall step: Step :: step in [LookUp] + ran <==> step == LookUp || step in ran
    ensures [LookUp] + ran <= [LookUp] + Storing(spill) && ([LookUp] + ran == [LookUp] + Storing(spill) <==> ran == Storing(spill))
  {
  }

  /** Streaming failed or the stream was rejected: the key is never looked up. */
  lemma NotSeen(c: Codecs, partSize: nat, up: Upload, free: bool, ran: seq<Step>)
    requires var all := Streamed(Spilling(c, partSize, up).0); ran < all || (ran == all && Admit(c, up).Err?)
    ensures var script := Script(c, partSize, up, free);
            ran <= script && (ran == script <==> ran == Streamed(Spilling(c, partSize, up).0)) && EndingOf(ran, free) == Unseen
    ensures Complete !in ran
  {
    StreamedIsPlain(Spilling(c, partSize, up).0, ran, []);
  }

  /** The calls of an admitted upload: streaming, then the look-up and what follows it. */
  lemma Seen(c: Codecs, partSize: nat, up: Upload, free: bool, rest: seq<Step>)
    requires var spill := Spilling(c, partSize, up);
             Admit(c, up).Ok? && rest <= [LookUp] + if free then Storing(spill) else []
    ensures var spill, script := Spilling(c, partSize, up), Script(c, partSize, up, free);
            var ran := Streamed(spill.0) + rest;
            && ran <= script && (ran == script <==> rest == [LookUp] + if free then Storing(spill) else [])
            && EndingOf(ran, free) == EndingOf(rest, free)
            && (Complete in ran <==> Complete in rest) && (Remove in ran <==> Remove in rest)
            && (Create in ran <==> Create in Streamed(spill.0))
  {
    var spill := Spilling(c, partSize, up);
    StreamedIsPlain(spill.0, Streamed(spill.0), rest);
    assert Streamed(spill.0) + [LookUp] + Storing(spill) == Streamed(spill.0) + ([LookUp] + Storing(spill));
    assert Create !in [LookUp] + if free then Storing(spill) else [];
  }

  /** The calls of a multipart upload after the look-up: the rest, then `closing`. */
  lemma ClosingSteps(spill: (nat, nat), closing: seq<Step>)
    requires spill.0 > 0 && closing <= [Complete, Copy, Remove]
    ensures var ran := (if spill.1 > 0 then [SendPart] else []) + closing;
            && ran <= Storing(spill) && (ran == Storing(spill) <==> |closing| == 3)
            && (forall step: Step :: step in ran <==> step in closing || (step == SendPart && spill.1 > 0))
  {
  }

  /** Look-up, put, completion, copy and removal happen once at most; the last three end the script. */
  lemma Positions(c: Codecs, partSize: nat, up: Upload, free: bool)
    ensures var script := Script(c, partSize, up, free);
            var spill, stores := Spilling(c, partSize, up), Admit(c, up).Ok? && free;
            && (stores && spill.0 > 0 ==> |script| >= 3)
            && (forall i :: 0 <= i < |script| ==> (script[i] == LookUp <==> Admit(c, up).Ok? && i == |Streamed(spill.0)|))
            && (forall i :: 0 <= i < |script| ==> (script[i] == Put <==> stores && spill.0 == 0 && i == |script| - 1))
            && (forall i :: 0 <= i < |script| ==> (script[i] == Complete <==> stores && spill.0 > 0 && i == |script| - 3))
            && (forall i :: 0 <= i < |script| ==> (script[i] == Copy <==> stores && spill.0 > 0 && i == |script| - 2))
            && (forall i :: 0 <= i < |script| ==> (script[i] == Remove <==> stores && spill.0 > 0 && i == |script| - 1))
            && (stores && spill.0 > 0 ==> |Streamed(spill.0)| < |script| - 3)
  {
  }

  lemma InPrefix(script: seq<Step>, ran: seq<Step>, step: Step, at: int)
    requires ran <= script && (forall i :: 0 <= i < |script| ==> (script[i] == step <==> i == at)) && at < |script|
    ensures step in ran <==> 0 <= at < |ran|
  {
    assert 0 <= at < |ran| ==> ran[at] == script[at];
  }

  /** Which steps of an upload that stores by multipart have been made, by their number. */
  lemma StepsMade(c: Codecs, partSize: nat, up: Upload, ran: seq<Step>)
    requires Admit(c, up).Ok? && Spilling(c, partSize, up).0 > 0 && ran <= Script(c, partSize, up, true)
    ensures var n := |Script(c, partSize, up, true)|;
            && n >= 3
            && (Complete in ran <==> |ran| > n - 3) && (Copy in ran <==> |ran| > n - 2) && (Remove in ran <==> |ran| == n)
            && Put !in ran && (Copy in ran ==> LookUp in ran)
  {
    var script := Script(c, partSize, up, true);
    Positions(c, partSize, up, true);
    InPrefix(script, ran, Complete, |script| - 3);
    InPrefix(script, ran, Copy, |script| - 2);
    InPrefix(script, ran, Remove, |script| - 1);
    InPrefix(script, ran, LookUp, |Streamed(Spilling(c, partSize, up).0)|);
  }

  /** Which failing call leaves what: the staging object alone, both objects, or nothing. */
  lemma WhatAFailureLeaves(c: Codecs, partSize: nat, up: Upload, free: bool, ran: seq<Step>)
    requires ran < Script(c, partSize, up, free)
    ensures var failing := Script(c, partSize, up, free)[|ran|];
            && (failing == Copy <==> Complete in ran && Copy !in ran)
            && (failing == Remove <==> Complete in ran && Copy in ran)
            && (failing != Copy && failing != Remove <==> Complete !in ran)
            && Remove !in ran && (EndingOf(ran, free) == Published <==> failing == Remove)
  {
    var script := Script(c, partSize, up, free);
    Positions(c, partSize, up, free);
    if Admit(c, up).Ok? && free && Spilling(c, partSize, up).0 > 0 {
      StepsMade(c, partSize, up, ran);
    }
  }

  /** A staging object is left exactly when the copy, or else the removal after it, is the first call to fail. */
  lemma StagingStaysIff(faults: nat -> bool, from: nat, c: Codecs, partSize: nat, up: Upload, free: bool, ran: seq<Step>)
    requires var script := Script(c, partSize, up, free); ran <= script && Ran(faults, from, ran, ran == script)
    ensures var n := |Script(c, partSize, up, free)|;
            Complete in ran && Remove !in ran <==>
              && Admit(c, up).Ok? && free && Spilling(c, partSize, up).0 > 0 && n >= 3
              && (forall i :: from <= i < from + n - 2 ==> !faults(i)) && (faults(from + n - 2) || faults(from + n - 1))
  {
    Positions(c, partSize, up, free);
    if Admit(c, up).Ok? && free && Spilling(c, partSize, up).0 > 0 {
      StepsMade(c, partSize, up, ran);
    }
  }

  /** One chunk just over a part's size makes seven calls. The staging object is left if the copy fails, or the removal. */
  lemma OneFault(c: Codecs, partSize: nat, up: Upload, data: Bytes, faults: nat -> bool, n: nat, ran: seq<Step>)
    requires up.chunks == [data] && |data| == partSize + 1 && Admit(c, up).Ok?
    requires var script := Script(c, partSize, up, true); ran <= script && Ran(faults, 0, ran, ran == script)
    requires forall i :: faults(i) <==> i == n
    ensures Script(c, partSize, up, true) == [Create, SendPart, LookUp, SendPart, Complete, Copy, Remove]
    ensures Complete in ran && Remove !in ran <==> n == 5 || n == 6
    ensures EndingOf(ran, true) == Published <==> n >= 6
  {
    assert up.chunks[..1] == up.chunks && up.chunks[..0] == [];
    assert Spill(partSize, up.chunks) == (1, 1);
    assert Streamed(1) == [Create, SendPart];
    StepsMade(c, partSize, up, ran);
    assert n < |ran| ==> !faults(n);
  }
}
