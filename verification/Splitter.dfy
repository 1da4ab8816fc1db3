// Overlapping token windows over a text, each fitted to the embedding budget. The tokenizer is
// arbitrary: nothing is assumed about how encoding and decoding relate.
module Splitter {

  type TokenId = int

  datatype Tokenizer = Tokenizer(encode: string -> seq<TokenId>, decode: seq<TokenId> -> string)

  datatype Outcome<+T> = Ok(value: T) | ValueError(message: string)

  function Max(x: int, y: int): int {
    if x >= y then x else y
  }

  // ----- specification -----

  /** The longest prefix, of at most `size` tokens, whose decoding fits the budget; else empty. */
  function Shrunk(t: Tokenizer, maxTokens: int, ids: seq<TokenId>, size: nat): string
    requires size <= |ids|
  {
    if size == 0 then ""
    else if |t.encode(t.decode(ids[..size]))| <= maxTokens then t.decode(ids[..size])
    else Shrunk(t, maxTokens, ids, size - 1)
  }

  function Fitted(t: Tokenizer, maxTokens: nat, text: string): string {
    var ids := t.encode(text);
    if |ids| <= maxTokens then text else Shrunk(t, maxTokens, ids, maxTokens)
  }

  function End(n: nat, limit: nat, start: nat): nat
    requires start <= n
  {
    if start + limit <= n then start + limit else n
  }

  /** The windows from `start` on: `limit` tokens each, `step` apart, until one reaches the end. */
  function Windows(ids: seq<TokenId>, limit: nat, step: nat, start: nat): (windows: seq<seq<TokenId>>)
    requires start < |ids| && 1 <= step <= limit
    ensures windows != []
    decreases |ids| - start
  {
    [ids[start..End(|ids|, limit, start)]] + if start + limit >= |ids| then [] else Windows(ids, limit, step, start + step)
  }

  /** The fitted pieces of a list of windows, without the empty ones. */
  function Pieces(t: Tokenizer, maxTokens: nat, prefix: string, windows: seq<seq<TokenId>>): seq<string> {
    if windows == [] then []
    else
      var piece := Fitted(t, maxTokens, prefix + t.decode(windows[0]));
      (if piece == "" then [] else [piece]) + Pieces(t, maxTokens, prefix, windows[1..])
  }

  class EmbeddingTextSplitter {
    const tokenizer: Tokenizer
    const maxTokens: nat
    const overlapTokens: nat

    ghost predicate Valid() {
      overlapTokens < maxTokens
    }

    constructor (tokenizer: Tokenizer, maxTokens: nat, overlapTokens: nat)
      requires overlapTokens < maxTokens
      ensures Valid() && this.tokenizer == tokenizer && this.maxTokens == maxTokens && this.overlapTokens == overlapTokens
    {
      this.tokenizer, this.maxTokens, this.overlapTokens := tokenizer, maxTokens, overlapTokens;
    }

    /** The checks of the constructor. */
    static method Create(tokenizer: Tokenizer, contentBudget: int, overlapTokens: int)
      returns (r: Outcome<EmbeddingTextSplitter>)
      ensures r.Ok? <==> 0 <= overlapTokens < contentBudget
      ensures r.Ok? ==> fresh(r.value) && r.value.Valid() && r.value.tokenizer == tokenizer
                        && r.value.maxTokens == contentBudget && r.value.overlapTokens == overlapTokens
    {
      if contentBudget <= 0 {
        return ValueError("max_tokens must be positive");
      }
      if !(0 <= overlapTokens < contentBudget) {
        return ValueError("overlap_tokens must be in [0, max_tokens)");
      }
      var splitter := new EmbeddingTextSplitter(tokenizer, contentBudget, overlapTokens);
      r := Ok(splitter);
    }

    method Fit(text: string) returns (fitted: string)
      ensures fitted == Fitted(tokenizer, maxTokens, text)
    {
      var ids := tokenizer.encode(text);
      if |ids| <= maxTokens {
        return text;
      }
      var size := maxTokens;
      while size > 0
        invariant 0 <= size <= maxTokens
        invariant Fitted(tokenizer, maxTokens, text) == Shrunk(tokenizer, maxTokens, ids, size)
      {
        var candidate := tokenizer.decode(ids[..size]);
        if |tokenizer.encode(candidate)| <= maxTokens {
          return candidate;
        }
        size := size - 1;
      }
      return "";
    }

    function BodyLimit(prefix: string): int {
      maxTokens - if prefix == "" then 0 else |tokenizer.encode(prefix)|
    }

    function Step(prefix: string): int {
      Max(1, BodyLimit(prefix) - overlapTokens)
    }

    /** The generator's output as one sequence; the prefix check fails before anything is yielded. */
    method Split(text: string, prefix: string) returns (r: Outcome<seq<string>>, ghost windows: seq<seq<TokenId>>)
      requires Valid()
      ensures r.ValueError? <==> BodyLimit(prefix) <= 0
      ensures r.Ok? && tokenizer.encode(text) == [] ==>
                var fitted := Fitted(tokenizer, maxTokens, prefix);
                r.value == if fitted == "" then [] else [fitted]
      ensures r.Ok? && tokenizer.encode(text) != [] ==>
                && windows == Windows(tokenizer.encode(text), BodyLimit(prefix), Step(prefix), 0)
                && r.value == Pieces(tokenizer, maxTokens, prefix, windows)
      // What the windows are: full ones, each sharing with the next what the caller asked for, as far as there is room.
      ensures r.Ok? && tokenizer.encode(text) != [] ==>
                Spread(windows, tokenizer.encode(text), maxTokens, overlapTokens,
                       if prefix == "" then 0 else |tokenizer.encode(prefix)|)
    {
      windows := [];
      var prefixIds: seq<TokenId> := [];
      if prefix != "" {
        prefixIds := tokenizer.encode(prefix);
      }
      assert maxTokens - |prefixIds| == BodyLimit(prefix);
      if |prefixIds| >= maxTokens {
        return ValueError("Context prefix does not leave room for content"), windows;
      }
      var bodyIds := tokenizer.encode(text);
      var bodyLimit := maxTokens - |prefixIds|;
      if bodyIds == [] {
        var fitted := Fit(prefix);
        return Ok(if fitted != "" then [fitted] else []), windows;
      }
      var pieces;
      pieces, windows := SplitSpread(prefix, bodyIds, bodyLimit, Max(1, bodyLimit - overlapTokens), |prefixIds|);
      return Ok(pieces), windows;
    }

    method SplitSpread(prefix: string, bodyIds: seq<TokenId>, bodyLimit: nat, step: nat, ghost used: nat)
      returns (pieces: seq<string>, ghost windows: seq<seq<TokenId>>)
      requires bodyIds != [] && used < maxTokens && bodyLimit == maxTokens - used && step == Max(1, bodyLimit - overlapTokens)
      ensures windows == Windows(bodyIds, bodyLimit, step, 0) && pieces == Pieces(tokenizer, maxTokens, prefix, windows)
      ensures Spread(windows, bodyIds, maxTokens, overlapTokens, used)
    {
      pieces := SplitBody(prefix, bodyIds, bodyLimit, step);
      windows := Windows(bodyIds, bodyLimit, step, 0);
      WindowsAreSpread(bodyIds, maxTokens, overlapTokens, used, windows);
    }

    method SplitBody(prefix: string, bodyIds: seq<TokenId>, bodyLimit: nat, step: nat) returns (pieces: seq<string>)
      requires bodyIds != [] && 1 <= step <= bodyLimit
      ensures pieces == Pieces(tokenizer, maxTokens, prefix, Windows(bodyIds, bodyLimit, step, 0))
    {
      pieces := [];
      var start := 0;
      ghost var all := Pieces(tokenizer, maxTokens, prefix, Windows(bodyIds, bodyLimit, step, 0));
      ghost var rest := all;
      while start < |bodyIds|
        invariant 0 <= start < |bodyIds|
        invariant rest == Pieces(tokenizer, maxTokens, prefix, Windows(bodyIds, bodyLimit, step, start))
        invariant all == pieces + rest
      {
        var tokenWindow := bodyIds[start..End(|bodyIds|, bodyLimit, start)];
        var fitted := Fit(prefix + tokenizer.decode(tokenWindow));
        rest := PeelWindow(tokenizer, maxTokens, prefix, bodyIds, bodyLimit, step, start, rest, fitted);
        AppendPiece(all, pieces, fitted, rest);
        if fitted != "" {
          pieces := pieces + [fitted];
        }
        if start + bodyLimit >= |bodyIds| {
          break;
        }
        start := start + step;
      }
    }
  }

  lemma AppendPiece(all: seq<string>, pieces: seq<string>, fitted: string, rest: seq<string>)
    requires all == pieces + ((if fitted == "" then [] else [fitted]) + rest)
    ensures all == (if fitted == "" then pieces else pieces + [fitted]) + rest
    ensures rest == [] ==> all == if fitted == "" then pieces else pieces + [fitted]
  {
  }

  lemma PeelWindow(t: Tokenizer, maxTokens: nat, prefix: string, ids: seq<TokenId>, limit: nat, step: nat, start: nat,
                   pieces: seq<string>, fitted: string)
    returns (rest: seq<string>)
    requires start < |ids| && 1 <= step <= limit && pieces == Pieces(t, maxTokens, prefix, Windows(ids, limit, step, start))
    requires fitted == Fitted(t, maxTokens, prefix + t.decode(ids[start..End(|ids|, limit, start)]))
    ensures rest == if start + limit >= |ids| then [] else Pieces(t, maxTokens, prefix, Windows(ids, limit, step, start + step))
    ensures pieces == (if fitted == "" then [] else [fitted]) + rest
  {
    var windows := Windows(ids, limit, step, start);
    assert windows[1..] == if start + limit >= |ids| then [] else Windows(ids, limit, step, start + step);
    rest := Pieces(t, maxTokens, prefix, windows[1..]);
  }

  // ----- every piece fits -----

  lemma {:induction false} ShrunkFits(t: Tokenizer, maxTokens: int, ids: seq<TokenId>, size: nat)
    requires size <= |ids|
    ensures var s := Shrunk(t, maxTokens, ids, size);
            s == "" || (|t.encode(s)| <= maxTokens && exists k :: 0 < k <= size && s == t.decode(ids[..k]))
  {
    if size > 0 && |t.encode(t.decode(ids[..size]))| > maxTokens { ShrunkFits(t, maxTokens, ids, size - 1); }
  }

  /** The result is the longest prefix that fits: no longer one does. */
  lemma {:induction false} ShrunkIsLongest(t: Tokenizer, maxTokens: int, ids: seq<TokenId>, size: nat, k: nat)
    requires 0 < k <= size <= |ids| && |t.encode(t.decode(ids[..k]))| <= maxTokens
    ensures exists m :: k <= m <= size && Shrunk(t, maxTokens, ids, size) == t.decode(ids[..m])
  {
    if |t.encode(t.decode(ids[..size]))| > maxTokens { ShrunkIsLongest(t, maxTokens, ids, size - 1, k); }
  }

  /** For any tokenizer whatever, what is yielded re-encodes within the budget. */
  lemma {:induction false} PiecesFit(t: Tokenizer, maxTokens: nat, prefix: string, windows: seq<seq<TokenId>>, i: nat)
    requires i < |Pieces(t, maxTokens, prefix, windows)|
    ensures var piece := Pieces(t, maxTokens, prefix, windows)[i];
            piece != "" && |t.encode(piece)| <= maxTokens
  {
    var text := prefix + t.decode(windows[0]);
    var fitted := Fitted(t, maxTokens, text);
    if |t.encode(text)| > maxTokens { ShrunkFits(t, maxTokens, t.encode(text), maxTokens); }
    if fitted == "" {
      PiecesFit(t, maxTokens, prefix, windows[1..], i);
    } else if i > 0 {
      PiecesFit(t, maxTokens, prefix, windows[1..], i - 1);
    }
  }

  // ----- what the windows do -----

  /** The tokens a window shares with the one before it. */
  function Shared(limit: nat, step: nat): nat
    requires step <= limit
  {
    limit - step
  }

  /** Concatenation of the windows, each without what it shares with its predecessor. */
  function Stitched(windows: seq<seq<TokenId>>, shared: nat): seq<TokenId> {
    if windows == [] then []
    else windows[0] + StitchedRest(windows[1..], shared)
  }

  function StitchedRest(windows: seq<seq<TokenId>>, shared: nat): seq<TokenId> {
    if windows == [] then []
    else (if shared <= |windows[0]| then windows[0][shared..] else []) + StitchedRest(windows[1..], shared)
  }

  lemma {:induction false} WindowsCoverFrom(ids: seq<TokenId>, limit: nat, step: nat, start: nat)
    requires start < |ids| && 1 <= step <= limit
    ensures Stitched(Windows(ids, limit, step, start), Shared(limit, step)) == ids[start..]
    decreases |ids| - start
  {
    var windows := Windows(ids, limit, step, start);
    if start + limit >= |ids| {
      assert windows[1..] == [];
    } else {
      var rest := Windows(ids, limit, step, start + step);
      WindowsCoverFrom(ids, limit, step, start + step);
      assert windows[1..] == rest;
      assert rest[0] == ids[start + step..End(|ids|, limit, start + step)];
      DropOverlap(ids, start, step, limit, rest[0], StitchedRest(rest[1..], limit - step));
    }
  }

  /** The tokens from `start` on are a full window and what the next one adds behind the overlap. */
  lemma DropOverlap(ids: seq<TokenId>, start: nat, step: nat, limit: nat, next: seq<TokenId>, more: seq<TokenId>)
    requires start + limit < |ids| && 1 <= step <= limit
    requires ids[start + step..] == next + more && |next| >= limit - step
    ensures ids[start..start + limit] + (next[limit - step..] + more) == ids[start..]
  {
    var shared := limit - step;
    assert ids[start + limit..] == ids[start + step..][shared..];
    assert (next + more)[shared..] == next[shared..] + more;
  }

  /** Dropping each overlap and concatenating gives back the body tokens. */
  lemma WindowsCover(ids: seq<TokenId>, limit: nat, step: nat)
    requires ids != [] && 1 <= step <= limit
    ensures Stitched(Windows(ids, limit, step, 0), Shared(limit, step)) == ids
  {
    WindowsCoverFrom(ids, limit, step, 0);
  }

  /** A full window and the one behind it. */
  lemma TwoWindows(ids: seq<TokenId>, limit: nat, step: nat, start: nat)
    requires start + limit < |ids| && 1 <= step <= limit
    ensures var windows := Windows(ids, limit, step, start);
            && |windows| > 1 && windows[1..] == Windows(ids, limit, step, start + step)
            && |windows[0]| == limit && |windows[1]| > Shared(limit, step)
            && windows[0][step..] == windows[1][..Shared(limit, step)]
  {
    var rest := Windows(ids, limit, step, start + step);
    assert rest[0] == ids[start + step..End(|ids|, limit, start + step)];
    assert Windows(ids, limit, step, start) == [ids[start..start + limit]] + rest;
  }

  /**
   * Consecutive windows overlap by exactly limit - step tokens, every window but the last is full,
   * each brings a new token, and the last one ends where the body ends.
   */
  lemma {:induction false} WindowsOverlap(ids: seq<TokenId>, limit: nat, step: nat, start: nat, i: nat)
    requires start < |ids| && 1 <= step <= limit && i < |Windows(ids, limit, step, start)|
    ensures var windows := Windows(ids, limit, step, start);
            && 0 < |windows[i]| <= limit
            && (i + 1 < |windows| ==>
                  && |windows[i]| == limit && |windows[i + 1]| > Shared(limit, step)
                  && windows[i][step..] == windows[i + 1][..Shared(limit, step)])
            && (i + 1 == |windows| ==> |windows[i]| <= |ids| - start && windows[i] == ids[|ids| - |windows[i]|..])
    decreases |ids| - start
  {
    var windows := Windows(ids, limit, step, start);
    if start + limit < |ids| {
      TwoWindows(ids, limit, step, start);
      if i > 0 {
        WindowsOverlap(ids, limit, step, start + step, i - 1);
        assert windows[i] == windows[1..][i - 1];
        assert i + 1 < |windows| ==> windows[i + 1] == windows[1..][i];
      }
    }
  }

  /**
   * All windows but the last have `limit` tokens, each shares exactly its last `shared` tokens with
   * the next, which has more than those, and without them the windows give back the body.
   */
  ghost predicate Overlapping(windows: seq<seq<TokenId>>, ids: seq<TokenId>, limit: nat, shared: nat) {
    && windows != [] && shared < limit
    && (forall i {:trigger OverlapAt(windows, limit, shared, i)} :: 0 <= i < |windows| ==> OverlapAt(windows, limit, shared, i))
    && Stitched(windows, shared) == ids
  }

  predicate OverlapAt(windows: seq<seq<TokenId>>, limit: nat, shared: nat, i: nat)
    requires i < |windows| && shared <= limit
  {
    && 0 < |windows[i]| <= limit
    && (i + 1 < |windows| ==>
          |windows[i]| == limit && |windows[i + 1]| > shared && windows[i][limit - shared..] == windows[i + 1][..shared])
  }

  /** The windows next to a prefix of `used` tokens: they share `overlap` tokens, or all but one if there is less room. */
  ghost predicate Spread(windows: seq<seq<TokenId>>, ids: seq<TokenId>, maxTokens: nat, overlap: nat, used: nat) {
    && used < maxTokens
    && Overlapping(windows, ids, maxTokens - used, if overlap < maxTokens - used - 1 then overlap else maxTokens - used - 1)
  }

  lemma WindowsAreSpread(ids: seq<TokenId>, maxTokens: nat, overlap: nat, used: nat, windows: seq<seq<TokenId>>)
    requires ids != [] && used < maxTokens && windows == Windows(ids, maxTokens - used, Max(1, maxTokens - used - overlap), 0)
    ensures Spread(windows, ids, maxTokens, overlap, used)
  {
    var limit := maxTokens - used;
    WindowsAreOverlapping(ids, limit, Max(1, limit - overlap), if overlap < limit - 1 then overlap else limit - 1, windows);
  }

  lemma WindowsAreOverlapping(ids: seq<TokenId>, limit: nat, step: nat, shared: nat, windows: seq<seq<TokenId>>)
    requires ids != [] && 1 <= step <= limit && shared == limit - step && windows == Windows(ids, limit, step, 0)
    ensures Overlapping(windows, ids, limit, shared)
  {
    WindowsCover(ids, limit, step);
    forall i | 0 <= i < |windows|
      ensures OverlapAt(windows, limit, shared, i)
    {
      WindowsOverlap(ids, limit, step, 0, i);
    }
  }

  /** Division rounding up, of a number that may be zero or negative. */
  function CeilDiv(x: int, step: nat): nat
    requires step >= 1
  {
    if x <= 0 then 0 else 1 + CeilDiv(x - step, step)
  }

  lemma {:induction false} CeilDivIsCeiling(x: int, step: nat)
    requires step >= 1 && x > 0
    ensures (CeilDiv(x, step) - 1) * step < x <= CeilDiv(x, step) * step
    decreases x
  {
    if x > step {
      CeilDivIsCeiling(x - step, step);
    } else {
      assert CeilDiv(x - step, step) == 0;
    }
  }

  lemma {:induction false} WindowCountFrom(ids: seq<TokenId>, limit: nat, step: nat, start: nat)
    requires start < |ids| && 1 <= step <= limit
    ensures |Windows(ids, limit, step, start)| == 1 + CeilDiv(|ids| - start - limit, step)
    decreases |ids| - start
  {
    if start + limit < |ids| { WindowCountFrom(ids, limit, step, start + step); }
  }

  /** One window when the body fits, else 1 + ceil((n - limit) / step). */
  lemma WindowCount(ids: seq<TokenId>, limit: nat, step: nat)
    requires ids != [] && 1 <= step <= limit
    ensures var count := |Windows(ids, limit, step, 0)|;
            && (|ids| <= limit ==> count == 1)
            && (|ids| > limit ==> (count - 2) * step < |ids| - limit <= (count - 1) * step)
  {
    WindowCountFrom(ids, limit, step, 0);
    if |ids| > limit { CeilDivIsCeiling(|ids| - limit, step); }
  }

  // ----- when nothing is cut -----

  /** Encoding a prefix and decoded tokens together never takes more tokens than the two apart. */
  ghost predicate NeverGrows(t: Tokenizer, prefix: string) {
    forall window {:trigger t.decode(window)} ::
      |t.encode(prefix + t.decode(window))| <= |window| + if prefix == "" then 0 else |t.encode(prefix)|
  }

  function Uncut(t: Tokenizer, prefix: string, windows: seq<seq<TokenId>>): seq<string> {
    if windows == [] then []
    else
      var piece := prefix + t.decode(windows[0]);
      (if piece == "" then [] else [piece]) + Uncut(t, prefix, windows[1..])
  }

  /** A text is left as it is exactly when it fits, or when it is empty and stays so. */
  lemma FittedIsTextIff(t: Tokenizer, maxTokens: nat, text: string)
    ensures Fitted(t, maxTokens, text) == text <==>
              |t.encode(text)| <= maxTokens || (text == "" && Shrunk(t, maxTokens, t.encode(""), maxTokens) == "")
  {
    var ids := t.encode(text);
    if |ids| > maxTokens { ShrunkFits(t, maxTokens, ids, maxTokens); }
  }

  /** What a window is decoded to, with the prefix before it. */
  function TextOf(t: Tokenizer, prefix: string, window: seq<TokenId>): string {
    prefix + t.decode(window)
  }

  ghost predicate AllFit(t: Tokenizer, maxTokens: nat, prefix: string, windows: seq<seq<TokenId>>) {
    forall i {:trigger windows[i]} :: 0 <= i < |windows| ==> |t.encode(TextOf(t, prefix, windows[i]))| <= maxTokens
  }

  /**
   * Nothing is cut from any window and none is dropped exactly when every window re-encodes within
   * the budget. Only a tokenizer that spends more than the budget on the empty text can hide a cut
   * of one window behind a piece made of nothing for another.
   */
  lemma {:induction false} NothingIsCutIff(t: Tokenizer, maxTokens: nat, prefix: string, windows: seq<seq<TokenId>>)
    ensures AllFit(t, maxTokens, prefix, windows) ==> Pieces(t, maxTokens, prefix, windows) == Uncut(t, prefix, windows)
    ensures |t.encode("")| <= maxTokens ==>
              |Pieces(t, maxTokens, prefix, windows)| <= |Uncut(t, prefix, windows)|
              && (Pieces(t, maxTokens, prefix, windows) == Uncut(t, prefix, windows) <==> AllFit(t, maxTokens, prefix, windows))
  {
    if windows != [] {
      NothingIsCutIff(t, maxTokens, prefix, windows[1..]);
      var text := TextOf(t, prefix, windows[0]);
      FittedIsTextIff(t, maxTokens, text);
      assert AllFit(t, maxTokens, prefix, windows) <==>
               |t.encode(text)| <= maxTokens && AllFit(t, maxTokens, prefix, windows[1..]) by {
        assert forall i {:trigger windows[i]} :: 1 <= i < |windows| ==> windows[i] == windows[1..][i - 1];
      }
      FirstPieces(t, maxTokens, prefix, windows);
      if text == "" && |t.encode(text)| <= maxTokens {
        assert Pieces(t, maxTokens, prefix, windows) == Pieces(t, maxTokens, prefix, windows[1..]);
        assert Uncut(t, prefix, windows) == Uncut(t, prefix, windows[1..]);
      }
    }
  }

  /** The first piece and the rest, cut and uncut; only a fitting text keeps its place and its form. */
  lemma FirstPieces(t: Tokenizer, maxTokens: nat, prefix: string, windows: seq<seq<TokenId>>)
    requires windows != []
    ensures var text, fitted := TextOf(t, prefix, windows[0]), Fitted(t, maxTokens, TextOf(t, prefix, windows[0]));
            var rest, whole := Pieces(t, maxTokens, prefix, windows[1..]), Uncut(t, prefix, windows[1..]);
            && Pieces(t, maxTokens, prefix, windows) == (if fitted == "" then [] else [fitted]) + rest
            && Uncut(t, prefix, windows) == (if text == "" then [] else [text]) + whole
            && (text != "" && fitted != "" ==>
                  (Pieces(t, maxTokens, prefix, windows) == Uncut(t, prefix, windows) <==> fitted == text && rest == whole))
  {
    var text, fitted := TextOf(t, prefix, windows[0]), Fitted(t, maxTokens, TextOf(t, prefix, windows[0]));
    var rest, whole := Pieces(t, maxTokens, prefix, windows[1..]), Uncut(t, prefix, windows[1..]);
    if text != "" && fitted != "" {
      assert ([fitted] + rest)[0] == fitted && ([text] + whole)[0] == text;
      assert ([fitted] + rest)[1..] == rest && ([text] + whole)[1..] == whole;
    }
  }

  /** If re-encoding never grows, every window comes out whole. */
  lemma WindowsComeOutWhole(t: Tokenizer, maxTokens: nat, prefix: string, ids: seq<TokenId>, limit: nat, step: nat)
    requires NeverGrows(t, prefix) && ids != [] && 1 <= step <= limit
    requires maxTokens == limit + if prefix == "" then 0 else |t.encode(prefix)|
    ensures Pieces(t, maxTokens, prefix, Windows(ids, limit, step, 0)) == Uncut(t, prefix, Windows(ids, limit, step, 0))
  {
    var windows := Windows(ids, limit, step, 0);
    forall i | 0 <= i < |windows|
      ensures |t.encode(TextOf(t, prefix, windows[i]))| <= maxTokens
    {
      WindowsOverlap(ids, limit, step, 0, i);
      assert |t.encode(prefix + t.decode(windows[i]))| <= |windows[i]| + if prefix == "" then 0 else |t.encode(prefix)|;
    }
    NothingIsCutIff(t, maxTokens, prefix, windows);
  }

  // ----- when a piece vanishes -----

  predicate PrefixFits(t: Tokenizer, maxTokens: int, ids: seq<TokenId>, k: nat)
    requires k <= |ids|
  {
    |t.encode(t.decode(ids[..k]))| <= maxTokens
  }

  ghost predicate LongestFit(t: Tokenizer, maxTokens: int, ids: seq<TokenId>, size: nat, k: nat)
    requires k <= size <= |ids|
  {
    && PrefixFits(t, maxTokens, ids, k)
    && forall m {:trigger PrefixFits(t, maxTokens, ids, m)} :: k < m <= size ==> !PrefixFits(t, maxTokens, ids, m)
  }

  /** No non-empty prefix of at most `size` ids fits, or the longest that does decodes to nothing. */
  ghost predicate NothingFits(t: Tokenizer, maxTokens: int, ids: seq<TokenId>, size: nat)
    requires size <= |ids|
  {
    forall k {:trigger LongestFit(t, maxTokens, ids, size, k)} :: 0 < k <= size && LongestFit(t, maxTokens, ids, size, k) ==>
      t.decode(ids[..k]) == ""
  }

  lemma {:induction false} ShrunkVanishesIff(t: Tokenizer, maxTokens: int, ids: seq<TokenId>, size: nat)
    requires size <= |ids|
    ensures Shrunk(t, maxTokens, ids, size) == "" <==> NothingFits(t, maxTokens, ids, size)
  {
    if size > 0 {
      var fits := PrefixFits(t, maxTokens, ids, size);
      assert LongestFit(t, maxTokens, ids, size, size) <==> fits;
      if fits {
        assert forall k :: 0 < k < size ==> !LongestFit(t, maxTokens, ids, size, k);
      } else {
        ShrunkVanishesIff(t, maxTokens, ids, size - 1);
        assert forall k {:trigger LongestFit(t, maxTokens, ids, size, k)} {:trigger LongestFit(t, maxTokens, ids, size - 1, k)} ::
            0 < k < size ==> (LongestFit(t, maxTokens, ids, size, k) <==> LongestFit(t, maxTokens, ids, size - 1, k));
      }
    }
  }

  /** The window yields no piece: its text is empty, or too long and nothing of it fits. */
  ghost predicate Vanishes(t: Tokenizer, maxTokens: nat, text: string) {
    if |t.encode(text)| <= maxTokens then text == "" else NothingFits(t, maxTokens, t.encode(text), maxTokens)
  }

  lemma WindowVanishesIff(t: Tokenizer, maxTokens: nat, text: string)
    ensures Fitted(t, maxTokens, text) == "" <==> Vanishes(t, maxTokens, text)
  {
    if |t.encode(text)| > maxTokens { ShrunkVanishesIff(t, maxTokens, t.encode(text), maxTokens); }
  }

  ghost predicate AllVanish(t: Tokenizer, maxTokens: nat, prefix: string, windows: seq<seq<TokenId>>) {
    forall i {:trigger windows[i]} :: 0 <= i < |windows| ==> Vanishes(t, maxTokens, TextOf(t, prefix, windows[i]))
  }

  lemma FirstAndRestVanish(t: Tokenizer, maxTokens: nat, prefix: string, windows: seq<seq<TokenId>>)
    requires windows != []
    ensures AllVanish(t, maxTokens, prefix, windows)
            <==> Vanishes(t, maxTokens, TextOf(t, prefix, windows[0])) && AllVanish(t, maxTokens, prefix, windows[1..])
  {
    assert forall i {:trigger windows[i]} :: 1 <= i < |windows| ==> windows[i] == windows[1..][i - 1];
    assert forall i {:trigger windows[1..][i]} :: 0 <= i < |windows| - 1 ==> windows[1..][i] == windows[i + 1];
  }

  /** Nothing is yielded for a body exactly when every one of its windows vanishes. */
  lemma {:induction false} BodyVanishesIff(t: Tokenizer, maxTokens: nat, prefix: string, windows: seq<seq<TokenId>>)
    ensures Pieces(t, maxTokens, prefix, windows) == [] <==> AllVanish(t, maxTokens, prefix, windows)
  {
    if windows != [] {
      BodyVanishesIff(t, maxTokens, prefix, windows[1..]);
      WindowVanishesIff(t, maxTokens, TextOf(t, prefix, windows[0]));
      FirstAndRestVanish(t, maxTokens, prefix, windows);
    }
  }

  /** `factor` tokens a character when encoding, one character a token when decoding. */
  function Growing(factor: nat): Tokenizer {
    Tokenizer((s: string) => seq(factor * |s|, i => 0), (ids: seq<TokenId>) => seq(|ids|, i => 'x'))
  }

  /** For every budget some tokenizer loses every text whatever: no piece of it is yielded. */
  lemma GrowingTextCanVanish(maxTokens: nat, windows: seq<seq<TokenId>>)
    ensures Pieces(Growing(maxTokens + 1), maxTokens, "", windows) == []
  {
    var t := Growing(maxTokens + 1);
    forall i | 0 <= i < |windows|
      ensures Vanishes(t, maxTokens, TextOf(t, "", windows[i]))
    {
      GrowingVanishes(maxTokens, TextOf(t, "", windows[i]));
    }
    BodyVanishesIff(t, maxTokens, "", windows);
  }

  lemma GrowingVanishes(maxTokens: nat, text: string)
    ensures Vanishes(Growing(maxTokens + 1), maxTokens, text)
  {
    var t := Growing(maxTokens + 1);
    EncodesLong(maxTokens, text);
    var ids := t.encode(text);
    if |ids| > maxTokens {
      forall k | 0 < k <= maxTokens
        ensures !LongestFit(t, maxTokens, ids, maxTokens, k)
      {
        EncodesLong(maxTokens, t.decode(ids[..k]));
      }
    }
  }

  lemma EncodesLong(maxTokens: nat, text: string)
    ensures |Growing(maxTokens + 1).encode(text)| <= maxTokens <==> text == ""
  {
    if text != "" { assert (maxTokens + 1) * |text| >= maxTokens + 1; }
  }
}
