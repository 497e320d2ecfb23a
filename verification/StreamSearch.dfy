/**
 * Searching a stream chunk by chunk with an overlap: tools/python/check_deployment_assets.py, lines 33 and 276-283.
 * A byte is a `char` here.
 */
module StreamSearch {

  /** How many bytes of the data seen so far are kept for the next chunk. */
  const KEPT := 128

  const GENERATOR := "/api/v1/tools/gen"
  const TOOL := "tools:gen"

  /**
   * A literal, or the pattern of the online generator: its path, or its permission not followed by a lower-case
   * letter.
   */
  datatype Pattern = Literal(needle: string) | Online

  predicate IsAt(data: string, at: nat, needle: string) {
    at + |needle| <= |data| && data[at..at + |needle|] == needle
  }

  predicate LowerAt(data: string, at: nat) {
    at < |data| && 'a' <= data[at] <= 'z'
  }

  /** The pattern matches at this place; the end of the data counts as a boundary. */
  predicate MatchesAt(p: Pattern, data: string, at: nat) {
    match p
    case Literal(needle) => IsAt(data, at, needle)
    case Online => IsAt(data, at, GENERATOR) || (IsAt(data, at, TOOL) && !LowerAt(data, at + |TOOL|))
  }

  /** `pattern.search`. */
  predicate Found(p: Pattern, data: string) {
    exists at :: 0 <= at <= |data| && MatchesAt(p, data, at)
  }

  function Joined(chunks: seq<string>): string {
    if chunks == [] then "" else Joined(chunks[..|chunks| - 1]) + chunks[|chunks| - 1]
  }

  function Last(data: string): (r: string)
    ensures |r| == if |data| < KEPT then |data| else KEPT
  {
    if |data| <= KEPT then data else data[|data| - KEPT..]
  }

  /** A match never needs more than one byte beyond what is kept. */
  predicate Short(p: Pattern) {
    p.Literal? ==> |p.needle| <= KEPT + 1
  }

  lemma SamePlace(p: Pattern, data: string, skip: nat, at: nat)
    requires skip <= at <= |data|
    ensures MatchesAt(p, data[skip..], at - skip) <==> MatchesAt(p, data, at)
  {
    SameBytes(data, skip, at, GENERATOR);
    SameBytes(data, skip, at, TOOL);
    if p.Literal? {
      SameBytes(data, skip, at, p.needle);
    }
  }

  lemma SameBytes(data: string, skip: nat, at: nat, needle: string)
    requires skip <= at <= |data|
    ensures IsAt(data[skip..], at - skip, needle) <==> IsAt(data, at, needle)
  {
    if at + |needle| <= |data| {
      assert data[skip..][at - skip..at - skip + |needle|] == data[at..at + |needle|];
    }
  }

  lemma PrefixBytes(a: string, b: string, at: nat, needle: string)
    requires a <= b && at + |needle| <= |a|
    ensures IsAt(a, at, needle) <==> IsAt(b, at, needle)
  {
    assert a[at..at + |needle|] == b[at..at + |needle|];
  }

  /** A match that starts before the kept bytes was there before the new chunk came. */
  lemma EarlierMatch(p: Pattern, before: string, chunk: string, at: nat)
    requires Short(p) && |before| > KEPT && at < |before| - KEPT
    ensures MatchesAt(p, before + chunk, at) ==> MatchesAt(p, before, at)
  {
    PrefixBytes(before, before + chunk, at, GENERATOR);
    PrefixBytes(before, before + chunk, at, TOOL);
    if p.Literal? {
      PrefixBytes(before, before + chunk, at, p.needle);
    }
  }

  /** When the data so far had no match, the kept bytes and the new chunk have one exactly when all the data has. */
  lemma WindowSuffices(p: Pattern, before: string, chunk: string)
    requires Short(p) && !Found(p, before)
    ensures Found(p, Last(before) + chunk) <==> Found(p, before + chunk)
  {
    var data := before + chunk;
    var skip := |before| - |Last(before)|;
    var tail := Last(before) + chunk;
    assert tail == data[skip..];
    if Found(p, data) {
      var at :| 0 <= at <= |data| && MatchesAt(p, data, at);
      if at < skip {
        EarlierMatch(p, before, chunk, at);
      } else {
        SamePlace(p, data, skip, at);
      }
    }
    if Found(p, tail) {
      var at :| 0 <= at <= |tail| && MatchesAt(p, tail, at);
      SamePlace(p, data, skip, skip + at);
    }
  }

  lemma LastOfWindow(before: string, chunk: string)
    ensures Last(Last(before) + chunk) == Last(before + chunk)
  {
  }

  /** Some prefix of the stream that ends with a chunk matches. */
  predicate FoundAtSomeEnd(p: Pattern, chunks: seq<string>) {
    exists k :: 0 < k <= |chunks| && Found(p, Joined(chunks[..k]))
  }

  /** `stream_contains`; the stream is read as these chunks. */
  method StreamContains(p: Pattern, chunks: seq<string>) returns (found: bool)
    requires Short(p)
    ensures found <==> FoundAtSomeEnd(p, chunks)
  {
    hide Found, Last;
    var overlap := "";
    assert overlap == Last(Joined(chunks[..0])) by { LastNone(); }
    for k := 0 to |chunks|
      invariant overlap == Last(Joined(chunks[..k]))
      invariant forall j :: 0 < j <= k ==> !Found(p, Joined(chunks[..j]))
    {
      var data := overlap + chunks[k];
      assert chunks[..k + 1][..k] == chunks[..k];
      ghost var before := Joined(chunks[..k]);
      assert Joined(chunks[..k + 1]) == before + chunks[k];
      if k == 0 {
        assert data == before + chunks[k] by { LastNone(); }
      } else {
        WindowSuffices(p, before, chunks[k]);
      }
      if Found(p, data) {
        return true;
      }
      LastOfWindow(before, chunks[k]);
      overlap := Last(data);
    }
    found := false;
  }

  lemma LastNone()
    ensures Last("") == ""
  {
  }

  // ---- What that says about the whole stream ----

  /** The place holds these bytes. */
  predicate Reads(data: string, at: nat, bytes: string) {
    at <= |data| && bytes <= data[at..]
  }

  /** What is searched for: the bytes themselves, or the generator's path, or its permission as a whole word. */
  predicate Hit(p: Pattern, data: string, at: nat) {
    match p
    case Literal(needle) => Reads(data, at, needle)
    case Online =>
      || Reads(data, at, "/api/v1/tools/gen")
      || (Reads(data, at, "tools:gen") && !(at + 9 < |data| && 'a' <= data[at + 9] <= 'z'))
  }

  lemma IsAtReads(data: string, at: nat, bytes: string)
    ensures IsAt(data, at, bytes) <==> Reads(data, at, bytes)
  {
    if at + |bytes| <= |data| {
      assert data[at..][..|bytes|] == data[at..at + |bytes|];
    }
  }

  /** The search finds exactly that, anywhere in the data. */
  lemma FoundMeans(p: Pattern, data: string)
    ensures Found(p, data) <==> exists at: nat :: Hit(p, data, at)
  {
    forall at: nat
      ensures MatchesAt(p, data, at) <==> Hit(p, data, at)
      ensures Hit(p, data, at) ==> at <= |data|
    {
      HitIsMatch(p, data, at);
    }
    hide MatchesAt, Hit;
    if Found(p, data) {
      var at: nat :| at <= |data| && MatchesAt(p, data, at);
      assert Hit(p, data, at);
    }
    if at: nat :| Hit(p, data, at) {
      assert MatchesAt(p, data, at);
    }
  }

  lemma HitIsMatch(p: Pattern, data: string, at: nat)
    ensures MatchesAt(p, data, at) <==> Hit(p, data, at)
    ensures Hit(p, data, at) ==> at <= |data|
  {
    IsAtReads(data, at, "/api/v1/tools/gen");
    IsAtReads(data, at, "tools:gen");
    if p.Literal? {
      IsAtReads(data, at, p.needle);
    }
  }

  lemma {:induction false} JoinedPrefix(chunks: seq<string>, k: nat)
    requires k <= |chunks|
    ensures Joined(chunks[..k]) <= Joined(chunks)
    decreases |chunks|
  {
    if k < |chunks| {
      JoinedPrefix(chunks[..|chunks| - 1], k);
      assert chunks[..|chunks| - 1][..k] == chunks[..k];
    } else {
      assert chunks[..k] == chunks;
    }
  }

  lemma LiteralStays(needle: string, a: string, b: string)
    requires a <= b && Found(Literal(needle), a)
    ensures Found(Literal(needle), b)
  {
    var at: nat :| at <= |a| && MatchesAt(Literal(needle), a, at);
    assert b[at..at + |needle|] == a[at..at + |needle|];
    assert MatchesAt(Literal(needle), b, at);
  }

  /** A literal of at most 129 bytes is found exactly when the stream holds it, however the stream is cut. */
  lemma LiteralFoundExactly(needle: string, chunks: seq<string>)
    requires 0 < |needle| <= KEPT + 1
    ensures FoundAtSomeEnd(Literal(needle), chunks) <==> Found(Literal(needle), Joined(chunks))
  {
    hide Found;
    assert chunks[..|chunks|] == chunks;
    if FoundAtSomeEnd(Literal(needle), chunks) {
      var k :| 0 < k <= |chunks| && Found(Literal(needle), Joined(chunks[..k]));
      JoinedPrefix(chunks, k);
      LiteralStays(needle, Joined(chunks[..k]), Joined(chunks));
    }
    NothingInNothing(needle);
  }

  lemma NothingInNothing(needle: string)
    requires needle != ""
    ensures !Found(Literal(needle), "") && !Found(Online, "")
  {
  }

  /** The permission ends where a chunk ends, and the stream goes on with a lower-case letter. */
  predicate CutAfterTool(chunks: seq<string>) {
    exists k :: 0 < k < |chunks| && CutAt(Joined(chunks), |Joined(chunks[..k])|)
  }

  predicate CutAt(data: string, end: nat) {
    end >= |TOOL| && IsAt(data, end - |TOOL|, TOOL) && LowerAt(data, end)
  }

  /** On a prefix the pattern matches where it matches on the whole, or where the cut hides a lower-case letter. */
  lemma PrefixMatch(a: string, b: string)
    requires a <= b
    ensures Found(Online, a) ==> Found(Online, b) || CutAt(b, |a|)
  {
    if Found(Online, a) {
      var at: nat :| at <= |a| && MatchesAt(Online, a, at);
      if IsAt(a, at, GENERATOR) {
        PrefixBytes(a, b, at, GENERATOR);
      } else {
        PrefixBytes(a, b, at, TOOL);
      }
      assert !CutAt(b, |a|) ==> MatchesAt(Online, b, at);
    }
  }

  lemma CutMatches(a: string, b: string)
    requires a <= b && CutAt(b, |a|)
    ensures Found(Online, a)
  {
    var at := |a| - |TOOL|;
    assert a[at..at + |TOOL|] == b[at..at + |TOOL|];
    assert MatchesAt(Online, a, at);
  }

  /**
   * The generator pattern misses nothing; it also reports a permission that a chunk end cuts off from a lower-case
   * letter.
   */
  lemma OnlineFoundExactly(chunks: seq<string>)
    ensures FoundAtSomeEnd(Online, chunks) <==> Found(Online, Joined(chunks)) || CutAfterTool(chunks)
  {
    hide Found, CutAt;
    assert chunks[..|chunks|] == chunks;
    NothingInNothing("x");
    if FoundAtSomeEnd(Online, chunks) {
      var k :| 0 < k <= |chunks| && Found(Online, Joined(chunks[..k]));
      JoinedPrefix(chunks, k);
      PrefixMatch(Joined(chunks[..k]), Joined(chunks));
      if k == |chunks| {
        assert chunks[..k] == chunks;
      }
    }
    if CutAfterTool(chunks) {
      var k :| 0 < k < |chunks| && CutAt(Joined(chunks), |Joined(chunks[..k])|);
      JoinedPrefix(chunks, k);
      CutMatches(Joined(chunks[..k]), Joined(chunks));
    }
  }
}
