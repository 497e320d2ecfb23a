/** The hash-chained journal and its head file: tools/python/devex_clone_ledger.py, `_read`, `_append`, `_write`. */
module LedgerFiles {
  import opened Options
  import opened LedgerEvents
  import opened LedgerHistory

  /** SHA-256 of a frame body, taken as injective. */
  datatype Digest = Zero | Hash(sequence: int, previous: Digest, event: Event)

  datatype Frame = Frame(sequence: int, previous: Digest, event: Event, sha: Digest)

  datatype Head = Head(binding: Binding, sequence: int, sha: Digest)

  /** `events.ndjson`: complete lines, and whether bytes follow the last line feed. */
  datatype Journal = Journal(lines: seq<Frame>, torn: bool)

  datatype Files = Files(journal: Journal, head: Option<Head>)

  function Previous(lines: seq<Frame>, i: nat): Digest
    requires i <= |lines|
  {
    if i == 0 then Zero else lines[i - 1].sha
  }

  predicate LinkedAt(lines: seq<Frame>, i: nat)
    requires i < |lines|
  {
    && lines[i].sequence == i
    && lines[i].previous == Previous(lines, i)
    && lines[i].sha == Hash(i, Previous(lines, i), lines[i].event)
  }

  function EventsOf(lines: seq<Frame>): (events: seq<Event>)
    ensures |events| == |lines| && forall i :: 0 <= i < |lines| ==> events[i] == lines[i].event
  {
    if lines == [] then [] else EventsOf(lines[..|lines| - 1]) + [lines[|lines| - 1].event]
  }

  function NextFrame(lines: seq<Frame>, e: Event): Frame {
    Frame(|lines|, Previous(lines, |lines|), e, Hash(|lines|, Previous(lines, |lines|), e))
  }

  function HeadOf(binding: Binding, lines: seq<Frame>): Head
    requires lines != []
  {
    Head(binding, |lines| - 1, lines[|lines| - 1].sha)
  }

  /** The journal a reader accepts: whole, linked, anchored by the head, created for this binding, replayable. */
  ghost predicate Readable(f: Files, binding: Binding) {
    var lines := f.journal.lines;
    && f.head.Some?
    && lines != []
    && !f.journal.torn
    && (forall i :: 0 <= i < |lines| ==> LinkedAt(lines, i))
    && f.head.value == HeadOf(binding, lines)
    && lines[0].event == Created(binding)
    && Accepted(EventsOf(lines))
  }

  /** `_read` as a loop over the lines. */
  method Read(f: Files, binding: Binding) returns (frames: Option<seq<Frame>>)
    ensures frames.Some? <==> Readable(f, binding)
    ensures frames.Some? ==> frames.value == f.journal.lines
  {
    hide Replay;
    var lines := f.journal.lines;
    if f.head.None? || lines == [] || f.journal.torn {
      return None;
    }
    var previous, events := Zero, [];
    for i := 0 to |lines|
      invariant previous == Previous(lines, i)
      invariant events == EventsOf(lines[..i])
      invariant forall j :: 0 <= j < i ==> LinkedAt(lines, j)
    {
      var frame := lines[i];
      if frame.sequence != i || frame.previous != previous || frame.sha != Hash(i, previous, frame.event) {
        assert !LinkedAt(lines, i);
        return None;
      }
      previous := frame.sha;
      assert lines[..i + 1][..i] == lines[..i];
      events := events + [frame.event];
    }
    assert lines[..|lines|] == lines;
    if f.head.value != Head(binding, |lines| - 1, previous) || events[0] != Created(binding) {
      return None;
    }
    var state := Project(events);
    if state.None? {
      return None;
    }
    frames := Some(lines);
  }

  /** Two linked journals that end in the same digest are the same journal. */
  lemma {:induction false} SameDigestSameJournal(a: seq<Frame>, b: seq<Frame>)
    requires a != [] && b != []
    requires forall i :: 0 <= i < |a| ==> LinkedAt(a, i)
    requires forall i :: 0 <= i < |b| ==> LinkedAt(b, i)
    requires a[|a| - 1].sha == b[|b| - 1].sha
    ensures a == b
  {
    var m, n := |a| - 1, |b| - 1;
    assert LinkedAt(a, m) && LinkedAt(b, n);
    if m > 0 {
      forall i | 0 <= i < m ensures LinkedAt(a[..m], i) && LinkedAt(b[..n], i) {
        assert LinkedAt(a, i) && LinkedAt(b, i);
      }
      SameDigestSameJournal(a[..m], b[..n]);
    }
    assert a == a[..m] + [a[m]] && b == b[..n] + [b[n]];
  }

  /** A head file admits at most one journal. */
  lemma HeadFixesJournal(f: Files, g: Files, binding: Binding, other: Binding)
    requires Readable(f, binding) && Readable(g, other) && f.head == g.head
    ensures f == g && binding == other
  {
    SameDigestSameJournal(f.journal.lines, g.journal.lines);
  }

  // ---- One append, interrupted anywhere ----

  /** How far the file operations of one append got. */
  datatype Stop = BeforeLine | TornLine | LineOnly | HeadReplaced

  function AppendFiles(f: Files, binding: Binding, e: Event, stop: Stop): Files {
    var lines := f.journal.lines + [NextFrame(f.journal.lines, e)];
    match stop
    case BeforeLine => f
    case TornLine => f.(journal := f.journal.(torn := true))
    case LineOnly => f.(journal := f.journal.(lines := lines))
    case HeadReplaced => Files(f.journal.(lines := lines), Some(HeadOf(binding, lines)))
  }

  lemma NextIsLinked(lines: seq<Frame>, e: Event)
    requires forall i :: 0 <= i < |lines| ==> LinkedAt(lines, i)
    ensures forall i :: 0 <= i <= |lines| ==> LinkedAt(lines + [NextFrame(lines, e)], i)
    ensures EventsOf(lines + [NextFrame(lines, e)]) == EventsOf(lines) + [e]
  {
    var grown := lines + [NextFrame(lines, e)];
    assert grown[..|lines|] == lines;
    forall i | 0 <= i < |lines|
      ensures LinkedAt(grown, i)
    {
      assert LinkedAt(lines, i);
    }
  }

  /** A crash inside an append leaves the old journal, the new one, or files every reader rejects. */
  lemma AppendCrash(f: Files, binding: Binding, e: Event, stop: Stop)
    requires Readable(f, binding) && Accepted(EventsOf(f.journal.lines) + [e])
    ensures var g := AppendFiles(f, binding, e, stop);
            && (Readable(g, binding) <==> stop == BeforeLine || stop == HeadReplaced)
            && (stop == BeforeLine ==> g == f)
            && (stop == HeadReplaced ==> EventsOf(g.journal.lines) == EventsOf(f.journal.lines) + [e])
  {
    NextIsLinked(f.journal.lines, e);
  }

  /** The first append starts from no files at all. */
  lemma FirstAppendCrash(binding: Binding, stop: Stop)
    ensures var f := Files(Journal([], false), None);
            var g := AppendFiles(f, binding, Created(binding), stop);
            && (Readable(g, binding) <==> stop == HeadReplaced)
            && (stop == HeadReplaced ==> EventsOf(g.journal.lines) == [Created(binding)])
  {
    hide Replay, EventsOf;
    var created := Created(binding);
    NextIsLinked([], created);
    CreatedAccepted(binding);
    assert EventsOf([]) == [] && [] + [created] == [created];
  }

  lemma CreatedAccepted(binding: Binding)
    ensures Accepted([Created(binding)])
  {
    ReplayAppend([], Created(binding));
    assert [] + [Created(binding)] == [Created(binding)];
  }

  lemma ReadableAccepted(f: Files, binding: Binding)
    requires Readable(f, binding)
    ensures f.journal.lines != [] && Accepted(EventsOf(f.journal.lines))
  {
  }
}
