/** Events of the copy ledger and their replay: tools/python/devex_clone_ledger.py, `project` and `apply_step`. */
module LedgerEvents {
  import opened Options

  type Token = string

  datatype Content = Content(bytes: nat, sha: Token, metadata: Token)

  /** A complete observation of one physical resource. */
  datatype Image =
    | Database(resource: Token, schema: Token, tables: Token, preserved: Token)
    | Object(resource: Token, content: Option<Content>)

  datatype Binding = Binding(plan: Token, generation: Token)

  datatype Mode = Apply | Reconcile | Resume

  datatype Outcome = Open | Partial | Failed | Publishing

  datatype Instant = Instant(zoned: bool, at: int)

  datatype Stage = LockRelease | ReceiptWrite

  /** `Malformed` stands for an unknown type, a missing or extra field, or an ill-formed name or digest. */
  datatype Event =
    | Created(binding: Binding)
    | Opened(session: Token, mode: Mode)
    | Intent(step: Token, before: Image, after: Image, artifact: Token)
    | Confirmed(step: Token, observed: Image)
    | Reconciled(step: Token, observed: Image)
    | Resumed(step: Token, observed: Image)
    | Closed(outcome: Outcome, completedAt: Option<Instant>)
    | Fault(stage: Stage)
    | Malformed

  datatype Phase = Unknown | Done | Before | Mismatch

  datatype Step = Step(before: Image, after: Image, artifact: Token, phase: Phase, attempt: nat, session: Token)

  datatype Session = Session(id: Token, mode: Mode, outcome: Outcome, touched: set<Token>, completedAt: Option<Instant>)

  datatype State = State(steps: map<Token, Step>, session: Option<Session>, sessions: set<Token>)

  const Initial := State(map[], None, {})

  /** Same resource, same stable facts, distinguishable, and for an object: absent before, present after. */
  predicate ImagePair(before: Image, after: Image) {
    && before.resource == after.resource
    && before != after
    && match (before, after)
       case (Database(_, s, _, p), Database(_, t, _, q)) => s == t && p == q
       case (Object(_, x), Object(_, y)) => x.None? && y.Some?
       case _ => false
  }

  function Classify(before: Image, after: Image, observed: Image): Phase {
    if observed == after then Done else if observed == before then Before else Mismatch
  }

  predicate IsStepEvent(e: Event) {
    e.Intent? || e.Confirmed? || e.Reconciled? || e.Resumed?
  }

  /** What `apply_step` makes of a step event inside the open session `c`. */
  function StepEvent(s: State, c: Session, e: Event): Option<State>
    requires IsStepEvent(e)
  {
    var touched := s.(session := Some(c.(touched := c.touched + {e.step})));
    match e
    case Intent(k, before, after, artifact) =>
      if && c.mode != Reconcile && k !in s.steps
         && (forall j :: j in s.steps ==> s.steps[j].phase == Done)
         && ImagePair(before, after)
         && (forall j :: j in s.steps ==> s.steps[j].before.resource != before.resource)
      then Some(touched.(steps := s.steps[k := Step(before, after, artifact, Unknown, 1, c.id)]))
      else None
    case Confirmed(k, observed) =>
      if && c.mode != Reconcile && k in s.steps && s.steps[k].phase == Unknown
         && s.steps[k].session == c.id && observed == s.steps[k].after
      then Some(touched.(steps := s.steps[k := s.steps[k].(phase := Done)]))
      else None
    case Reconciled(k, observed) =>
      if c.mode == Reconcile && k in s.steps && k !in c.touched
      then
        var step := s.steps[k];
        Some(touched.(steps := s.steps[k :=
          step.(phase := Classify(step.before, step.after, observed), session := c.id)]))
      else None
    case Resumed(k, observed) =>
      if && c.mode == Resume && k in s.steps && s.steps[k].phase == Before
         && observed == s.steps[k].before
         && (forall j :: j in s.steps && j != k ==> s.steps[j].phase != Unknown && s.steps[j].phase != Mismatch)
      then Some(touched.(steps := s.steps[k :=
          s.steps[k].(phase := Unknown, attempt := s.steps[k].attempt + 1, session := c.id)]))
      else None
  }

  /** What one event at position `index` makes of the state. */
  function Advance(s: State, index: nat, e: Event): Option<State> {
    if index == 0 then
      if e.Created? then Some(s) else None
    else match e
      case Created(_) => None
      case Malformed => None
      case Opened(id, mode) =>
        if id in s.sessions || (s.session.Some? && s.session.value.outcome != Partial && mode != Reconcile) then None
        else Some(State(s.steps, Some(Session(id, mode, Open, {}, None)), s.sessions + {id}))
      case Closed(outcome, completedAt) =>
        if && s.session.Some? && s.session.value.outcome == Open && outcome != Open
           && (if outcome == Publishing then completedAt.Some? && completedAt.value.zoned else completedAt.None?)
        then Some(s.(session := Some(s.session.value.(outcome := outcome, completedAt := completedAt))))
        else None
      case Fault(_) =>
        if s.session.Some? then Some(s.(session := Some(s.session.value.(outcome := Failed)))) else None
      case _ =>
        if s.session.Some? && s.session.value.outcome == Open then StepEvent(s, s.session.value, e) else None
  }

  /** The state after all events, or None as soon as one is refused. */
  function Replay(events: seq<Event>): Option<State> {
    if events == [] then Some(Initial)
    else match Replay(events[..|events| - 1])
      case None => None
      case Some(s) => Advance(s, |events| - 1, events[|events| - 1])
  }

  lemma ReplayAppend(events: seq<Event>, e: Event)
    ensures Replay(events + [e]) == if Replay(events).None? then None else Advance(Replay(events).value, |events|, e)
  {
    assert (events + [e])[..|events|] == events;
  }

  lemma {:induction false} ReplayPrefix(events: seq<Event>, i: nat)
    requires i <= |events| && Replay(events).Some?
    ensures Replay(events[..i]).Some?
  {
    if i == |events| {
      assert events[..i] == events;
    } else {
      ReplayPrefix(events[..|events| - 1], i);
      assert events[..|events| - 1][..i] == events[..i];
    }
  }

  /** The state dictionary that `project` and `apply_step` mutate. */
  class Projection {
    var steps: map<Token, Step>
    var session: Option<Session>
    var sessions: set<Token>

    ghost function Value(): State
      reads this
    {
      State(steps, session, sessions)
    }

    constructor ()
      ensures Value() == Initial
    {
      steps, session, sessions := map[], None, {};
    }

    method ApplyStep(e: Event) returns (accepted: bool)
      requires IsStepEvent(e) && session.Some? && session.value.outcome == Open
      modifies this
      ensures accepted <==> StepEvent(old(Value()), old(session.value), e).Some?
      ensures accepted ==> Value() == StepEvent(old(Value()), old(session.value), e).value
    {
      var c := session.value;
      match e {
        case Intent(k, before, after, artifact) =>
          if c.mode == Reconcile || k in steps { return false; }
          if exists j :: j in steps && steps[j].phase != Done { return false; }
          if !ImagePair(before, after) { return false; }
          if exists j :: j in steps && steps[j].before.resource == before.resource { return false; }
          steps := steps[k := Step(before, after, artifact, Unknown, 1, c.id)];
        case Confirmed(k, observed) =>
          if k !in steps { return false; }
          var step := steps[k];
          if c.mode == Reconcile || step.phase != Unknown || step.session != c.id || observed != step.after {
            return false;
          }
          steps := steps[k := step.(phase := Done)];
        case Reconciled(k, observed) =>
          if k !in steps || c.mode != Reconcile || k in c.touched { return false; }
          var step := steps[k];
          step := step.(phase := if observed == step.after then Done else if observed == step.before then Before else Mismatch);
          steps := steps[k := step.(session := c.id)];
        case Resumed(k, observed) =>
          if k !in steps { return false; }
          var step := steps[k];
          if c.mode != Resume || step.phase != Before || observed != step.before { return false; }
          if exists j :: j in steps && (steps[j].phase == Unknown || steps[j].phase == Mismatch) && j != k { return false; }
          steps := steps[k := step.(phase := Unknown, attempt := step.attempt + 1, session := c.id)];
      }
      session := Some(c.(touched := c.touched + {e.step}));
      accepted := true;
    }

    method ApplyEvent(index: nat, e: Event) returns (accepted: bool)
      modifies this
      ensures accepted <==> Advance(old(Value()), index, e).Some?
      ensures accepted ==> Value() == Advance(old(Value()), index, e).value
    {
      if index == 0 {
        return e.Created?;
      }
      match e {
        case Opened(id, mode) =>
          if id in sessions { return false; }
          if session.Some? && session.value.outcome != Partial && mode != Reconcile { return false; }
          sessions := sessions + {id};
          session := Some(Session(id, mode, Open, {}, None));
        case Closed(outcome, completedAt) =>
          if session.None? || session.value.outcome != Open || outcome == Open { return false; }
          if outcome == Publishing {
            if completedAt.None? || !completedAt.value.zoned { return false; }
          } else if completedAt.Some? {
            return false;
          }
          session := Some(session.value.(outcome := outcome, completedAt := completedAt));
        case Fault(_) =>
          if session.None? { return false; }
          session := Some(session.value.(outcome := Failed));
        case Created(_) => return false;
        case Malformed => return false;
        case _ =>
          if session.None? || session.value.outcome != Open { return false; }
          accepted := ApplyStep(e);
          return;
      }
      accepted := true;
    }
  }

  method Project(events: seq<Event>) returns (result: Option<State>)
    ensures result == Replay(events)
  {
    var state := new Projection();
    assert events[..0] == [];
    for i := 0 to |events|
      invariant fresh(state) && Replay(events[..i]) == Some(state.Value())
    {
      var accepted := state.ApplyEvent(i, events[i]);
      assert events[..i + 1] == events[..i] + [events[i]];
      ReplayAppend(events[..i], events[i]);
      if !accepted {
        if Replay(events).Some? { ReplayPrefix(events, i + 1); }
        return None;
      }
    }
    assert events[..|events|] == events;
    result := Some(State(state.steps, state.session, state.sessions));
  }
}
