/**
 How tickets are closed. For a request none of whose reconciles failed, the operator moves its
 ticket once: to completed if access was granted, to rejected otherwise.
 */
module Closure {
  import opened Types
  import opened Machine
  import opened Invariants
  import opened History
  import opened Grants
  import opened Expiry
  import opened Tickets
  import opened Wakeups

  /** The operator's completing and rejecting transitions of a ticket. */
  function Moves(t: Trace, key: nat): (nat, nat) {
    (Count(t, Moved(key, true)), Count(t, Moved(key, false)))
  }

  /** What the operator has done to the recorded ticket of an idle request. */
  function StatusMoves(status: Status, key: nat): (nat, nat) {
    if status.phase == Succeeded && status.ticket == Issue(key) then (1, 0) else (0, 0)
  }

  /** The same in the middle of a reconcile. */
  function PcMoves(pc: Pc, key: nat): (nat, nat)
    requires HasReq(pc)
  {
    if pc.Delete? && pc.req.status.phase == Rejected && pc.req.status.ticket == Issue(key) then (0, 1)
    else if pc.Write? && pc.after == ThenCleanup && pc.req.status.ticket == Issue(key) then (1, 0)
    else StatusMoves(pc.req.status, key)
  }

  predicate NoFailure(t: Trace, uid: nat) {
    Count(t, FailedFor(uid)) == 0
  }

  predicate MovesMatch(s: State, moves: (nat, nat), uid: nat, key: nat) {
    && moves.0 + moves.1 <= 1
    && (PcFor(s.pc, uid) ==> moves == PcMoves(s.pc, key))
    && (forall n | n in s.world.requests && s.world.requests[n].uid == uid && !PcFor(s.pc, uid) ::
          moves == StatusMoves(s.world.requests[n].status, key))
  }

  predicate MovesOk(s: State, t: Trace, key: nat) {
    && (key !in s.world.tickets ==> Moves(t, key) == (0, 0))
    && (key in s.world.tickets && NoFailure(t, s.world.tickets[key].owner) ==>
          MovesMatch(s, Moves(t, key), s.world.tickets[key].owner, key))
  }

  function Plus(a: (nat, nat), b: (nat, nat)): (nat, nat) {
    (a.0 + b.0, a.1 + b.1)
  }

  lemma MovesConcat(t: Trace, more: Trace, key: nat)
    ensures Moves(t + more, key) == Plus(Moves(t, key), Moves(more, key))
  {
    CountConcat(t, more, Moved(key, true));
    CountConcat(t, more, Moved(key, false));
  }

  lemma NoFailureSplits(t: Trace, more: Trace, uid: nat)
    requires NoFailure(t + more, uid)
    ensures NoFailure(t, uid) && NoFailure(more, uid)
  {
    CountConcat(t, more, FailedFor(uid));
  }

  lemma EnvKeepsMovesMatch(s: State, e: EnvStep, moves: (nat, nat), uid: nat, key: nat)
    requires EnvEnabled(s.world, e) && uid in s.world.names && MovesMatch(s, moves, uid, key)
    ensures MovesMatch(State(EnvApply(s.world, e), s.pc), moves, uid, key)
  {
    EnvExtends(s.world, e);
    var next := EnvApply(s.world, e);
    forall n | n in next.requests && next.requests[n].uid == uid && !PcFor(s.pc, uid)
      ensures moves == StatusMoves(next.requests[n].status, key)
    {
      assert RecordExtends(s.world, next, n);
    }
  }

  // One answer

  /** What an answer moves: only `completeJiraTicket` and `rejectJiraTicket` do. */
  function AnswerMoves(w: World, pc: Pc, outcome: Outcome, key: nat): (nat, nat) {
    match pc
    case CompleteMove(req, cfg) =>
      if outcome != Err && req.status.ticket == Issue(key) && CanMove(w, req.status.ticket, cfg.completedTransition)
      then (1, 0) else (0, 0)
    case RejectMove(req, cfg) =>
      if outcome != Err && req.status.ticket == Issue(key) && CanMove(w, req.status.ticket, cfg.rejectedTransition)
      then (0, 1) else (0, 0)
    case _ => (0, 0)
  }

  lemma AnswerMovesCounted(s: State, outcome: Outcome, hint: Hint, key: nat)
    requires InCall(s.pc)
    ensures Moves(AnswerEntries(s, outcome, hint), key) == AnswerMoves(s.world, s.pc, outcome, key)
  {
    if s.pc.CompleteMove? || s.pc.RejectMove? {
      TransitionCounted(s, outcome, hint, key);
    } else {
      NothingTransitioned(s, outcome, hint);
      NoMoves(AnswerEntries(s, outcome, hint), key);
    }
  }

  lemma NoMoves(t: Trace, key: nat)
    requires forall e | e in t :: !e.Transitioned?
    ensures Moves(t, key) == (0, 0)
  {
    CountNone(t, Moved(key, true));
    CountNone(t, Moved(key, false));
  }

  lemma NothingTransitioned(s: State, outcome: Outcome, hint: Hint)
    requires !s.pc.CompleteMove? && !s.pc.RejectMove?
    ensures forall e | e in AnswerEntries(s, outcome, hint) :: !e.Transitioned?
  {
  }

  lemma SingleMove(moved: nat, transition: string, completing: bool, key: nat)
    ensures Moves([Transitioned(moved, transition, completing)], key)
         == if moved != key then (0, 0) else if completing then (1, 0) else (0, 1)
  {
    CountShort([Transitioned(moved, transition, completing)], Moved(key, true));
    CountShort([Transitioned(moved, transition, completing)], Moved(key, false));
  }

  lemma OneMove(end: Trace, moved: nat, transition: string, completing: bool, key: nat)
    requires forall e | e in end :: !e.Transitioned?
    ensures Moves([Transitioned(moved, transition, completing)] + end, key)
         == if moved != key then (0, 0) else if completing then (1, 0) else (0, 1)
  {
    MovesConcat([Transitioned(moved, transition, completing)], end, key);
    NoMoves(end, key);
    SingleMove(moved, transition, completing, key);
  }

  lemma TransitionCounted(s: State, outcome: Outcome, hint: Hint, key: nat)
    requires s.pc.CompleteMove? || s.pc.RejectMove?
    ensures Moves(AnswerEntries(s, outcome, hint), key) == AnswerMoves(s.world, s.pc, outcome, key)
  {
    var effect := Effect(s.world, s.pc, outcome, hint);
    var end := Ending(s.world, s.pc, outcome, Perform(s.world, s.pc, outcome, hint).1);
    if effect == [] {
      NoMoves(AnswerEntries(s, outcome, hint), key);
    } else {
      assert AnswerEntries(s, outcome, hint) == [effect[0]] + end;
      OneMove(end, effect[0].key, effect[0].transition, effect[0].completing, key);
    }
  }

  lemma ForeignAnswer(s: State, outcome: Outcome, hint: Hint, moves: (nat, nat), uid: nat, key: nat)
    requires Inv(s) && HasReq(s.pc) && s.pc.req.uid != uid && MovesMatch(s, moves, uid, key)
    ensures MovesMatch(Answer(s, outcome, hint), moves, uid, key)
  {
    NextKeepsUid(s.pc, Perform(s.world, s.pc, outcome, hint).1, uid);
    var next := Answer(s, outcome, hint);
    if !s.pc.Write? {
      CallKeepsStatuses(s.world, s.pc, outcome, hint);
    }
    forall n | n in next.world.requests && next.world.requests[n].uid == uid
      ensures moves == StatusMoves(next.world.requests[n].status, key)
    {
      assert n in s.world.requests && s.world.requests[n].uid == uid;
    }
  }

  lemma FetchAnswer(s: State, outcome: Outcome, hint: Hint, moves: (nat, nat), uid: nat, key: nat)
    requires Inv(s) && s.pc.Fetch? && MovesMatch(s, moves, uid, key)
    ensures MovesMatch(Answer(s, outcome, hint), moves, uid, key)
  {
  }

  lemma NewPathMoves(pc: Pc, r: Resp, key: nat)
    requires NewPath(pc) && pc.req.status.phase == New && HasReq(Next(pc, r))
    ensures PcMoves(pc, key) == (0, 0) && PcMoves(Next(pc, r), key) == (0, 0)
  {
    assert Next(pc, r).req == pc.req;
  }

  lemma WriteMoves(pc: Pc, r: Resp, key: nat)
    requires pc.Write? && WriteShape(pc.req, pc.status, pc.after) && HasReq(Next(pc, r))
    ensures PcMoves(Next(pc, r), key) == PcMoves(pc, key)
  {
  }

  lemma OtherMoves(pc: Pc, r: Resp, key: nat)
    requires HasReq(pc) && !NewPath(pc) && !pc.Write? && !pc.CompleteMove? && !pc.RejectMove? && HasReq(Next(pc, r))
    requires pc.CheckEnd? ==> pc.req.status.phase == Succeeded
    ensures PcMoves(Next(pc, r), key) == PcMoves(pc, key)
  {
    assert Next(pc, r).req == pc.req;
  }

  lemma MoveMoves(s: State, outcome: Outcome, hint: Hint, key: nat)
    requires s.pc.CompleteMove? || s.pc.RejectMove?
    requires PcShape(s.world, s.pc) && HasReq(Answer(s, outcome, hint).pc)
    ensures PcMoves(s.pc, key) == (0, 0)
    ensures PcMoves(Answer(s, outcome, hint).pc, key) == AnswerMoves(s.world, s.pc, outcome, key)
  {
  }

  /** Within a reconcile the count at the next point is the count here plus what this answer moved. */
  lemma OwnAnswerMoves(s: State, outcome: Outcome, hint: Hint, key: nat)
    requires Inv(s) && HasReq(s.pc) && HasReq(Answer(s, outcome, hint).pc)
    ensures PcMoves(Answer(s, outcome, hint).pc, key)
         == Plus(PcMoves(s.pc, key), AnswerMoves(s.world, s.pc, outcome, key))
  {
    if s.pc.CompleteMove? || s.pc.RejectMove? {
      MoveMoves(s, outcome, hint, key);
    } else {
      OwnNextMoves(s.world, s.pc, Perform(s.world, s.pc, outcome, hint).1, key);
    }
  }

  lemma OwnNextMoves(w: World, pc: Pc, r: Resp, key: nat)
    requires PcOk(w, pc) && HasReq(pc) && !pc.CompleteMove? && !pc.RejectMove? && HasReq(Next(pc, r))
    ensures PcMoves(Next(pc, r), key) == PcMoves(pc, key)
  {
    if NewPath(pc) {
      NewPathMoves(pc, r, key);
    } else if pc.Write? {
      WriteMoves(pc, r, key);
    } else {
      OtherMoves(pc, r, key);
    }
  }

  lemma WriteEndMatches(s: State, outcome: Outcome, hint: Hint, key: nat, n: string)
    requires Inv(s) && s.pc.Write?
    requires var next := Answer(s, outcome, hint).pc; next.Finished? && !next.result.Error?
    requires var next := Answer(s, outcome, hint).world; n in next.requests && next.requests[n].uid == s.pc.req.uid
    ensures StatusMoves(Answer(s, outcome, hint).world.requests[n].status, key) == PcMoves(s.pc, key)
  {
    assert RecordOk(s.world, n);
    assert s.pc.req.name == n;
    var (next, r) := WriteStatus(s.world, s.pc.req, s.pc.status, outcome);
    assert next.requests[n] == if WriteTakesEffect(s.world, s.pc.req, outcome)
      then s.world.requests[n].(status := s.pc.status, version := s.pc.req.version + 1) else s.world.requests[n];
  }

  /** A reconcile that ends well leaves the stored status in step with the count. */
  lemma OwnEndMatches(s: State, outcome: Outcome, hint: Hint, key: nat, n: string)
    requires Inv(s) && HasReq(s.pc)
    requires var next := Answer(s, outcome, hint).pc; next.Finished? && !next.result.Error?
    requires var next := Answer(s, outcome, hint).world; n in next.requests && next.requests[n].uid == s.pc.req.uid
    ensures StatusMoves(Answer(s, outcome, hint).world.requests[n].status, key) == PcMoves(s.pc, key)
  {
    if s.pc.Write? {
      WriteEndMatches(s, outcome, hint, key, n);
    } else {
      CallKeepsStatuses(s.world, s.pc, outcome, hint);
      assert RecordOk(s.world, n);
      EndsWellAt(s.pc, Perform(s.world, s.pc, outcome, hint).1);
    }
  }

  lemma ErrorIsRecorded(s: State, outcome: Outcome, hint: Hint)
    requires Answer(s, outcome, hint).pc.Finished? && Answer(s, outcome, hint).pc.result.Error?
    ensures AnswerEntries(s, outcome, hint) == Effect(s.world, s.pc, outcome, hint) + [Failed(s.pc)]
  {
  }

  lemma ErrorIsCounted(effect: Trace, pc: Pc, uid: nat)
    requires PcFor(pc, uid)
    ensures !NoFailure(effect + [Failed(pc)], uid)
  {
    CountAt(effect + [Failed(pc)], FailedFor(uid), |effect|);
  }

  /** A reconcile of the request goes on, or ends well, in step with the count. */
  lemma OwnAnswer(s: State, outcome: Outcome, hint: Hint, key: nat)
    requires Inv(s) && HasReq(s.pc)
    requires NoFailure(AnswerEntries(s, outcome, hint), s.pc.req.uid)
    ensures MovesMatch(Answer(s, outcome, hint),
                       Plus(PcMoves(s.pc, key), AnswerMoves(s.world, s.pc, outcome, key)), s.pc.req.uid, key)
  {
    NextKeepsName(s.pc, Perform(s.world, s.pc, outcome, hint).1);
    if HasReq(Answer(s, outcome, hint).pc) {
      OwnGoesOn(s, outcome, hint, key);
    } else {
      OwnEnd(s, outcome, hint, key);
    }
  }

  lemma OwnGoesOn(s: State, outcome: Outcome, hint: Hint, key: nat)
    requires Inv(s) && HasReq(s.pc) && HasReq(Answer(s, outcome, hint).pc)
    ensures MovesMatch(Answer(s, outcome, hint),
                       Plus(PcMoves(s.pc, key), AnswerMoves(s.world, s.pc, outcome, key)), s.pc.req.uid, key)
  {
    OwnAnswerMoves(s, outcome, hint, key);
    OwnUidKept(s.pc, Perform(s.world, s.pc, outcome, hint).1);
  }

  lemma OwnEnd(s: State, outcome: Outcome, hint: Hint, key: nat)
    requires Inv(s) && HasReq(s.pc) && Answer(s, outcome, hint).pc.Finished?
    requires NoFailure(AnswerEntries(s, outcome, hint), s.pc.req.uid)
    ensures MovesMatch(Answer(s, outcome, hint),
                       Plus(PcMoves(s.pc, key), AnswerMoves(s.world, s.pc, outcome, key)), s.pc.req.uid, key)
  {
    OwnEndIsGood(s, outcome, hint);
    GoodEndMovesNothing(s, outcome, hint, key);
    forall n | n in Answer(s, outcome, hint).world.requests
               && Answer(s, outcome, hint).world.requests[n].uid == s.pc.req.uid
      ensures StatusMoves(Answer(s, outcome, hint).world.requests[n].status, key) == PcMoves(s.pc, key)
    {
      OwnEndMatches(s, outcome, hint, key, n);
    }
  }

  lemma OwnEndIsGood(s: State, outcome: Outcome, hint: Hint)
    requires HasReq(s.pc) && Answer(s, outcome, hint).pc.Finished?
    requires NoFailure(AnswerEntries(s, outcome, hint), s.pc.req.uid)
    ensures !Answer(s, outcome, hint).pc.result.Error?
  {
    if Answer(s, outcome, hint).pc.result.Error? {
      ErrorIsRecorded(s, outcome, hint);
      ErrorIsCounted(Effect(s.world, s.pc, outcome, hint), s.pc, s.pc.req.uid);
    }
  }

  lemma GoodEndMovesNothing(s: State, outcome: Outcome, hint: Hint, key: nat)
    requires Answer(s, outcome, hint).pc.Finished? && !Answer(s, outcome, hint).pc.result.Error?
    ensures AnswerMoves(s.world, s.pc, outcome, key) == (0, 0)
  {
  }

  /** The uid of the next program point is the one of this one. */
  lemma OwnUidKept(pc: Pc, r: Resp)
    requires HasReq(pc) && HasReq(Next(pc, r))
    ensures Next(pc, r).req.uid == pc.req.uid
  {
  }

  lemma ForeignMovesNothing(s: State, outcome: Outcome, key: nat)
    requires Inv(s) && InCall(s.pc)
    requires key in s.world.tickets ==> !PcFor(s.pc, s.world.tickets[key].owner)
    ensures AnswerMoves(s.world, s.pc, outcome, key) == (0, 0)
  {
  }

  lemma OldTicketMovesOk(s: State, outcome: Outcome, hint: Hint, t: Trace, key: nat)
    requires Inv(s) && InCall(s.pc) && key in s.world.tickets
    requires var uid := s.world.tickets[key].owner;
             MovesMatch(s, Moves(t, key), uid, key) && NoFailure(AnswerEntries(s, outcome, hint), uid)
    ensures MovesMatch(Answer(s, outcome, hint), Moves(t + AnswerEntries(s, outcome, hint), key),
                       s.world.tickets[key].owner, key)
  {
    var uid := s.world.tickets[key].owner;
    MovesConcat(t, AnswerEntries(s, outcome, hint), key);
    AnswerMovesCounted(s, outcome, hint, key);
    if PcFor(s.pc, uid) {
      OwnAnswer(s, outcome, hint, key);
    } else {
      ForeignMovesNothing(s, outcome, key);
      if s.pc.Fetch? {
        FetchAnswer(s, outcome, hint, Moves(t, key), uid, key);
      } else {
        ForeignAnswer(s, outcome, hint, Moves(t, key), uid, key);
      }
    }
  }

  /** A ticket just opened has not been moved, and nothing that follows a new request expects it to be. */
  lemma NewTicketMatches(s: State, outcome: Outcome, hint: Hint, key: nat)
    requires Inv(s) && s.pc.OpenTicket? && key !in s.world.tickets
    requires NoFailure(AnswerEntries(s, outcome, hint), s.pc.req.uid)
    ensures MovesMatch(Answer(s, outcome, hint), (0, 0), s.pc.req.uid, key)
  {
    var next := Answer(s, outcome, hint);
    if next.pc.Finished? {
      ErrorIsRecorded(s, outcome, hint);
      ErrorIsCounted(Effect(s.world, s.pc, outcome, hint), s.pc, s.pc.req.uid);
    } else {
      NewPathMoves(s.pc, Perform(s.world, s.pc, outcome, hint).1, key);
    }
  }

  lemma KnownTicketKeeps(s: State, outcome: Outcome, hint: Hint, t: Trace, key: nat)
    requires Inv(s) && InCall(s.pc) && HintOk(s.world, s.pc, hint) && MovesOk(s, t, key) && key in s.world.tickets
    ensures MovesOk(Answer(s, outcome, hint), t + AnswerEntries(s, outcome, hint), key)
  {
    var more := AnswerEntries(s, outcome, hint);
    PerformKeepsTicket(s.world, s.pc, outcome, hint, key);
    var uid := s.world.tickets[key].owner;
    if NoFailure(t + more, uid) {
      NoFailureSplits(t, more, uid);
      OldTicketMovesOk(s, outcome, hint, t, key);
    }
  }

  lemma FreshTicketKeeps(s: State, outcome: Outcome, hint: Hint, t: Trace, key: nat)
    requires Inv(s) && InCall(s.pc) && HintOk(s.world, s.pc, hint) && MovesOk(s, t, key) && key !in s.world.tickets
    ensures MovesOk(Answer(s, outcome, hint), t + AnswerEntries(s, outcome, hint), key)
  {
    var more := AnswerEntries(s, outcome, hint);
    MovesConcat(t, more, key);
    AnswerMovesCounted(s, outcome, hint, key);
    ForeignMovesNothing(s, outcome, key);
    if key in Answer(s, outcome, hint).world.tickets {
      CallAddsRecordedTicket(s.world, s.pc, outcome, hint, key);
      if NoFailure(t + more, s.pc.req.uid) {
        NoFailureSplits(t, more, s.pc.req.uid);
        NewTicketMatches(s, outcome, hint, key);
      }
    }
  }

  lemma AnswerKeepsMovesOk(s: State, outcome: Outcome, hint: Hint, t: Trace, key: nat)
    requires Inv(s) && InCall(s.pc) && HintOk(s.world, s.pc, hint) && MovesOk(s, t, key)
    ensures MovesOk(Answer(s, outcome, hint), t + AnswerEntries(s, outcome, hint), key)
  {
    if key in s.world.tickets {
      KnownTicketKeeps(s, outcome, hint, t, key);
    } else {
      FreshTicketKeeps(s, outcome, hint, t, key);
    }
  }

  lemma PerformKeepsTicket(w: World, pc: Pc, outcome: Outcome, hint: Hint, key: nat)
    requires key in w.tickets && HintOk(w, pc, hint)
    ensures key in Perform(w, pc, outcome, hint).0.tickets
    ensures Perform(w, pc, outcome, hint).0.tickets[key].owner == w.tickets[key].owner
  {
  }

  lemma RestartMovesNothing(s: State, key: nat)
    ensures Moves(EntryIf(InCall(s.pc), Failed(s.pc)), key) == (0, 0)
  {
    var more := EntryIf(InCall(s.pc), Failed(s.pc));
    NoMoves(more, key);
  }

  /** Only a reconcile of another request is cut short without a failure of this one. */
  lemma NoFailureNotOurs(pc: Pc, t: Trace, more: Trace, uid: nat)
    requires NoFailure(t + more, uid) && more == EntryIf(InCall(pc), Failed(pc))
    ensures NoFailure(t, uid) && !PcFor(pc, uid)
  {
    NoFailureSplits(t, more, uid);
    if PcFor(pc, uid) {
      assert more == [] + [Failed(pc)];
      ErrorIsCounted([], pc, uid);
    }
  }

  lemma RestartKeepsMatch(s: State, moves: (nat, nat), uid: nat, key: nat)
    requires MovesMatch(s, moves, uid, key) && !PcFor(s.pc, uid)
    ensures MovesMatch(State(RestartWorld(s.world), Idle), moves, uid, key)
  {
  }

  lemma RestartKeepsMovesOk(s: State, t: Trace, more: Trace, key: nat)
    requires MovesOk(s, t, key) && more == EntryIf(InCall(s.pc), Failed(s.pc))
    ensures MovesOk(State(RestartWorld(s.world), Idle), t + more, key)
  {
    MovesConcat(t, more, key);
    RestartMovesNothing(s, key);
    assert Moves(t + more, key) == Moves(t, key);
    if key in s.world.tickets && NoFailure(t + more, s.world.tickets[key].owner) {
      NoFailureNotOurs(s.pc, t, more, s.world.tickets[key].owner);
      RestartKeepsMatch(s, Moves(t, key), s.world.tickets[key].owner, key);
    }
  }

  lemma StepKeepsMovesOk(s: State, step: Step, t: Trace, key: nat)
    requires Inv(s) && MovesOk(s, t, key)
    ensures MovesOk(Apply(s, step), t + Entries(s, step), key)
  {
    assert t + [] == t;
    if Enabled(s, step) {
      match step
      case Env(e) => EnvKeepsMovesOk(s, e, t, key);
      case Respond(outcome, hint) => AnswerKeepsMovesOk(s, outcome, hint, t, key);
      case Pop(name) => SamePartKeepsMovesOk(s, Apply(s, step), t, key);
      case Settle => SamePartKeepsMovesOk(s, Apply(s, step), t, key);
      case Restart => RestartKeepsMovesOk(s, t, Entries(s, step), key);
    }
  }

  lemma SamePartKeepsMovesOk(s: State, next: State, t: Trace, key: nat)
    requires MovesOk(s, t, key) && !HasReq(s.pc) && !HasReq(next.pc)
    requires next.world.requests == s.world.requests && next.world.tickets == s.world.tickets
    ensures MovesOk(next, t, key)
  {
  }

  lemma EnvKeepsMovesOk(s: State, e: EnvStep, t: Trace, key: nat)
    requires Inv(s) && MovesOk(s, t, key) && EnvEnabled(s.world, e)
    ensures MovesOk(State(EnvApply(s.world, e), s.pc), t, key)
  {
    EnvTickets(s.world, e, key);
    if key in s.world.tickets && NoFailure(t, s.world.tickets[key].owner) {
      EnvKeepsMovesMatch(s, e, Moves(t, key), s.world.tickets[key].owner, key);
    }
  }

  lemma EnvTickets(w: World, e: EnvStep, key: nat)
    requires EnvEnabled(w, e)
    ensures key in EnvApply(w, e).tickets <==> key in w.tickets
    ensures key in w.tickets ==> EnvApply(w, e).tickets[key].owner == w.tickets[key].owner
  {
  }

  lemma {:induction false} MovesOkHolds(s: State, steps: seq<Step>, key: nat)
    requires Init(s)
    ensures Inv(Run(s, steps)) && MovesOk(Run(s, steps), TraceOf(s, steps), key)
  {
    if steps == [] {
      InitInv(s);
    } else {
      var n := |steps| - 1;
      MovesOkHolds(s, steps[..n], key);
      StepKeepsInv(Run(s, steps[..n]), steps[n]);
      StepKeepsMovesOk(Run(s, steps[..n]), steps[n], TraceOf(s, steps[..n]), key);
    }
  }

  /**
   At every moment of a run in which no reconcile of the request failed, its recorded ticket has
   been moved by the operator at most once, and exactly as the stored status says: completed if
   Succeeded, not at all before.
   */
  lemma MovesFollowStatus(s: State, steps: seq<Step>, name: string)
    requires Init(s) && name in Run(s, steps).world.requests
    requires var r := Run(s, steps).world.requests[name];
             r.status.ticket.Issue? && NoFailure(TraceOf(s, steps), r.uid) && !PcFor(Run(s, steps).pc, r.uid)
    ensures var r := Run(s, steps).world.requests[name];
            Moves(TraceOf(s, steps), r.status.ticket.key) == if r.status.phase == Succeeded then (1, 0) else (0, 0)
  {
    var r := Run(s, steps).world.requests[name];
    MovesOkHolds(s, steps, r.status.ticket.key);
    assert RecordOk(Run(s, steps).world, name);
  }

  // The end of a request

  /** What has been done to the recorded ticket when the operator deletes the request. */
  function ClosingMoves(status: Status): (nat, nat) {
    if status.phase == Rejected then (0, 1) else (1, 0)
  }

  predicate ClosedOk(s: State, t: Trace, i: nat)
    requires i < |t|
  {
    t[i].Removed? && NoFailure(t, t[i].req.uid) ==>
      && Dead(s, t[i].req.uid)
      && (t[i].req.status.ticket.Issue? ==>
            && TicketOwned(s.world, t[i].req.status.ticket, t[i].req.uid)
            && Moves(t, t[i].req.status.ticket.key) == ClosingMoves(t[i].req.status))
  }

  /** Entries after a deletion do not touch the ticket of the deleted request. */
  lemma DeadTicketUnmoved(s: State, step: Step, uid: nat, key: nat)
    requires Inv(s) && Dead(s, uid) && key in s.world.tickets && s.world.tickets[key].owner == uid
    ensures Moves(Entries(s, step), key) == (0, 0)
    ensures key in Apply(s, step).world.tickets && Apply(s, step).world.tickets[key].owner == uid
  {
    if Enabled(s, step) {
      match step
      case Env(e) => EnvTickets(s.world, e, key);
      case Respond(outcome, hint) =>
        AnswerMovesCounted(s, outcome, hint, key);
        ForeignMovesNothing(s, outcome, key);
        PerformKeepsTicket(s.world, s.pc, outcome, hint, key);
      case Pop(_) =>
      case Settle =>
      case Restart => RestartMovesNothing(s, key);
    }
  }

  lemma StepKeepsClosed(s: State, step: Step, t: Trace, i: nat)
    requires Inv(s) && i < |t| && ClosedOk(s, t, i)
    ensures ClosedOk(Apply(s, step), t + Entries(s, step), i)
  {
    var more := Entries(s, step);
    if t[i].Removed? && NoFailure(t + more, t[i].req.uid) {
      NoFailureSplits(t, more, t[i].req.uid);
      StepKeepsDead(s, step, t[i].req.uid);
      if t[i].req.status.ticket.Issue? {
        var key := t[i].req.status.ticket.key;
        DeadTicketUnmoved(s, step, t[i].req.uid, key);
        MovesConcat(t, more, key);
      }
    }
  }

  lemma DeleteCloses(s: State, outcome: Outcome, hint: Hint, t: Trace)
    requires Inv(s) && s.pc.Delete? && outcome != Err && s.pc.req.name in s.world.requests
    requires s.pc.req.status.ticket.Issue? ==> MovesOk(s, t, s.pc.req.status.ticket.key)
    ensures ClosedOk(Answer(s, outcome, hint), t + AnswerEntries(s, outcome, hint), |t|)
  {
    var more := AnswerEntries(s, outcome, hint);
    assert (t + more)[|t|] == Removed(s.pc.req, s.world.requests[s.pc.req.name]);
    DeleteMakesDead(s, outcome, hint);
    if s.pc.req.status.ticket.Issue? && NoFailure(t + more, s.pc.req.uid) {
      var key := s.pc.req.status.ticket.key;
      NoFailureSplits(t, more, s.pc.req.uid);
      MovesConcat(t, more, key);
      AnswerMovesCounted(s, outcome, hint, key);
    }
  }

  lemma {:induction false} ClosedHolds(s: State, steps: seq<Step>, i: nat)
    requires Init(s) && i < |TraceOf(s, steps)|
    ensures ClosedOk(Run(s, steps), TraceOf(s, steps), i)
  {
    var n := |steps| - 1;
    var before, t := Run(s, steps[..n]), TraceOf(s, steps[..n]);
    Reachable(s, steps[..n]);
    if i < |t| {
      ClosedHolds(s, steps[..n], i);
      StepKeepsClosed(before, steps[n], t, i);
    } else if TraceOf(s, steps)[i].Removed? {
      OnlyDeleteRemoves(before, steps[n], i - |t|);
      if before.pc.req.status.ticket.Issue? {
        MovesOkHolds(s, steps[..n], before.pc.req.status.ticket.key);
      }
      DeleteCloses(before, steps[n].outcome, steps[n].hint, t);
    }
  }

  lemma {:induction false} BreakingOffIsFailing(t: Trace, uid: nat)
    ensures Count(t, BrokeOff(uid)) <= Count(t, FailedFor(uid))
  {
    if t != [] {
      BreakingOffIsFailing(t[..|t| - 1], uid);
    }
  }

  /**
   Ticket closure: when the operator has deleted a request and none of its reconciles failed, it is
   gone for good. If it was Skipped, no ticket was ever opened for it. Otherwise exactly one was, and
   it has exactly one operator transition in the whole run, completing it if the request was
   Succeeded and rejecting it if it was Rejected.
   */
  lemma DeletedRequestHasClosedTicket(s: State, steps: seq<Step>, i: nat)
    requires Init(s) && i < |TraceOf(s, steps)| && TraceOf(s, steps)[i].Removed?
    requires NoFailure(TraceOf(s, steps), TraceOf(s, steps)[i].req.uid)
    ensures var t := TraceOf(s, steps); var req := t[i].req;
            && Dead(Run(s, steps), req.uid)
            && (req.status.ticket.Skipped? ==> Count(t, OpenedFor(req.uid)) == 0)
            && (req.status.ticket.Issue? ==>
                  && Count(t, OpenedFor(req.uid)) == 1 && WasOpened(t, req.uid, req.status.ticket.key)
                  && Moves(t, req.status.ticket.key) == ClosingMoves(req.status))
  {
    ClosedHolds(s, steps, i);
    BreakingOffIsFailing(TraceOf(s, steps), TraceOf(s, steps)[i].req.uid);
    DeletedRequestHadOneTicket(s, steps, i);
  }
}
