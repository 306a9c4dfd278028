/** One user's entry in `generation_queue_concurrency_list`, followed through
    a run of that user's events: a request arrives (and is admitted only when
    the counter is below the depth), or one of their pending requests finishes,
    successfully or with an exception. The class `Dispatch.Client` keeps the
    same counter for every user at once; this module isolates one user so the
    consequences of the bookkeeping over whole runs can be stated. */
module Counters {

  datatype UserEvent = Arrive | Complete(failed: bool)

  /** The counter the client keeps and the number of requests really pending. */
  datatype UserState = UserState(count: int, pending: nat)

  const Start: UserState := UserState(0, 0)

  /** The admission test of `is_room_in_queue`. */
  predicate Admits(s: UserState, depth: int)
  {
    s.count < depth
  }

  /** The bookkeeping as written: a failed request is decremented in `except`
      and again in `finally`. A completion with nothing pending cannot happen
      and changes nothing. */
  function StepAsWritten(s: UserState, depth: int, e: UserEvent): UserState
  {
    match e
    case Arrive => if Admits(s, depth) then UserState(s.count + 1, s.pending + 1) else s
    case Complete(failed) =>
      if s.pending == 0 then s
      else UserState(s.count - (if failed then 2 else 1), s.pending - 1)
  }

  /** The bookkeeping with one decrement per finished request. */
  function StepCorrected(s: UserState, depth: int, e: UserEvent): UserState
  {
    match e
    case Arrive => if Admits(s, depth) then UserState(s.count + 1, s.pending + 1) else s
    case Complete(_) => if s.pending == 0 then s else UserState(s.count - 1, s.pending - 1)
  }

  function RunAsWritten(s: UserState, depth: int, events: seq<UserEvent>): UserState
    decreases |events|
  {
    if events == [] then s else RunAsWritten(StepAsWritten(s, depth, events[0]), depth, events[1..])
  }

  function RunCorrected(s: UserState, depth: int, events: seq<UserEvent>): UserState
    decreases |events|
  {
    if events == [] then s else RunCorrected(StepCorrected(s, depth, events[0]), depth, events[1..])
  }

  /** The number of failed completions that found a pending request. */
  function Failures(s: UserState, depth: int, events: seq<UserEvent>): nat
    decreases |events|
  {
    if events == [] then 0
    else
      var e := events[0];
      (if e.Complete? && e.failed && s.pending > 0 then 1 else 0)
      + Failures(StepAsWritten(s, depth, e), depth, events[1..])
  }

  /** As written, the counter falls one further behind the pending requests
      with every failure. */
  lemma {:induction false} AsWrittenCount(s: UserState, depth: int, events: seq<UserEvent>)
    ensures RunAsWritten(s, depth, events).count
            == RunAsWritten(s, depth, events).pending + (s.count - s.pending) - Failures(s, depth, events)
    decreases |events|
  {
    if events != [] {
      AsWrittenCount(StepAsWritten(s, depth, events[0]), depth, events[1..]);
    }
  }

  /** As written, a user whose first request fails has a counter of -1 with
      nothing pending, and can then have two requests pending at depth 1. */
  lemma AsWrittenExceedsDepth()
    ensures RunAsWritten(Start, 1, [Arrive, Complete(true)]) == UserState(-1, 0)
    ensures RunAsWritten(Start, 1, [Arrive, Complete(true), Arrive, Arrive]) == UserState(1, 2)
  {
    var s1 := StepAsWritten(Start, 1, Arrive);
    var s2 := StepAsWritten(s1, 1, Complete(true));
    var s3 := StepAsWritten(s2, 1, Arrive);
    var s4 := StepAsWritten(s3, 1, Arrive);
    assert s2 == UserState(-1, 0) && s4 == UserState(1, 2);
    assert [Arrive, Complete(true), Arrive, Arrive][1..] == [Complete(true), Arrive, Arrive];
    assert [Complete(true), Arrive, Arrive][1..] == [Arrive, Arrive];
    assert [Arrive, Arrive][1..] == [Arrive];
    assert [Arrive, Complete(true)][1..] == [Complete(true)];
    assert [Complete(true)][1..] == [];
  }

  /** With one decrement per finished request the counter always equals the
      number of pending requests, which never exceeds the depth. */
  lemma {:induction false} CorrectedCountIsPending(s: UserState, depth: int, events: seq<UserEvent>)
    requires s.count == s.pending && s.pending <= (if depth < 0 then 0 else depth)
    ensures RunCorrected(s, depth, events).count == RunCorrected(s, depth, events).pending
    ensures RunCorrected(s, depth, events).pending <= (if depth < 0 then 0 else depth)
    decreases |events|
  {
    if events != [] {
      CorrectedCountIsPending(StepCorrected(s, depth, events[0]), depth, events[1..]);
    }
  }

  /** From a fresh counter, the corrected bookkeeping never lets a user hold
      more pending requests than the depth. */
  lemma CorrectedNeverExceedsDepth(depth: int, events: seq<UserEvent>)
    ensures RunCorrected(Start, depth, events).pending <= (if depth < 0 then 0 else depth)
    ensures RunCorrected(Start, depth, events).count >= 0
  {
    CorrectedCountIsPending(Start, depth, events);
  }
}
