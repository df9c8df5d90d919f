/**
 * The maintenance-mode controller of the REST service: one optional persisted
 * record (the maintenance file), a read path that refreshes the countdown of
 * running executions, and an action endpoint that activates or deactivates
 * maintenance mode.
 */
module Maintenance {
  import opened Wrappers

  /** The three values the `status` field of the maintenance dict takes. */
  datatype Status = Deactivated | Activating | Activated

  /** The maintenance dict: the content of the maintenance file and the body of every reply. */
  datatype MaintenanceRecord = MaintenanceRecord(
    status: Status,
    activationRequestedAt: string,
    remainingExecutions: Option<nat>,
    requestedBy: string)

  /**
   * The errors the action endpoint raises for an unknown action: BadParametersError
   * with its message, or Python 2's UnicodeEncodeError when formatting that message
   * into a byte-string template fails on a non-ASCII action name.
   */
  datatype ApiError = BadParametersError(message: string) | UnicodeEncodeError

  /** A successful reply: the state, and whether the request changed nothing (HTTP 304). */
  datatype Reply = Reply(state: MaintenanceRecord, notModified: bool)

  /** One call of the action endpoint with the environment it observes. */
  datatype Request = Request(action: string, running: nat, now: string, user: Option<string>)

  /** What one action does: the reply it gives and the maintenance file it leaves behind. */
  datatype Transition = Transition(reply: Result<Reply, ApiError>, next: Option<MaintenanceRecord>)

  /** The dict reported when no maintenance file exists. */
  const DeactivatedRecord := MaintenanceRecord(Deactivated, "", None, "")

  /** The requesting user's name, or the empty string when the request has none. */
  function UserName(user: Option<string>): string {
    match user
    case Some(u) => u
    case None => ""
  }

  /** The record written by a successful activation. */
  function ActivationRecord(running: nat, now: string, user: Option<string>): MaintenanceRecord {
    MaintenanceRecord(Activating, now, Some(running), UserName(user))
  }

  predicate IsValidAction(action: string) {
    action == "activate" || action == "deactivate"
  }

  /** Every character of `s` is ASCII, so Python 2 can format it into a byte string. */
  predicate IsAscii(s: string) {
    forall i :: 0 <= i < |s| ==> s[i] < 128 as char
  }

  /** The message of BadParametersError, naming the action and the list of valid ones. */
  function InvalidActionMessage(action: string): string {
    "Invalid action: " + action + ", Valid action values are: ['activate', 'deactivate']"
  }

  /**
   * Every maintenance file this controller (or the promotion hook outside it)
   * can leave: none, or one whose status is activating or activated.
   */
  predicate Inv(stored: Option<MaintenanceRecord>) {
    stored.None? || stored.value.status != Deactivated
  }

  /**
   * The permitted changes of the maintenance file in one action: none, removal,
   * or the creation of an activating record where there was none.
   */
  predicate Allowed(before: Option<MaintenanceRecord>, after: Option<MaintenanceRecord>) {
    after == before || after.None? || (before.None? && after.Some? && after.value.status == Activating)
  }

  /**
   * What the read path reports for a stored file and the live count of running
   * executions; None is the handler falling off its end, for a stored status that
   * is neither activated nor activating.
   */
  function Read(stored: Option<MaintenanceRecord>, running: nat): (r: Option<MaintenanceRecord>)
    ensures stored.None? ==> r == Some(DeactivatedRecord)
    ensures r.Some? <==> Inv(stored)
    ensures stored.Some? && r.Some? ==>
              && r.value.status == stored.value.status
              && r.value.activationRequestedAt == stored.value.activationRequestedAt
              && r.value.requestedBy == stored.value.requestedBy
              && r.value.remainingExecutions ==
                   (if stored.value.status == Activating then Some(running) else stored.value.remainingExecutions)
  {
    match stored
    case None => Some(DeactivatedRecord)
    case Some(state) =>
      if state.status == Activated then Some(state)
      else if state.status == Activating then Some(state.(remainingExecutions := Some(running)))
      else None
  }

  /** The effect of one call of the action endpoint on the stored file. */
  function Apply(stored: Option<MaintenanceRecord>, req: Request): (t: Transition)
    ensures Allowed(stored, t.next)
    ensures Inv(stored) ==> Inv(t.next)
    ensures t.reply.Failure? || t.reply.value.notModified ==> t.next == stored
    ensures Inv(stored) && t.reply.Success? ==> (t.reply.value.state.status != Deactivated <==> t.next.Some?)
  {
    if req.action == "activate" then
      match stored
      case Some(state) => Transition(Success(Reply(state, true)), stored)
      case None =>
        var created := ActivationRecord(req.running, req.now, req.user);
        Transition(Success(Reply(created, false)), Some(created))
    else if req.action == "deactivate" then
      Transition(Success(Reply(DeactivatedRecord, stored.None?)), None)
    else if !IsAscii(req.action) then
      Transition(Failure(UnicodeEncodeError), stored)
    else
      Transition(Failure(BadParametersError(InvalidActionMessage(req.action))), stored)
  }

  /** The maintenance file after a sequence of actions. */
  function Run(stored: Option<MaintenanceRecord>, reqs: seq<Request>): Option<MaintenanceRecord>
    decreases |reqs|
  {
    if reqs == [] then stored else Run(Apply(stored, reqs[0]).next, reqs[1..])
  }

  /** The last valid action of a sequence of requests, if it has one. */
  function LastValidAction(reqs: seq<Request>): Option<string>
    decreases |reqs|
  {
    if reqs == [] then None
    else
      match LastValidAction(reqs[1..])
      case Some(a) => Some(a)
      case None => if IsValidAction(reqs[0].action) then Some(reqs[0].action) else None
  }

  /** The persisted maintenance state of one manager, and the two endpoints over it. */
  class MaintenanceMode {
    /** The maintenance file: None when it does not exist. */
    var record: Option<MaintenanceRecord>

    constructor (stored: Option<MaintenanceRecord>)
      ensures record == stored
    {
      record := stored;
    }

    /**
     * GET of the maintenance state; `running` is the live running-execution count.
     * The stateful counterpart of `Read`.
     */
    method Get(running: nat) returns (r: Option<MaintenanceRecord>)
      ensures r == Read(record, running)
      ensures record.None? ==> r == Some(DeactivatedRecord)
      ensures record.Some? && record.value.status == Activated ==> r == record
      ensures record.Some? && record.value.status == Activating ==>
                r.Some? && r.value.remainingExecutions == Some(running) &&
                r.value == record.value.(remainingExecutions := r.value.remainingExecutions)
      ensures Inv(record) <==> r.Some?
    {
      if record.Some? {
        var state := record.value;
        if state.status == Activated {
          return Some(state);
        }
        if state.status == Activating {
          // no immediate promotion here: that happens in a hook outside this controller
          state := state.(remainingExecutions := Some(running));
          return Some(state);
        }
        return None;
      }
      return Some(DeactivatedRecord);
    }

    /**
     * POST of a maintenance action; `running`, `now` and `user` are the running-execution
     * count, the clock and the requesting user at the time of the call. The stateful
     * counterpart of `Apply`: `record` becomes the file `Apply` leaves.
     */
    method Post(action: string, running: nat, now: string, user: Option<string>)
      returns (reply: Result<Reply, ApiError>)
      modifies this
      ensures Transition(reply, record) == Apply(old(record), Request(action, running, now, user))
      ensures action == "activate" && old(record).Some? ==>
                reply == Success(Reply(old(record).value, true)) && record == old(record)
      ensures action == "activate" && old(record).None? ==>
                && reply.Success? && !reply.value.notModified
                && record == Some(reply.value.state)
                && reply.value.state.status == Activating
                && reply.value.state.remainingExecutions == Some(running)
                && reply.value.state.activationRequestedAt == now
                && reply.value.state.requestedBy == (if user.Some? then user.value else "")
      ensures action == "deactivate" ==>
                reply == Success(Reply(DeactivatedRecord, old(record).None?)) && record.None?
      ensures !IsValidAction(action) && IsAscii(action) ==>
                reply == Failure(BadParametersError(InvalidActionMessage(action))) && record == old(record)
      ensures !IsValidAction(action) && !IsAscii(action) ==>
                reply == Failure(UnicodeEncodeError) && record == old(record)
    {
      if action == "activate" {
        if record.Some? {
          return Success(Reply(record.value, true));
        }
        var newState := ActivationRecord(running, now, user);
        record := Some(newState);
        return Success(Reply(newState, false));
      }
      if action == "deactivate" {
        if record.None? {
          return Success(Reply(DeactivatedRecord, true));
        }
        record := None;
        return Success(Reply(DeactivatedRecord, false));
      }
      if !IsAscii(action) {
        // formatting the non-ASCII name into the byte-string message fails first
        return Failure(UnicodeEncodeError);
      }
      return Failure(BadParametersError(InvalidActionMessage(action)));
    }
  }

  /** A deactivation followed by any read reports deactivated, whatever was stored before. */
  lemma ReadAfterDeactivate(stored: Option<MaintenanceRecord>, req: Request, running: nat)
    requires req.action == "deactivate"
    ensures Read(Apply(stored, req).next, running) == Some(DeactivatedRecord)
  {
  }

  /** A second activation is a no-op that reports the record the first one wrote. */
  lemma ActivateIsIdempotent(stored: Option<MaintenanceRecord>, first: Request, second: Request)
    requires first.action == "activate" && second.action == "activate"
    ensures var after := Apply(stored, first).next;
            after.Some? && Apply(after, second) == Transition(Success(Reply(after.value, true)), after)
  {
  }

  /** Every sequence of actions keeps the maintenance file within the invariant. */
  lemma {:induction false} RunPreservesInv(stored: Option<MaintenanceRecord>, reqs: seq<Request>)
    requires Inv(stored)
    ensures Inv(Run(stored, reqs))
    decreases |reqs|
  {
    if reqs != [] {
      RunPreservesInv(Apply(stored, reqs[0]).next, reqs[1..]);
    }
  }

  /**
   * After any sequence of actions a maintenance file exists exactly when the last
   * valid action was an activation (or, with no valid action, when one existed before).
   */
  lemma {:induction false} RunReflectsLastAction(stored: Option<MaintenanceRecord>, reqs: seq<Request>)
    ensures Run(stored, reqs).Some? <==>
              match LastValidAction(reqs)
              case None => stored.Some?
              case Some(a) => a == "activate"
    decreases |reqs|
  {
    if reqs != [] {
      RunReflectsLastAction(Apply(stored, reqs[0]).next, reqs[1..]);
    }
  }

  /** Without a deactivation, an existing maintenance file is never rewritten. */
  lemma {:induction false} RunKeepsExistingRecord(stored: Option<MaintenanceRecord>, reqs: seq<Request>)
    requires stored.Some?
    requires forall i :: 0 <= i < |reqs| ==> reqs[i].action != "deactivate"
    ensures Run(stored, reqs) == stored
    decreases |reqs|
  {
    if reqs != [] {
      RunKeepsExistingRecord(Apply(stored, reqs[0]).next, reqs[1..]);
    }
  }

  /**
   * An activation from the deactivated state, followed by any actions other than
   * deactivation, leaves the record that activation wrote, and a read then reports
   * its timestamp and user with the live running-execution count.
   */
  lemma ActivationSurvivesUntilDeactivate(reqs: seq<Request>, running: nat)
    requires |reqs| > 0 && reqs[0].action == "activate"
    requires forall i :: 0 < i < |reqs| ==> reqs[i].action != "deactivate"
    ensures var created := ActivationRecord(reqs[0].running, reqs[0].now, reqs[0].user);
            Run(None, reqs) == Some(created) &&
            Read(Run(None, reqs), running) == Some(created.(remainingExecutions := Some(running)))
  {
    var created := ActivationRecord(reqs[0].running, reqs[0].now, reqs[0].user);
    assert Apply(None, reqs[0]).next == Some(created);
    var rest := reqs[1..];
    assert forall i :: 0 <= i < |rest| ==> rest[i].action != "deactivate" by {
      forall i | 0 <= i < |rest| ensures rest[i].action != "deactivate" {
        assert rest[i] == reqs[i + 1];
      }
    }
    RunKeepsExistingRecord(Some(created), rest);
  }
}
