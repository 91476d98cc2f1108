/**
 * `PrPollingService.processSession` as code (apps/api/src/pr-polling-service.ts:123-235), call
 * by call. Before each call comments may arrive and time may pass. Its contract: whatever
 * fails, the call is a run of the machine of PrPolling that leaves no poll under way.
 */
module PrPoller {
  import opened Wrappers
  import opened PrComments
  import opened PrPolling

  predicate IsOutside(step: Step) {
    step.Tick? || step.Post?
  }

  predicate OutsideOnly(bots: set<string>, w: World, steps: seq<Step>) {
    IsRun(bots, w, steps) && forall i :: 0 <= i < |steps| ==> IsOutside(steps[i])
  }

  lemma {:induction false} OutsideKeepsThePoll(bots: set<string>, w: World, steps: seq<Step>)
    requires OutsideOnly(bots, w, steps)
    ensures var w' := After(bots, w, steps);
      && w'.pc == w.pc && w'.cursor == w.cursor && w'.batches == w.batches
      && w'.tasks == w.tasks && w'.jobs == w.jobs && w.comments <= w'.comments
    decreases |steps|
  {
    if steps != [] {
      assert forall i :: 0 <= i < |steps[1..]| ==> steps[1..][i] == steps[i + 1];
      OutsideKeepsThePoll(bots, Apply(bots, w, steps[0]), steps[1..]);
    }
  }

  datatype Ending = Skipped | FetchFailed | NothingNew | HandedOver | Busy | Threw

  class PrPollingService {
    const botLogins: set<string>
    var w: World

    constructor (botLogins: set<string>, now: int)
      ensures this.botLogins == botLogins && w == Initial(now)
    {
      this.botLogins := botLogins;
      w := Initial(now);
    }

    /** Comments and time, between two calls of the poll. */
    method Pause(ghost origin: World)
      requires Reaches(botLogins, origin, w)
      modifies this
      ensures Reaches(botLogins, origin, w)
      ensures w.pc == old(w.pc) && w.cursor == old(w.cursor) && w.batches == old(w.batches)
      ensures w.tasks == old(w.tasks) && w.jobs == old(w.jobs) && old(w.comments) <= w.comments
    {
      assert OutsideOnly(botLogins, w, []);
      var steps :| OutsideOnly(botLogins, w, steps);
      OutsideKeepsThePoll(botLogins, w, steps);
      ReachesFurther(botLogins, origin, w, steps);
      w := After(botLogins, w, steps);
    }

    method Make(ghost origin: World, step: Step)
      requires Reaches(botLogins, origin, w) && Enabled(w, step)
      modifies this
      ensures Reaches(botLogins, origin, w) && w == Apply(botLogins, old(w), step)
    {
      ghost var next := Extend(botLogins, origin, w, step);
      w := Apply(botLogins, w, step);
    }

    /** None when the provider call fails; `seen` are the comments there at the fetch. */
    method FetchNewComments(ghost origin: World) returns (batch: Option<seq<Comment>>, ghost seen: seq<Comment>)
      requires Reaches(botLogins, origin, w) && w.pc.AtFetch?
      modifies this
      ensures Reaches(botLogins, origin, w) && old(w.comments) <= seen == w.comments && w.cursor == old(w.cursor)
      ensures batch.None? ==> w.pc.Idle?
      ensures batch.Some? ==> batch.value == FirstOf(Pending(seen, botLogins, w.cursor))
      ensures batch.Some? && batch.value == [] ==> w.pc == AtAdvance(old(w.pc.started), [])
      ensures batch.Some? && batch.value != [] ==> w.pc == AtInsert(batch.value)
      ensures w.batches == old(w.batches)
    {
      Pause(origin);
      seen := w.comments;
      var works: bool := *;
      if works {
        var fetched := FilterAndSortComments(w.comments, w.cursor, botLogins);
        batch := Some(fetched);
      } else {
        batch := None;
      }
      Make(origin, Fetch(works));
    }

    method InsertReviewTask(ghost origin: World, batch: seq<Comment>) returns (task: Option<nat>)
      requires Reaches(botLogins, origin, w) && w.pc == AtInsert(batch)
      modifies this
      ensures Reaches(botLogins, origin, w) && old(w.comments) <= w.comments && w.cursor == old(w.cursor)
      ensures if task.Some? then w.pc == AtEnqueue(batch, task.value) else w.pc.Idle?
      ensures w.batches == old(w.batches)
    {
      Pause(origin);
      var outcome: Outcome := *;
      task := if outcome == Works then Some(w.nextTask) else None;
      Make(origin, InsertTask(outcome));
    }

    method EnqueueTask(ghost origin: World, batch: seq<Comment>, task: nat) returns (result: EnqueueResult)
      requires Reaches(botLogins, origin, w) && w.pc == AtEnqueue(batch, task) && batch != []
      modifies this
      ensures Reaches(botLogins, origin, w) && old(w.comments) <= w.comments && w.cursor == old(w.cursor)
      ensures result.Accepted? ==>
        w.pc == AtAdvance(NextPolledAt(batch, 0), batch) && w.batches == old(w.batches) + [batch] && task in w.jobs
      ensures !result.Accepted? ==> w.pc == AtCancel(batch, task, result) && w.batches == old(w.batches)
    {
      Pause(origin);
      result := *;
      Make(origin, Enqueue(result));
    }

    method CancelInsertedReviewTask(ghost origin: World, task: nat) returns (threw: bool)
      requires Reaches(botLogins, origin, w) && w.pc.AtCancel? && w.pc.task == task && task in w.tasks
      modifies this
      ensures Reaches(botLogins, origin, w) && w.pc.Idle?
      ensures !threw ==> task in w.tasks && w.tasks[task].status == Cancelled
      ensures w.cursor == old(w.cursor)
      ensures w.batches == old(w.batches) ||
        (threw && old(w.pc.result).RejectedAfterInsert? && w.batches == old(w.batches) + [old(w.pc.batch)])
    {
      Pause(origin);
      var outcome: Outcome := *;
      Make(origin, Cancel(outcome));
      threw := outcome != Works;
    }

    method AdvanceSessionPoll(ghost origin: World, next: int) returns (threw: bool)
      requires Reaches(botLogins, origin, w) && w.pc.AtAdvance? && w.pc.next == next
      modifies this
      ensures Reaches(botLogins, origin, w) && w.pc.Idle? && old(w.comments) <= w.comments
      ensures !threw ==> w.cursor == Some(next)
      ensures w.batches == old(w.batches)
    {
      Pause(origin);
      var outcome: Outcome := *;
      Make(origin, Advance(outcome));
      threw := outcome != Works;
    }

    /**
     * One more batch was enqueued, the oldest of the comments seen later than the old cursor, and
     * the cursor stands at its last comment.
     */
    predicate HandedOverFrom(before: World, seen: seq<Comment>)
      reads this
    {
      var batch := FirstOf(Pending(seen, botLogins, before.cursor));
      && before.comments <= seen <= w.comments
      && batch != []
      && w.batches == before.batches + [batch]
      && w.cursor == Some(NextPolledAt(batch, 0))
    }

    /** One poll of the session; the caller logs what it throws and goes on with the next session. */
    method ProcessSession(prIsOpen: bool) returns (ending: Ending, ghost seen: seq<Comment>)
      requires Reachable(botLogins, w) && w.pc.Idle?
      modifies this
      ensures Reaches(botLogins, old(w), w) && w.pc.Idle?
      ensures NotBack(old(w.cursor), w.cursor)
      ensures ending.HandedOver? ==> HandedOverFrom(old(w), seen)
      ensures ending in {Skipped, FetchFailed, NothingNew, Busy} ==> w.batches == old(w.batches)
      ensures ending.NothingNew? ==> Pending(seen, botLogins, old(w.cursor)) == [] && old(w.comments) <= seen
    {
      ghost var origin := w;
      ReachesItself(botLogins, w);
      ending, seen := PollSession(origin, prIsOpen);
      CursorNeverMovesBack(botLogins, origin, w);
    }

    method PollSession(ghost origin: World, prIsOpen: bool) returns (ending: Ending, ghost seen: seq<Comment>)
      requires Reachable(botLogins, w) && w.pc.Idle? && Reaches(botLogins, origin, w) && origin == w
      modifies this
      ensures Reaches(botLogins, origin, w) && w.pc.Idle?
      ensures ending.HandedOver? ==> HandedOverFrom(old(w), seen)
      ensures ending in {Skipped, FetchFailed, NothingNew, Busy} ==> w.batches == old(w.batches)
      ensures ending.NothingNew? ==> Pending(seen, botLogins, old(w.cursor)) == [] && old(w.comments) <= seen
    {
      seen := [];
      if !prIsOpen {
        return Skipped, seen;
      }
      Make(origin, Open);
      var batch: Option<seq<Comment>>;
      batch, seen := FetchNewComments(origin);
      if batch.None? {
        return FetchFailed, seen;
      }
      if batch.value == [] {
        var threw := AdvanceSessionPoll(origin, w.pc.next);
        return if threw then Threw else NothingNew, seen;
      }
      ending := HandOver(origin, batch.value);
    }

    /** The part of a poll that has new comments. */
    method HandOver(ghost origin: World, batch: seq<Comment>) returns (ending: Ending)
      requires Reachable(botLogins, origin) && Reaches(botLogins, origin, w) && w.pc == AtInsert(batch) && batch != []
      modifies this
      ensures Reaches(botLogins, origin, w) && w.pc.Idle?
      ensures ending in {Busy, HandedOver, Threw}
      ensures ending.HandedOver? ==>
        && old(w.comments) <= w.comments
        && w.batches == old(w.batches) + [batch]
        && w.cursor == Some(NextPolledAt(batch, 0))
      ensures ending.Busy? ==> w.batches == old(w.batches)
    {
      var task := InsertReviewTask(origin, batch);
      if task.None? {
        return Threw;
      }
      var result := EnqueueTask(origin, batch, task.value);
      if !result.Accepted? {
        CancelledTaskIsThere(origin, w);
        var threw := CancelInsertedReviewTask(origin, task.value);
        return if threw || !result.Collision? then Threw else Busy;
      }
      var threw := AdvanceSessionPoll(origin, w.pc.next);
      ending := if threw then Threw else HandedOver;
    }

    /** In a reachable world the task about to be cancelled has a row. */
    lemma CancelledTaskIsThere(origin: World, w: World)
      requires Reachable(botLogins, origin) && Reaches(botLogins, origin, w)
      ensures w.pc.AtCancel? ==> w.pc.task in w.tasks
    {
      var now :| Reaches(botLogins, Initial(now), origin);
      ReachesTransitive(botLogins, Initial(now), origin, w);
      CancelledTaskExists(botLogins, w);
    }
  }
}
