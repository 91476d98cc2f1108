/**
 * `scanStaleThreads` as code (apps/api/src/stale-thread-scanner.ts:117-194): its loop, its
 * counter and its audit writes, call by call. Before each call activity may happen and time
 * may pass. Its contract: whatever fails, a scan is a run of the machine of StaleThreads that
 * sends no more nudges than the cap.
 */
module StaleScanner {
  import opened Wrappers
  import opened StaleThreads

  predicate IsOutside(step: Step) {
    step.Tick? || step.Add? || step.Touch? || step.Move?
  }

  predicate OutsideOnly(c: Config, w: World, steps: seq<Step>) {
    IsRun(c, w, steps) && forall i :: 0 <= i < |steps| ==> IsOutside(steps[i])
  }

  lemma {:induction false} OutsideKeepsTheScan(c: Config, w: World, steps: seq<Step>)
    requires OutsideOnly(c, w, steps)
    ensures var w' := After(c, w, steps); w'.pc == w.pc && w'.audits == w.audits && w'.nudges == w.nudges
    decreases |steps|
  {
    if steps != [] {
      assert forall i :: 0 <= i < |steps[1..]| ==> steps[1..][i] == steps[i + 1];
      OutsideKeepsTheScan(c, Apply(c, w, steps[0]), steps[1..]);
    }
  }

  lemma {:induction false} RunConcat(c: Config, w: World, first: seq<Step>, second: seq<Step>)
    requires IsRun(c, w, first) && IsRun(c, After(c, w, first), second)
    ensures IsRun(c, w, first + second)
    ensures After(c, w, first + second) == After(c, After(c, w, first), second)
    decreases |first|
  {
    if first == [] {
      assert first + second == second;
    } else {
      RunConcat(c, Apply(c, w, first[0]), first[1..], second);
      assert (first + second)[1..] == first[1..] + second;
    }
  }

  lemma ReachesFurther(c: Config, origin: World, w: World, steps: seq<Step>)
    requires Reaches(c, origin, w) && IsRun(c, w, steps)
    ensures Reaches(c, origin, After(c, w, steps))
  {
    var first :| IsRun(c, origin, first) && After(c, origin, first) == w;
    RunConcat(c, origin, first, steps);
  }

  class Scanner {
    const config: Config
    const globalEnabled: bool
    var w: World

    constructor (config: Config, globalEnabled: bool, now: int)
      ensures this.config == config && this.globalEnabled == globalEnabled && w == Initial(now)
    {
      this.config := config;
      this.globalEnabled := globalEnabled;
      w := Initial(now);
    }

    /** Activity and time, between two calls of the scan. */
    method Pause(ghost origin: World)
      requires Reaches(config, origin, w)
      modifies this
      ensures Reaches(config, origin, w)
      ensures w.pc == old(w.pc) && w.audits == old(w.audits) && w.nudges == old(w.nudges)
    {
      assert OutsideOnly(config, w, []);
      var steps :| OutsideOnly(config, w, steps);
      OutsideKeepsTheScan(config, w, steps);
      ReachesFurther(config, origin, w, steps);
      w := After(config, w, steps);
    }

    method Make(ghost origin: World, step: Step)
      requires Reaches(config, origin, w) && Enabled(config, w, step)
      modifies this
      ensures Reaches(config, origin, w) && w == Apply(config, old(w), step)
    {
      assert After(config, w, [step]) == Apply(config, w, step) && IsRun(config, w, [step]) by {
        assert [step][1..] == [];
      }
      ReachesFurther(config, origin, w, [step]);
      w := Apply(config, w, step);
    }

    method AlreadyHandled(ghost origin: World, withinBudget: bool) returns (handled: Option<bool>)
      requires Reaches(config, origin, w) && Enabled(config, w, Check(true, withinBudget))
      modifies this
      ensures Reaches(config, origin, w) && w.nudges == old(w.nudges)
      ensures handled != Some(false) ==> w.pc == Loop(old(w.pc.rest)[1..], old(w.pc.handled))
      ensures handled == Some(false) ==>
        w.pc == if withinBudget then AtAnchor(old(w.pc.rest)[0], old(w.pc.rest)[1..], old(w.pc.handled) + 1)
                else AtDecline(old(w.pc.rest)[0], old(w.pc.rest)[1..], old(w.pc.handled) + 1)
    {
      Pause(origin);
      var works: bool := *;
      handled := if works then Some(Handled(w.audits, w.pc.rest[0])) else None;
      Make(origin, Check(works, withinBudget));
    }

    /** `tryWriteAudit`: never throws, tells whether the row is there. */
    method TryWriteAudit(ghost origin: World) returns (written: bool)
      requires Reaches(config, origin, w) && (w.pc.AtDecline? || w.pc.AtAnchor? || w.pc.AtReport?)
      modifies this
      ensures Reaches(config, origin, w) && w.nudges == old(w.nudges)
      ensures if written && old(w.pc).AtAnchor?
        then w.pc.AtDeliver? && w.pc.rest == old(w.pc.rest) && w.pc.handled == old(w.pc.handled)
        else w.pc == Loop(old(w.pc.rest), old(w.pc.handled))
    {
      Pause(origin);
      var outcome: Outcome := *;
      written := outcome == Works;
      var step :=
        if w.pc.AtDecline? then Decline(outcome) else if w.pc.AtAnchor? then Anchor(outcome) else Report(outcome);
      Make(origin, step);
    }

    /** The nudge may become visible although the send throws; either way the outcome is audited. */
    method DeliverNudge(ghost origin: World)
      requires Reaches(config, origin, w) && w.pc.AtDeliver?
      modifies this
      ensures Reaches(config, origin, w) && |w.nudges| <= |old(w.nudges)| + 1
      ensures w.pc == Loop(old(w.pc.rest), old(w.pc.handled))
    {
      Pause(origin);
      var outcome: Outcome := *;
      Make(origin, Deliver(outcome));
      var written := TryWriteAudit(origin);
    }

    /** One candidate of the loop; `counted` when it takes up one of the tick's places. */
    method HandleThread(ghost origin: World) returns (counted: bool)
      requires Reaches(config, origin, w) && w.pc.Loop? && w.pc.rest != [] && w.pc.handled < config.maxPerTick
      modifies this
      ensures Reaches(config, origin, w)
      ensures w.pc == Loop(old(w.pc.rest)[1..], old(w.pc.handled) + (if counted then 1 else 0))
      ensures |w.nudges| <= |old(w.nudges)| + (if counted then 1 else 0)
    {
      if w.pc.rest[0].chatId !in config.allowed {
        Make(origin, Proceed);
        return false;
      }
      var withinBudget: bool := *;
      var handled := AlreadyHandled(origin, withinBudget);
      if handled != Some(false) {
        return false;
      }
      counted := true;
      var anchored := TryWriteAudit(origin);
      if withinBudget && anchored {
        DeliverNudge(origin);
      }
    }

    method ScanStaleThreads()
      requires Reachable(config, w) && w.pc.Idle?
      modifies this
      ensures Reaches(config, old(w), w) && w.pc.Idle?
      ensures |w.nudges| <= |old(w.nudges)| + config.maxPerTick
      ensures !globalEnabled ==> w == old(w)
    {
      ghost var origin := w;
      assert IsRun(config, w, []) && After(config, w, []) == w;
      if !globalEnabled {
        return;
      }
      var works: bool := *;
      Make(origin, Load(works));
      if !works {
        return;
      }
      Pause(origin);
      Make(origin, ReadClock);
      var handled := 0;
      while w.pc.rest != [] && handled < config.maxPerTick
        invariant Reaches(config, origin, w) && w.pc.Loop? && w.pc.handled == handled <= config.maxPerTick
        invariant |w.nudges| <= |old(w.nudges)| + handled
        decreases |w.pc.rest|
      {
        var counted := HandleThread(origin);
        if counted {
          handled := handled + 1;
        }
      }
      Make(origin, Proceed);
    }
  }
}
