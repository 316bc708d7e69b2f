/** What the answers of the daemon promise about the rest of the run. */
module Answers {
  import opened Jobs
  import opened Kernel
  import opened MonitorSpec
  import opened MonitorInvariant
  import opened Machine
  import opened MachineInvariant
  import opened Wire
  import opened Requests
  import opened Decimal
  import Ledger
  import Progress
  import Daemon

  /** The answer begins with "OK". */
  predicate Accepted(r: Reply) {
    r.Reply? && [79, 75] <= r.text
  }

  /** An accepted CANCEL has withdrawn the job or recorded the cause. */
  lemma AcceptedIsRecorded(m: Machine, j: JobId)
    requires Inv(m) && j in m.mon.jobs && Accepted(CancelReply(m, j))
    ensures var r := DoCancel(m, j);
      j in r.mon.jobs && (r.mon.jobs[j].state.Cancelled? || r.mon.jobs[j].cause == Some(CauseCancelled))
  {
    hide Inv, Terminate;
    RepliesDiffer(m, j);
    if m.mon.jobs[j].state.Running? {
      SentIsRecorded(m, j);
    }
  }

  /** Every refusal begins with "E". */
  lemma RepliesDiffer(m: Machine, j: JobId)
    requires j in m.mon.jobs && Accepted(CancelReply(m, j))
    ensures m.mon.jobs[j].state.Queued? || (m.mon.jobs[j].state.Running? && Terminate(m, j, CauseCancelled).1.Delivered?)
  {
    hide Terminate;
    assert CancelReply(m, j).text[0] == 79;
  }

  lemma SentIsRecorded(m: Machine, j: JobId)
    requires Inv(m) && j in m.mon.jobs && m.mon.jobs[j].state.Running? && Terminate(m, j, CauseCancelled).1.Delivered?
    ensures var r := Terminate(m, j, CauseCancelled).0; j in r.mon.jobs && r.mon.jobs[j].cause == Some(CauseCancelled)
  {
    hide Inv, FinishExited, KillGroup, ScheduleForceKill, Ledger.Of, SameTimers, Handled, Covered;
    Daemon.EscalationIsSound(m, j, CauseCancelled);
    var mid := m.(mon := RequestTerminate(m.mon, j, CauseCancelled).0);
    assert mid.mon.jobs[j].cause == Some(CauseCancelled);
    ScheduleForceKillKeeps(mid, j);
    assert Evolved(mid.mon.jobs[j], ScheduleForceKill(mid, j).0.mon.jobs[j]);
  }

  /** The record lasts: the job is TERMINATING because of it, or CANCELLED. */
  lemma AcceptedIsKept(max: nat, os: Os, before: seq<Event>, j: JobId, after: seq<Event>)
    requires max > 0 && Fresh(os)
    requires var m := Run(max, os, before); m.alive && j in m.mon.jobs && Accepted(CancelReply(m, j))
    ensures var r := Run(max, os, before + [Cancel(j)] + after);
      j in r.mon.jobs && (r.mon.jobs[j].state.Terminating? || r.mon.jobs[j].state.Cancelled?)
  {
    hide Inv, DoCancel, CancelReply, Healthy;
    var m := Run(max, os, before);
    RunKeeps(max, os, before);
    AcceptedIsRecorded(m, j);
    var asked, all := before + [Cancel(j)], before + [Cancel(j)] + after;
    assert asked[..|asked| - 1] == before && all[..|asked|] == asked;
    Progress.RunEvolves(max, os, all, |asked|);
    RunKeeps(max, os, all);
    var a, b := Run(max, os, asked), Run(max, os, all);
    assert Evolved(a.mon.jobs[j], b.mon.jobs[j]);
    ResultOf(b, j);
  }

  /** A job whose cancellation was accepted ends CANCELLED or not at all, whatever happens later:
      no timeout, exit code or signal changes that. */
  lemma AcceptedCancelIsFinal(max: nat, os: Os, before: seq<Event>, j: JobId, after: seq<Event>)
    requires max > 0 && Fresh(os)
    requires var m := Run(max, os, before); m.alive && j in m.mon.jobs && Accepted(CancelReply(m, j))
    ensures var r := Run(max, os, before + [Cancel(j)] + after);
      j in r.mon.jobs && (IsTerminal(r.mon.jobs[j].state) ==> r.mon.jobs[j].state.Cancelled?)
  {
    hide Run, CancelReply;
    AcceptedIsKept(max, os, before, j, after);
  }

  /** From then on every further CANCEL of the job is refused and changes nothing. */
  lemma CancelIsAcceptedOnce(max: nat, os: Os, before: seq<Event>, j: JobId, after: seq<Event>)
    requires max > 0 && Fresh(os)
    requires var m := Run(max, os, before); m.alive && j in m.mon.jobs && Accepted(CancelReply(m, j))
    ensures var r := Run(max, os, before + [Cancel(j)] + after);
      && DoCancel(r, j) == r && !Accepted(CancelReply(r, j))
      && j in r.mon.jobs
      && CancelReply(r, j) == Reply(Ascii(if r.mon.jobs[j].state.Terminating? then "ERR job is already terminating" else "ERR job is already terminal"))
  {
    hide Inv, Run, Terminate, Healthy, CancelReply;
    AcceptedIsKept(max, os, before, j, after);
    Refusal(Run(max, os, before + [Cancel(j)] + after), j);
  }

  lemma Refusal(m: Machine, j: JobId)
    requires j in m.mon.jobs && !m.mon.jobs[j].state.Queued? && !m.mon.jobs[j].state.Running?
    ensures !Accepted(CancelReply(m, j))
    ensures CancelReply(m, j) == Reply(Ascii(if m.mon.jobs[j].state.Terminating? then "ERR job is already terminating" else "ERR job is already terminal"))
  {
    assert CancelReply(m, j).text[0] == 69;
  }

  lemma ResultOf(m: Machine, j: JobId)
    requires Inv(m) && j in m.mon.jobs
    ensures JobOk(m.mon.jobs[j])
  {
    Known(m.mon, j);
  }

  /** A termination request either finds the job finished, and then settles it with its own result
      and sends nothing; or its child still runs or a pipe is still open, and then it is signalled. */
  lemma NaturalExitWins(mon: Mon, j: JobId, cause: Cause)
    requires MonInv(mon) && j in mon.jobs && mon.jobs[j].state.Running?
    ensures var (r, a) := RequestTerminate(mon, j, cause);
      && j in r.jobs
      && if j in r.procs then
           !Complete(r.procs[j]) && (a.Delivered? <==> r.jobs[j].state.Terminating?) && (a.Delivered? ==> r.jobs[j].cause == Some(cause))
         else
           a.Vanished? && Quiet(mon, r) && r.jobs[j].cause.None? && (r.jobs[j].state.Succeeded? || r.jobs[j].state.Failed?)
  {
    hide Core, Quiet, FinishExited, KillGroup;
    Known(mon, j);
    FinishKeeps(mon, j);
    var mid := FinishExited(mon, j);
    QuietSettles(mon, mid, j);
  }

  lemma QuietSettles(a: Mon, b: Mon, j: JobId)
    requires MonInv(a) && MonInv(b) && Quiet(a, b) && j in a.jobs && j in a.procs && a.jobs[j].state.Running?
    ensures j in b.jobs
    ensures if j in b.procs then b.jobs[j] == a.jobs[j]
            else b.jobs[j].cause.None? && (b.jobs[j].state.Succeeded? || b.jobs[j].state.Failed?)
  {
    hide Core, NoneComplete;
    Known(a, j);
    Known(b, j);
  }

  /** The id in an accepted SUBMIT is new, and from then on names a job with that specification. */
  lemma AcceptedSubmitIsKept(max: nat, os: Os, before: seq<Event>, spec: JobSpec, after: seq<Event>, id: JobId)
    requires max > 0 && Fresh(os) && ValidSpec(spec)
    requires var m := Run(max, os, before); m.alive && SubmitReply(m, spec) == Reply(SubmitResponse(id))
    ensures id !in Run(max, os, before).mon.jobs && 0 < id < JOB_ID_SPACE
    ensures var r := Run(max, os, before + [Submit(spec)] + after);
      id in r.mon.jobs && r.mon.jobs[id].id == id && r.mon.jobs[id].spec == spec
  {
    var m := Run(max, os, before);
    assert SubmitReply(m, spec).text == Ascii("OK ") + Digits(id);
    hide Inv, Pump, Healthy, SubmitResponse, ValidSpec;
    assert SubmitReply(m, spec).text == SubmitResponse(m.nextId);
    SameResponse(m.nextId, id);
    RunKeeps(max, os, before);
    EnqueueKeeps(m, spec);
    Daemon.IdIsBounded(m);
    var asked, all := before + [Submit(spec)], before + [Submit(spec)] + after;
    assert asked[..|asked| - 1] == before && all[..|asked|] == asked;
    Progress.PumpAdvances(Enqueue(m, spec));
    var a, b := Run(max, os, asked), Run(max, os, all);
    assert Evolved(Enqueue(m, spec).mon.jobs[id], a.mon.jobs[id]);
    Progress.RunEvolves(max, os, all, |asked|);
    assert Evolved(a.mon.jobs[id], b.mon.jobs[id]);
  }

  lemma SameResponse(a: JobId, b: JobId)
    requires SubmitResponse(a) == Ascii("OK ") + Digits(b)
    ensures a == b
  {
    assert SubmitResponse(a)[3..] == Digits(a) && (Ascii("OK ") + Digits(b))[3..] == Digits(b);
    NumberOfDigits(a);
    NumberOfDigits(b);
  }
}
