/** How a job ended, from its process on the exec server to the record and the answer a client
    gets. */
module Outcomes {
  import opened Words
  import opened Jobs
  import opened Codec
  import opened Scheduler
  import opened Conservation
  import opened Memory
  import opened Lifecycle
  import opened Reports
  import H = History
  import S = Session

  /** What the end of a process is to be recorded as. */
  function Verdict(o: Outcome): (H.JobState, byte) {
    match o
    case Exits(e) => (if e == 40 || e == 41 then H.Error else H.Finished, e)
    case Dies(g) => (H.Signaled, g)
    case ForkFails => (H.Error, 41)
  }

  predicate Ended(s: State, job: Job, o: Outcome) {
    job in s.finished && job in s.verdicts && s.verdicts[job] == Verdict(o)
  }

  /** Every job whose end was read is logged with how it ended. */
  predicate OutcomesOk(s: State) {
    forall t, a :: 0 <= t < |s.conns| && 0 <= a < Done(s.conns[t]) && a < |s.conns[t].ends| ==>
      Ended(s, s.conns[t].sent[a], s.conns[t].ends[a])
  }

  // ---------------------------------------------------------------- steps

  /** The last report of a job says how it ended. */
  lemma LastReport(b: Batch, job: Job, o: Outcome)
    requires BatchIs(b, job, o) && |b.rest| == 1
    ensures ReportOf(b.rest[0]) == Some(Verdict(o))
  {
  }

  lemma ReadOutcome(s: State, t: nat)
    requires MemOk(s) && AllInStory(s.conns) && OutcomesOk(s) && Enabled(s, Report(t))
    ensures OutcomesOk(DoReport(s, t))
  {
    var s', c := DoReport(s, t), s.conns[t];
    var b := c.inbox[0];
    assert InStory(c);
    assert BatchIs(b, c.sent[Done(c)], c.ends[Done(c)]);
    ReadShape(s, t);
    forall u, a | 0 <= u < |s'.conns| && 0 <= a < Done(s'.conns[u]) && a < |s'.conns[u].ends|
      ensures Ended(s', s'.conns[u].sent[a], s'.conns[u].ends[a])
    {
      assert u != t ==> s'.conns[u] == s.conns[u];
      if u == t && a == Done(c) {
        LastReport(b, c.sent[a], c.ends[a]);
        assert s'.finished[|s.finished|] == c.sent[a];
      } else {
        assert Ended(s, s.conns[u].sent[a], s.conns[u].ends[a]);
        NotHead(s, t, u, a);
      }
    }
  }

  /** A job whose end was read is not the one the next report is about. */
  lemma NotHead(s: State, t: nat, u: nat, a: nat)
    requires MemOk(s) && AllInStory(s.conns) && t < |s.conns| && s.conns[t].inbox != []
    requires u < |s.conns| && a < |s.conns[u].sent| && a < Done(s.conns[u])
    ensures s.conns[u].sent[a] != s.conns[t].inbox[0].job
  {
    var c := s.conns[t];
    assert InStory(c);
    assert BatchIs(c.inbox[0], c.sent[Done(c)], c.ends[Done(c)]);
    if s.conns[u].sent[a] == c.inbox[0].job {
      assert Conserved(s, s.conns[u].sent[a]);
      SentOnce(s, u, a, t, Done(c));
    }
  }

  lemma SendOutcome(s: State, t: nat, k: nat, o: Outcome)
    requires WF(s) && AllInStory(s.conns) && OutcomesOk(s) && Enabled(s, SendJob(t, k, o))
    ensures OutcomesOk(DoSend(s, t, k, o))
  {
    hide ReportsOf, JobFrame, BatchIs;
    var s' := DoSend(s, t, k, o);
    assert InStory(s.conns[t]);
    forall u, a | 0 <= u < |s'.conns| && 0 <= a < Done(s'.conns[u]) && a < |s'.conns[u].ends|
      ensures Ended(s', s'.conns[u].sent[a], s'.conns[u].ends[a])
    {
      assert Ended(s, s.conns[u].sent[a], s.conns[u].ends[a]);
    }
  }

  /** Steps that read no report log nothing. */
  lemma LogsKept(s: State, step: Step)
    requires WF(s) && Enabled(s, step) && InRing(s, step) && !step.Report?
    ensures Apply(s, step).finished == s.finished && Apply(s, step).verdicts == s.verdicts
  {
  }

  lemma StepOutcomes(s: State, step: Step)
    requires MemOk(s) && AllInStory(s.conns) && OutcomesOk(s) && Enabled(s, step) && Sound(s, step)
    ensures OutcomesOk(Apply(s, step))
  {
    assert WF(s);
    hide MemOk, AllInStory, InStory, Ended;
    hide DoAccept, DoPut, DoGet, DoSend, DoReport, DoRemove, DoMark, DoBackMark, DoLook, DoCheck;
    if step.Report? {
      ReadOutcome(s, step.t);
    } else if step.SendJob? {
      SendOutcome(s, step.t, step.k, step.o);
    } else {
      LogsKept(s, step);
      SameLogs(s, Apply(s, step));
      if !step.Connect? {
        Others(s, step);
        QuietInStory(s, step);
      }
      hide Apply;
    }
  }

  lemma SameLogs(s: State, s': State)
    requires s'.finished == s.finished && s'.verdicts == s.verdicts
    ensures forall job, o :: Ended(s, job, o) ==> Ended(s', job, o)
  {
  }

  lemma {:induction false} RunOutcomes(ss: seq<State>, steps: seq<Step>, n: nat, i: nat)
    requires Run(ss, steps, n) && i < |ss|
    ensures OutcomesOk(ss[i])
  {
    hide OutcomesOk, MemOk, AllInStory, Apply;
    if i == 0 {
      NoOutcomes(ss[0], n);
    } else {
      RunOutcomes(ss, steps, n, i - 1);
      RunMem(ss, steps, n, i - 1);
      RunInStory(ss, steps, n, i - 1);
      assert Next(ss[i - 1], steps[i - 1], ss[i]);
      StepOutcomes(ss[i - 1], steps[i - 1]);
    }
  }

  lemma NoOutcomes(s: State, n: nat)
    requires Init(s, n)
    ensures OutcomesOk(s)
  {
  }

  // ---------------------------------------------------------------- theorems

  lemma RecordIsVerdict(ss: seq<State>, steps: seq<Step>, n: nat, i: nat, t: nat, a: nat)
    requires BenignRun(ss, steps, n) && i < |ss| && t < |ss[i].conns|
    requires a < Done(ss[i].conns[t]) && H.Retained(|ss[i].accepted|, ss[i].conns[t].sent[a].addr)
    ensures var c := ss[i].conns[t];
            && WF(ss[i]) && InStory(c) && |c.ends| == |c.sent| && c.sent[a].id == H.IdOf(c.sent[a].addr)
            && var rec := RecOf(ss[i], c.sent[a].addr); (rec.state, rec.exitStatus) == Verdict(c.ends[a])
  {
    var s, c := ss[i], ss[i].conns[t];
    RunLife(ss, steps, n, i);
    RunInStory(ss, steps, n, i);
    RunOutcomes(ss, steps, n, i);
    assert InStory(c);
    var job := c.sent[a];
    assert Ended(s, job, c.ends[a]) && Conserved(s, job);
    CountIn(s.finished, job);
    Known(s, job);
    assert RecordOk(s, job.addr);
    hide Sum, InStory, Verdict;
  }

  /** From the process to the record: once the end of a job was read, its record shows how the
      process ended. Exit statuses 40 and 41 and a failed fork are errors, a signal is a
      signal, every other exit is an end with that status. */
  lemma RecordShowsOutcome(ss: seq<State>, steps: seq<Step>, n: nat, i: nat, t: nat, a: nat)
    requires BenignRun(ss, steps, n) && i < |ss| && t < |ss[i].conns|
    requires a < Done(ss[i].conns[t]) && H.Retained(|ss[i].accepted|, ss[i].conns[t].sent[a].addr)
    ensures WF(ss[i]) && |ss[i].conns[t].ends| == |ss[i].conns[t].sent|
    ensures var c := ss[i].conns[t];
            var rec := RecOf(ss[i], c.sent[a].addr);
            match c.ends[a]
            case Exits(e) => rec.exitStatus == e && rec.state == (if e == 40 || e == 41 then H.Error else H.Finished)
            case Dies(g) => rec.exitStatus == g && rec.state == H.Signaled
            case ForkFails => rec.exitStatus == 41 && rec.state == H.Error
  {
    RecordIsVerdict(ss, steps, n, i, t, a);
    hide BenignRun, InStory;
  }

  /** From the process to the client: what jobState then sends, in bytes. */
  lemma AnswerShowsOutcome(ss: seq<State>, steps: seq<Step>, n: nat, i: nat, t: nat, a: nat)
    requires BenignRun(ss, steps, n) && i < |ss| && t < |ss[i].conns|
    requires a < Done(ss[i].conns[t]) && H.Retained(|ss[i].accepted|, ss[i].conns[t].sent[a].addr)
    ensures WF(ss[i]) && |ss[i].conns[t].ends| == |ss[i].conns[t].sent|
    ensures var c := ss[i].conns[t];
            var id := c.sent[a].id;
            JobAnswer(ss[i], id) == Msg(4, match c.ends[a]
                                           case Exits(e) => StateBody(if e == 40 || e == 41 then 5 else 2, id, e)
                                           case Dies(g) => StateBody(4, id, g)
                                           case ForkFails => StateBody(5, id, 41))
  {
    RecordIsVerdict(ss, steps, n, i, t, a);
    AnswerIsRecord(ss[i], ss[i].conns[t].sent[a].addr);
    VerdictBytes(ss[i].conns[t].ends[a]);
    hide BenignRun, InStory, JobAnswer, Verdict, StateByte, H.Retained, WF;
  }

  lemma VerdictBytes(o: Outcome)
    ensures var (st, exit) := Verdict(o);
            (StateByte(st), exit) == match o
                                     case Exits(e) => (if e == 40 || e == 41 then 5 else 2, e)
                                     case Dies(g) => (4, g)
                                     case ForkFails => (5, 41)
  {
  }

  /** Where the last report about the a-th job of a connection is among those read. */
  function EndAt(c: Conn, a: nat): int
    requires a < |c.ends| <= |c.sent|
  {
    |S.Story(Ids(c.sent), c.ends[..a + 1])| - 1
  }

  lemma EndWasRead(c: Conn, a: nat)
    requires InStory(c) && a < Done(c)
    ensures 0 <= EndAt(c, a) < |c.heard|
    ensures c.heard[EndAt(c, a)] == ReportsOf(c.sent[a].id, c.ends[a])[|ReportsOf(c.sent[a].id, c.ends[a])| - 1]
  {
    var ids := Ids(c.sent);
    IdAt(c.sent, a);
    S.StoryPush(ids, c.ends[..a], c.ends[a]);
    assert c.ends[..a + 1] == c.ends[..a] + [c.ends[a]];
    StoryGrows(ids, c.ends, a + 1, Done(c));
    assert |ReportsOf(c.sent[a].id, c.ends[a])| > 0;
    hide S.Story, Ids, ReportsOf, Begun, BatchIs;
  }

  /** From the wire to the client: state and exit value of the answer are those of the last
      message about the job that the main server has read. */
  lemma AnswerIsLastReport(ss: seq<State>, steps: seq<Step>, n: nat, i: nat, t: nat, a: nat)
    requires BenignRun(ss, steps, n) && i < |ss| && t < |ss[i].conns|
    requires a < Done(ss[i].conns[t]) && H.Retained(|ss[i].accepted|, ss[i].conns[t].sent[a].addr)
    ensures var c := ss[i].conns[t];
            && WF(ss[i]) && |c.ends| == |c.sent| && 0 <= EndAt(c, a) < |c.heard|
            && var m, answer := c.heard[EndAt(c, a)], JobAnswer(ss[i], c.sent[a].id);
               && m.body.StateBody? && m.body.id == c.sent[a].id && answer.kind == 4
               && answer.body == m.body
  {
    RecordIsVerdict(ss, steps, n, i, t, a);
    AnswerShowsOutcome(ss, steps, n, i, t, a);
    EndWasRead(ss[i].conns[t], a);
    hide BenignRun, InStory, JobAnswer, EndAt;
  }
}
