/** The life of a job as its history record shows it. */
module Lifecycle {
  import opened Words
  import opened Jobs
  import opened Codec
  import opened Scheduler
  import opened Conservation
  import opened Memory
  import R = Ring
  import H = History

  // ---------------------------------------------------------------- the hypotheses

  /** The record of submission `k`. */
  function RecOf(s: State, k: nat): H.Record
    requires WF(s) && H.Retained(|s.accepted|, k)
  {
    s.hist.slots[H.SlotFor(k)].value
  }

  function StateOf(s: State, k: nat): H.JobState
    requires WF(s) && H.Retained(|s.accepted|, k)
  {
    RecOf(s, k).state
  }

  /** removeJob has taken the job out of its queue, for whichever unsubmit. */
  predicate Gone(s: State, j: Job) {
    Withdrawing(s, j) + Count(s.removed, j) + Count(s.lost, j) > 0
  }

  /** The record that the end of unsubmit marks is there, and its job is out of the queues. */
  predicate MarksTheRightJob(s: State, t: nat)
    requires WF(s) && Enabled(s, Mark(t))
  {
    match H.Owner(|s.accepted|, s.threads[t].id)
    case None => false
    case Some(k) => Gone(s, s.accepted[k])
  }

  /** The record that the next report is written to, if there is one, belongs to the job
      reported, or already says what the report says. */
  predicate ReportsTheRightJob(s: State, t: nat)
    requires WF(s) && Enabled(s, Report(t))
  {
    var b := s.conns[t].inbox[0];
    match H.Owner(|s.accepted|, b.job.id)
    case None => true
    case Some(k) =>
      k == b.job.addr || ReportOf(b.rest[0]) == Some((RecOf(s, k).state, RecOf(s, k).exitStatus))
  }

  /** The two steps that write a state to a record found by a 16-bit id write the right one. */
  predicate Benign(s: State, step: Step)
    requires WF(s) && Enabled(s, step)
  {
    Sound(s, step) &&
    match step
    case Mark(t) => MarksTheRightJob(s, t)
    case Report(t) => ReportsTheRightJob(s, t)
    case _ => true
  }

  /** A report writes the right record while fewer than 65536 jobs were submitted after its job. */
  lemma RecentReportsAreRight(s: State, t: nat)
    requires WF(s) && Enabled(s, Report(t)) && s.conns[t].inbox[0].job in s.accepted
    requires |s.accepted| <= s.conns[t].inbox[0].job.addr + 0x1_0000
    ensures ReportsTheRightJob(s, t)
  {
    H.RecentIsOwner(|s.accepted|, s.conns[t].inbox[0].job.addr);
  }

  ghost predicate BenignRun(ss: seq<State>, steps: seq<Step>, n: nat) {
    Run(ss, steps, n)
    && forall i :: 0 <= i < |steps| ==> Next(ss[i], steps[i], ss[i + 1]) && Benign(ss[i], steps[i])
  }

  // ---------------------------------------------------------------- states and reports

  predicate Terminal(st: H.JobState) {
    EndState(st) || st == H.Unsubmitted
  }

  /** The transitions a record may make. */
  predicate Edge(a: H.JobState, b: H.JobState) {
    a == b
    || (a == H.Wait && (b == H.Run || b == H.Error || b == H.Unsubmitted))
    || (a == H.Run && EndState(b))
  }

  /** And a record in a terminal state keeps its exit status. */
  predicate Follows(a: H.Record, b: H.Record) {
    Edge(a.state, b.state) && (Terminal(a.state) ==> b.exitStatus == a.exitStatus)
  }

  predicate EndState(st: H.JobState) {
    st == H.Finished || st == H.Signaled || st == H.Error
  }

  /** The last report about a job. */
  predicate IsEnd(m: Msg, id: uint16) {
    m.body.StateBody? && m.body.id == id
    && (m.body.state == STATE_FINISHED || m.body.state == STATE_SIGNALED || m.body.state == STATE_ERROR)
  }

  /** What is left of the reports about a job: RUN and an end, the end, or the failed fork. */
  predicate BatchOk(b: Batch) {
    var id := b.job.id;
    if b.started then |b.rest| == 1 && IsEnd(b.rest[0], id)
    else
      || (|b.rest| == 2 && b.rest[0] == JobRun(id) && IsEnd(b.rest[1], id))
      || b.rest == [JobDone(id, 41)]
  }

  predicate BatchesOk(conns: seq<Conn>) {
    forall t, i :: 0 <= t < |conns| && 0 <= i < |conns[t].inbox| ==> BatchOk(conns[t].inbox[i])
  }

  /** The record of a delivered job shows how much of its reports was read. */
  predicate InboxShows(conns: seq<Conn>, j: Job, rec: H.Record) {
    forall t, i :: 0 <= t < |conns| && 0 <= i < |conns[t].inbox| && conns[t].inbox[i].job == j ==>
      BatchShows(conns[t].inbox[i], rec)
  }

  predicate BatchShows(b: Batch, rec: H.Record) {
    if b.started then rec.state == H.Run && rec.exitStatus == 0 else rec.state == H.Wait
  }

  /** The record of a job follows from where the job is. A job that removeJob has taken out
      may or may not be marked yet. */
  predicate Shows(s: State, j: Job, rec: H.Record) {
    && (Waiting(s, j) > 0 ==> rec.state == H.Wait)
    && (Withdrawing(s, j) + Count(s.lost, j) > 0 ==> rec.state == H.Wait || rec.state == H.Unsubmitted)
    && (Count(s.removed, j) > 0 ==> rec.state == H.Unsubmitted)
    && InboxShows(s.conns, j, rec)
    && (Count(s.finished, j) > 0 ==>
          EndState(rec.state) && j in s.verdicts && s.verdicts[j] == (rec.state, rec.exitStatus))
  }

  predicate RecordOk(s: State, k: nat)
    requires WF(s)
  {
    H.Retained(|s.accepted|, k) ==> k < |s.accepted| && Shows(s, s.accepted[k], RecOf(s, k))
  }

  ghost predicate LifeOk(s: State) {
    && MemOk(s) && BatchesOk(s.conns)
    && (forall k: nat :: RecordOk(s, k))
  }

  // ---------------------------------------------------------------- facts about places

  lemma BatchCounts(s: State, t: nat, i: nat)
    requires t < |s.conns| && i < |s.conns[t].inbox|
    ensures Reporting(s, s.conns[t].inbox[i].job) > 0
  {
    var j := s.conns[t].inbox[i].job;
    var js := BatchJobs(s.conns[t].inbox);
    assert js[i] == j;
    CountIn(js, j);
    SumHas(ReportedOn(s.conns, j), t);
  }

  /** The head of an inbox is the only batch about its job. */
  lemma HeadIsOnlyBatch(s: State, t: nat, u: nat, i: nat)
    requires t < |s.conns| && s.conns[t].inbox != [] && u < |s.conns| && i < |s.conns[u].inbox|
    requires s.conns[u].inbox[i].job == s.conns[t].inbox[0].job
    requires Reporting(s, s.conns[t].inbox[0].job) <= 1
    ensures u == t && i == 0
  {
    var j := s.conns[t].inbox[0].job;
    var ns := ReportedOn(s.conns, j);
    var a, b := BatchJobs(s.conns[t].inbox), BatchJobs(s.conns[u].inbox);
    assert a[0] == j && b[i] == j;
    CountIn(a, j);
    CountIn(b, j);
    if u != t {
      SumHasTwo(ns, t, u);
    } else if i > 0 {
      CountOnce(a, 0, i);
      SumHas(ns, t);
    }
  }

  // ---------------------------------------------------------------- facts about the table

  /** Two records that say the same of a job. */
  predicate SameStatus(a: Option<H.Record>, b: Option<H.Record>) {
    a.Some? ==> b.Some? && b.value.state == a.value.state && b.value.exitStatus == a.value.exitStatus
  }

  /** Whatever record SetQueue touches, its state and exit status stay. */
  lemma SetQueueKeepsStates(h: H.History, id: uint16, q: byte, i: nat)
    requires |h.slots| == 10 && i < 10
    ensures SameStatus(h.slots[i], H.SetQueue(h, id, q).slots[i])
  {
  }

  lemma RetainedIsSome(s: State, k: nat)
    requires WF(s) && H.Retained(|s.accepted|, k)
    ensures k < |s.accepted| && s.hist.slots[H.SlotFor(k)].Some?
  {
  }

  // ---------------------------------------------------------------- one step of a record

  /** The record of submission `k` is right after the step and has changed as it may. */
  ghost predicate RecordStep(s: State, s': State, k: nat)
    requires WF(s)
  {
    && WF(s') && RecordOk(s', k)
    && (H.Retained(|s.accepted|, k) && H.Retained(|s'.accepted|, k) ==> Follows(RecOf(s, k), RecOf(s', k)))
  }

  /** No job moved and no record changed its state or exit status. */
  ghost predicate Quiet(s: State, s': State) {
    && s'.accepted == s.accepted && s'.verdicts == s.verdicts
    && (forall j :: Moved(s, s', j, 0, 0, 0, 0, 0, 0, 0))
    && |s.hist.slots| == |s'.hist.slots| == 10
    && (forall i :: 0 <= i < 10 ==> SameStatus(s.hist.slots[i], s'.hist.slots[i]))
    && |s.conns| <= |s'.conns|
    && (forall t :: 0 <= t < |s.conns| ==> s'.conns[t].inbox == s.conns[t].inbox)
    && (forall t :: |s.conns| <= t < |s'.conns| ==> s'.conns[t].inbox == [])
  }

  lemma QuietRecord(s: State, s': State, k: nat)
    requires WF(s) && WF(s') && RecordOk(s, k) && Quiet(s, s')
    ensures RecordStep(s, s', k)
  {
    hide Sum, Count, Waiting, Withdrawing, Reporting, Delivered, H.Occupant;
    if H.Retained(|s.accepted|, k) {
      RetainedIsSome(s, k);
      var j := s.accepted[k];
      assert Moved(s, s', j, 0, 0, 0, 0, 0, 0, 0);
    }
  }

  lemma AcceptRecord(s: State, t: nat, exit0: byte, k: nat)
    requires LifeOk(s) && Enabled(s, Accept(t, exit0))
    ensures RecordStep(s, DoAccept(s, t, exit0), k)
  {
    hide Sum, Count, Waiting, Withdrawing, Reporting, Delivered;
    var s' := DoAccept(s, t, exit0);
    var n := |s.accepted|;
    AcceptWF(s, t, exit0);
    if k <= n {
      H.RetainedStep(n, k);
      var j := s'.accepted[k];
      AcceptMoves(s, t, exit0, j);
      assert Conserved(s, j) && RecordOk(s, k);
      if k == n {
        assert H.SlotFor(n) == s'.accepted[n].id % 10;
        forall u, i | 0 <= u < |s.conns| && 0 <= i < |s.conns[u].inbox|
          ensures s.conns[u].inbox[i].job != j
        {
          BatchCounts(s, u, i);
        }
      }
    }
  }

  lemma SendRecord(s: State, t: nat, k: nat, o: Outcome, m: nat)
    requires LifeOk(s) && Enabled(s, SendJob(t, k, o)) && k == |JobFrame(s.threads[t].job)|
    ensures RecordStep(s, DoSend(s, t, k, o), m)
  {
    hide Sum, Count, Withdrawing, Reporting, Delivered, H.Occupant, JobFrame, ReportsOf;
    var s' := DoSend(s, t, k, o);
    ControlWF(s, SendJob(t, k, o));
    if H.Retained(|s.accepted|, m) {
      assert RecordOk(s, m);
      var j := s.accepted[m];
      SendMoves(s, t, k, o, j);
      CarriedCounts(s, t);
      forall u, i | 0 <= u < |s'.conns| && 0 <= i < |s'.conns[u].inbox| && s'.conns[u].inbox[i].job == j
        ensures BatchShows(s'.conns[u].inbox[i], RecOf(s, m))
      {
        if u == t && i == |s.conns[t].inbox| {
          assert Carries(s.threads[t], j) == 1;
        }
      }
    }
  }

  lemma RemoveRecord(s: State, t: nat, w: set<nat>, m: nat)
    requires LifeOk(s) && Enabled(s, Remove(t, w)) && InRing(s, Remove(t, w))
    ensures RecordStep(s, DoRemove(s, t, w), m)
  {
    hide Sum, Count, Waiting, Withdrawing, Reporting, Delivered, H.Occupant;
    hide R.Victim, R.FirstWith, R.Remove, R.Ring.Contents, Matches, Wake;
    RemoveWF(s, t, w);
    if H.Retained(|s.accepted|, m) {
      assert RecordOk(s, m);
      var j := s.accepted[m];
      assert Conserved(s, j);
      RemoveMoves(s, t, w, j);
    }
  }

  lemma MarkRecord(s: State, t: nat, k: nat)
    requires LifeOk(s) && Enabled(s, Mark(t)) && MarksTheRightJob(s, t)
    ensures RecordStep(s, DoMark(s, t), k)
  {
    hide Sum, Count, Waiting, Withdrawing, Reporting, Delivered, H.MarkUnsubmitted, H.Occupant, Shows;
    var n, id := |s.accepted|, s.threads[t].id;
    MarksWF(s, t);
    if H.Retained(n, k) {
      var j := s.accepted[k];
      assert RecordOk(s, k) && Conserved(s, j) && PcKnown(s, s.threads[t]);
      H.RetainedIsOwner(n, k);
      H.UpdateOwner(s.hist, n, id, H.Wait, 0, 0, k);
      if H.Owner(n, id) == Some(k) {
        MarkOwn(s, t, j, RecOf(s, k));
      } else {
        MarkOther(s, t, j, RecOf(s, k));
      }
    }
  }

  /** The record of a job that is out of the queues. */
  lemma MarkOwn(s: State, t: nat, j: Job, rec: H.Record)
    requires WF(s) && Enabled(s, Mark(t)) && Conserved(s, j) && j in s.accepted && Gone(s, j) && Shows(s, j, rec)
    ensures Edge(rec.state, H.Unsubmitted)
    ensures Shows(DoMark(s, t), j, rec.(state := H.Unsubmitted))
  {
    hide Sum, Count, Waiting, Withdrawing, Reporting, Delivered;
    MarkMoves(s, t, j);
    forall u, i | 0 <= u < |s.conns| && 0 <= i < |s.conns[u].inbox|
      ensures s.conns[u].inbox[i].job != j
    {
      BatchCounts(s, u, i);
    }
  }

  /** The record of any job but the one taken out. */
  lemma MarkOther(s: State, t: nat, j: Job, rec: H.Record)
    requires WF(s) && Enabled(s, Mark(t)) && s.threads[t].gone != Some(j) && Shows(s, j, rec)
    ensures Shows(DoMark(s, t), j, rec)
  {
    hide Sum, Count, Waiting, Withdrawing, Reporting, Delivered;
    MarkMoves(s, t, j);
  }

  /** What the next report about a job does to its record. */
  lemma NextReport(b: Batch)
    requires BatchOk(b)
    ensures b.rest != [] && b.rest[0].body.StateBody? && b.rest[0].body.id == b.job.id
    ensures ReportOf(b.rest[0]).Some? && StateOfByte(b.rest[0].body.state) == Some(ReportOf(b.rest[0]).value.0)
    ensures ReportOf(b.rest[0]).value.1 == b.rest[0].body.exit
    ensures var (st, exit) := ReportOf(b.rest[0]).value;
            && Edge(if b.started then H.Run else H.Wait, st)
            && (if |b.rest| == 1 then EndState(st)
                else st == H.Run && exit == 0 && BatchOk(Batch(b.job, true, b.rest[1..])))
  {
  }

  lemma ReportRecord(s: State, t: nat, m: nat)
    requires LifeOk(s) && Enabled(s, Report(t)) && ReportsTheRightJob(s, t)
    ensures RecordStep(s, DoReport(s, t), m)
  {
    hide Sum, Count, Waiting, Withdrawing, Reporting, Delivered, H.SetState, H.Occupant, Shows, ReportOf, StateOfByte;
    ReportWF(s, t);
    var n, b := |s.accepted|, s.conns[t].inbox[0];
    NextReport(b);
    BatchCounts(s, t, 0);
    assert Conserved(s, b.job);
    Known(s, b.job);
    if H.Retained(n, m) {
      assert RecordOk(s, m);
      var (st, exit) := ReportOf(b.rest[0]).value;
      H.UpdateOwner(s.hist, n, b.job.id, st, exit, 0, m);
      H.RetainedIsOwner(n, m);
      if m == b.job.addr {
        ReportOwn(s, t, RecOf(s, m));
      } else {
        ReportOther(s, t, s.accepted[m], RecOf(s, m));
      }
    }
  }

  lemma ReportOther(s: State, t: nat, j: Job, rec: H.Record)
    requires WF(s) && Enabled(s, Report(t)) && s.conns[t].inbox[0].job != j
    requires Shows(s, j, rec)
    ensures Shows(DoReport(s, t), j, rec)
  {
    hide Sum, Count, Waiting, Withdrawing, Reporting, Delivered, ChangeState, ReportOf;
    var s' := DoReport(s, t);
    ReportMoves(s, t, j);
    var done := |s.conns[t].inbox[0].rest| == 1;
    forall u, i | 0 <= u < |s'.conns| && 0 <= i < |s'.conns[u].inbox| && s'.conns[u].inbox[i].job == j
      ensures BatchShows(s'.conns[u].inbox[i], rec)
    {
      if u == t && done {
        assert s'.conns[t].inbox[i] == s.conns[t].inbox[i + 1];
      } else {
        assert s'.conns[u].inbox[i] == s.conns[u].inbox[i];
      }
    }
  }

  lemma ReportOwn(s: State, t: nat, rec: H.Record)
    requires WF(s) && Enabled(s, Report(t))
    requires BatchOk(s.conns[t].inbox[0]) && Conserved(s, s.conns[t].inbox[0].job)
    requires s.conns[t].inbox[0].job in s.accepted && Shows(s, s.conns[t].inbox[0].job, rec)
    ensures ReportOf(s.conns[t].inbox[0].rest[0]).Some?
    ensures var (st, exit) := ReportOf(s.conns[t].inbox[0].rest[0]).value;
            && Edge(rec.state, st) && !Terminal(rec.state)
            && Shows(DoReport(s, t), s.conns[t].inbox[0].job, rec.(state := st, exitStatus := exit))
  {
    hide Sum, Count, Waiting, Withdrawing, Reporting, Delivered, ChangeState;
    var s' := DoReport(s, t);
    var b := s.conns[t].inbox[0];
    NextReport(b);
    BatchCounts(s, t, 0);
    ReportMoves(s, t, b.job);
    assert BatchShows(b, rec);
    var done := |b.rest| == 1;
    hide ReportOf, BatchOk;
    forall u, i | 0 <= u < |s'.conns| && 0 <= i < |s'.conns[u].inbox| && s'.conns[u].inbox[i].job == b.job
      ensures !done && s'.conns[u].inbox[i].started
    {
      HeadIsOnlyBatch(s, t, u, if u == t && done then i + 1 else i);
    }
  }

  // ---------------------------------------------------------------- quiet steps

  predicate IsQuiet(s: State, step: Step)
    requires Enabled(s, step)
  {
    IsControl(step) || step.Connect? || step.Put? || step.Get?
    || (step.SendJob? && step.k < |JobFrame(s.threads[step.t].job)|)
  }

  lemma QuietMoves(s: State, step: Step, j: Job)
    requires WF(s) && Enabled(s, step) && InRing(s, step) && IsQuiet(s, step)
    ensures Moved(s, Apply(s, step), j, 0, 0, 0, 0, 0, 0, 0)
  {
    hide Sum, Count, DoAccept, DoPut, DoGet, DoSend, DoReport, DoRemove, DoMark, DoBackMark, DoLook, DoCheck;
    match step
    case Connect => ConnectMoves(s, j);
    case Put(t, w) => PutMoves(s, t, w, j);
    case Get(t, w) => GetMoves(s, t, w, j);
    case SendJob(t, k, o) => SendMoves(s, t, k, o, j);
    case _ => ControlMoves(s, step, j);
  }

  lemma StepIsQuiet(s: State, step: Step)
    requires WF(s) && Enabled(s, step) && InRing(s, step) && IsQuiet(s, step)
    ensures Quiet(s, Apply(s, step))
  {
    hide Moved, H.Find;
    var s' := Apply(s, step);
    forall j
      ensures Moved(s, s', j, 0, 0, 0, 0, 0, 0, 0)
    {
      QuietMoves(s, step, j);
    }
    if step.BackMark? {
      var Marking(job, q) := s.threads[step.t];
      forall i | 0 <= i < 10
        ensures SameStatus(s.hist.slots[i], s'.hist.slots[i])
      {
        SetQueueKeepsStates(s.hist, job.id, q, i);
      }
    }
  }

  lemma StepRecord(s: State, step: Step, k: nat)
    requires LifeOk(s) && Enabled(s, step) && Benign(s, step)
    ensures RecordStep(s, Apply(s, step), k)
  {
    hide Sum, Count, RecordStep, Quiet;
    hide DoAccept, DoPut, DoGet, DoSend, DoReport, DoRemove, DoMark, DoBackMark, DoLook, DoCheck;
    StepWF(s, step);
    if IsQuiet(s, step) {
      StepIsQuiet(s, step);
      assert RecordOk(s, k);
      QuietRecord(s, Apply(s, step), k);
    } else {
      match step
      case Accept(t, exit0) => AcceptRecord(s, t, exit0, k);
      case SendJob(t, m, o) => SendRecord(s, t, m, o, k);
      case Report(t) => ReportRecord(s, t, k);
      case Remove(t, w) => RemoveRecord(s, t, w, k);
      case Mark(t) => MarkRecord(s, t, k);
    }
  }

  // ---------------------------------------------------------------- the rest of the invariant

  lemma InboxesKept(s: State, step: Step)
    requires WF(s) && Enabled(s, step) && InRing(s, step) && !step.Connect? && !step.SendJob? && !step.Report?
    ensures |Apply(s, step).conns| == |s.conns|
    ensures forall t :: 0 <= t < |s.conns| ==> Apply(s, step).conns[t].inbox == s.conns[t].inbox
  {
    hide H.Find;
  }

  lemma ReportBatches(s: State, t: nat)
    requires WF(s) && Enabled(s, Report(t)) && BatchesOk(s.conns)
    ensures BatchesOk(DoReport(s, t).conns)
  {
    hide ChangeState, BatchOk;
    var s', b := DoReport(s, t), s.conns[t].inbox[0];
    assert BatchOk(b);
    NextReport(b);
    forall u, i | 0 <= u < |s'.conns| && 0 <= i < |s'.conns[u].inbox|
      ensures BatchOk(s'.conns[u].inbox[i])
    {
      if u == t && |b.rest| == 1 {
        assert s'.conns[t].inbox[i] == s.conns[t].inbox[i + 1];
      } else if u != t || i > 0 {
        assert s'.conns[u].inbox[i] == s.conns[u].inbox[i];
      }
    }
  }

  lemma SendBatches(s: State, t: nat, k: nat, o: Outcome)
    requires WF(s) && Enabled(s, SendJob(t, k, o)) && BatchesOk(s.conns)
    ensures BatchesOk(DoSend(s, t, k, o).conns)
  {
    var job := s.threads[t].job;
    assert BatchOk(Batch(job, false, ReportsOf(job.id, o)));
    hide BatchOk, ReportsOf;
  }

  lemma StepBatches(s: State, step: Step)
    requires WF(s) && Enabled(s, step) && InRing(s, step) && BatchesOk(s.conns)
    ensures BatchesOk(Apply(s, step).conns)
  {
    hide BatchOk;
    hide DoAccept, DoPut, DoGet, DoSend, DoReport, DoRemove, DoMark, DoBackMark, DoLook, DoCheck;
    match step
    case Connect =>
    case SendJob(t, k, o) => SendBatches(s, t, k, o);
    case Report(t) => ReportBatches(s, t);
    case _ => InboxesKept(s, step);
  }

  lemma StepLife(s: State, step: Step)
    requires LifeOk(s) && Enabled(s, step) && Benign(s, step)
    ensures LifeOk(Apply(s, step))
  {
    assert WF(s);
    hide MemOk, RecordOk, BatchesOk, Apply, InRing, Safe;
    var s' := Apply(s, step);
    StepMem(s, step);
    StepBatches(s, step);
    forall k: nat
      ensures RecordOk(s', k)
    {
      StepRecord(s, step, k);
    }
  }

  lemma InitLife(s: State, n: nat)
    requires Init(s, n)
    ensures LifeOk(s)
  {
    InitMem(s, n);
  }

  lemma {:induction false} RunLife(ss: seq<State>, steps: seq<Step>, n: nat, i: nat)
    requires BenignRun(ss, steps, n) && i < |ss|
    ensures LifeOk(ss[i])
  {
    hide LifeOk;
    if i == 0 {
      InitLife(ss[0], n);
    } else {
      RunLife(ss, steps, n, i - 1);
      assert Next(ss[i - 1], steps[i - 1], ss[i]) && Benign(ss[i - 1], steps[i - 1]);
      StepLife(ss[i - 1], steps[i - 1]);
    }
  }

  // ---------------------------------------------------------------- theorems

  /** Lifecycle: in every benign run each record moves only from WAIT to RUN, ERROR or
      UNSUBMITED, and from RUN to FINISHED, SIGNALED or ERROR; in a terminal state its exit
      status stays too. */
  lemma RecordsFollowEdges(ss: seq<State>, steps: seq<Step>, n: nat, i: nat, k: nat)
    requires BenignRun(ss, steps, n) && i < |steps|
    ensures WF(ss[i]) && WF(ss[i + 1])
    ensures H.Retained(|ss[i].accepted|, k) && H.Retained(|ss[i + 1].accepted|, k) ==>
            Follows(RecOf(ss[i], k), RecOf(ss[i + 1], k))
  {
    RunLife(ss, steps, n, i);
    assert Next(ss[i], steps[i], ss[i + 1]) && Benign(ss[i], steps[i]);
    StepRecord(ss[i], steps[i], k);
  }

  /** Terminal states are absorbing: a record that reached one keeps it for as long as it is
      in the table. */
  lemma {:induction false} TerminalIsFinal(ss: seq<State>, steps: seq<Step>, n: nat, i: nat, m: nat, k: nat)
    requires BenignRun(ss, steps, n) && i <= m < |ss|
    requires WF(ss[i]) && H.Retained(|ss[i].accepted|, k) && Terminal(StateOf(ss[i], k))
    requires WF(ss[m]) && H.Retained(|ss[m].accepted|, k)
    ensures |ss[i].accepted| <= |ss[m].accepted|
    ensures StateOf(ss[m], k) == StateOf(ss[i], k) && RecOf(ss[m], k).exitStatus == RecOf(ss[i], k).exitStatus
    decreases m
  {
    hide Next, Benign, H.Occupant;
    if i < m {
      RecordsFollowEdges(ss, steps, n, m - 1, k);
      GrowsAlong(ss, steps, n, i, m - 1);
      GrowsAlong(ss, steps, n, m - 1, m);
      H.RetainedEarlier(|ss[m].accepted|, |ss[m - 1].accepted|, k);
      TerminalIsFinal(ss, steps, n, i, m - 1, k);
    }
  }

  lemma {:induction false} GrowsAlong(ss: seq<State>, steps: seq<Step>, n: nat, i: nat, m: nat)
    requires Run(ss, steps, n) && i <= m < |ss|
    ensures |ss[i].accepted| <= |ss[m].accepted|
  {
    if i < m {
      GrowsAlong(ss, steps, n, i, m - 1);
      assert Next(ss[m - 1], steps[m - 1], ss[m]);
      AcceptedGrows(ss[m - 1], steps[m - 1]);
    }
  }

  lemma {:induction false} RunBatches(ss: seq<State>, steps: seq<Step>, n: nat, i: nat)
    requires Run(ss, steps, n) && i < |ss|
    ensures WF(ss[i]) && BatchesOk(ss[i].conns)
  {
    RunWF(ss, steps, n, i);
    if i > 0 {
      RunBatches(ss, steps, n, i - 1);
      assert Next(ss[i - 1], steps[i - 1], ss[i]);
      StepBatches(ss[i - 1], steps[i - 1]);
    }
  }

  /** In every run, no report that changeStateJob reads takes it to its assert(0). */
  lemma ReportsAreDefined(ss: seq<State>, steps: seq<Step>, n: nat, i: nat)
    requires Run(ss, steps, n) && i < |steps| && steps[i].Report?
    ensures WF(ss[i]) && Enabled(ss[i], steps[i])
    ensures var m := ss[i].conns[steps[i].t].inbox[0].rest[0];
            m.body.StateBody? && StateOfByte(m.body.state).Some?
  {
    RunBatches(ss, steps, n, i);
    assert Next(ss[i], steps[i], ss[i + 1]);
    NextReport(ss[i].conns[steps[i].t].inbox[0]);
  }

  /** A handler has read that the job runs and not yet how it ended. */
  ghost predicate Started(conns: seq<Conn>, j: Job) {
    exists t, i :: 0 <= t < |conns| && 0 <= i < |conns[t].inbox| && conns[t].inbox[i].job == j && conns[t].inbox[i].started
  }

  /** What a record says about where the job is, and what that says about the record. */
  ghost predicate TellsPlace(s: State, j: Job, rec: H.Record) {
    && (Waiting(s, j) == 1 || (Reporting(s, j) == 1 && !Started(s.conns, j)) ==> rec.state == H.Wait)
    && (rec.state == H.Wait ==>
          Waiting(s, j) + Withdrawing(s, j) + Count(s.lost, j) == 1 || (Reporting(s, j) == 1 && !Started(s.conns, j)))
    && (rec.state == H.Run <==> Started(s.conns, j)) && (rec.state == H.Run ==> rec.exitStatus == 0)
    && (EndState(rec.state) <==> Count(s.finished, j) == 1)
    && (EndState(rec.state) ==> j in s.verdicts && s.verdicts[j] == (rec.state, rec.exitStatus))
    && (Count(s.removed, j) == 1 ==> rec.state == H.Unsubmitted)
    && (rec.state == H.Unsubmitted ==> Gone(s, j))
  }

  lemma FindBatch(s: State, j: Job) returns (t: nat, i: nat)
    requires Reporting(s, j) > 0
    ensures t < |s.conns| && i < |s.conns[t].inbox| && s.conns[t].inbox[i].job == j
  {
    t := SumPositive(ReportedOn(s.conns, j));
    var js := BatchJobs(s.conns[t].inbox);
    CountIn(js, j);
    i :| 0 <= i < |js| && js[i] == j;
  }

  /** A record that is right tells where its job is. */
  lemma RightTellsPlace(s: State, j: Job, rec: H.Record)
    requires j in s.accepted && Conserved(s, j) && Shows(s, j, rec)
    ensures TellsPlace(s, j, rec)
  {
    hide Sum, Count, Waiting, Withdrawing, Reporting, Delivered;
    if Reporting(s, j) > 0 {
      var t, i := FindBatch(s, j);
      assert BatchShows(s.conns[t].inbox[i], rec);
    }
    if Started(s.conns, j) {
      var t, i :| 0 <= t < |s.conns| && 0 <= i < |s.conns[t].inbox| && s.conns[t].inbox[i].job == j
               && s.conns[t].inbox[i].started;
      assert BatchShows(s.conns[t].inbox[i], rec);
      BatchCounts(s, t, i);
    }
  }

  /** The same in terms of the two bytes that a client is sent. */
  ghost predicate BytesTellPlace(s: State, j: Job, state: byte, exit: byte) {
    && state <= 5
    && (Waiting(s, j) == 1 || (Reporting(s, j) == 1 && !Started(s.conns, j)) ==> state == 0)
    && (state == 0 ==>
          Waiting(s, j) + Withdrawing(s, j) + Count(s.lost, j) == 1 || (Reporting(s, j) == 1 && !Started(s.conns, j)))
    && (state == 1 <==> Started(s.conns, j)) && (state == 1 ==> exit == 0)
    && (state == 2 || state == 4 || state == 5 <==> Count(s.finished, j) == 1)
    && (Count(s.removed, j) == 1 ==> state == 3)
    && (state == 3 ==> Gone(s, j))
  }

  /** In a benign run, what jobState tells a client about a job says where the job is: state 0
      if it waits, 1 exactly if it runs, 3 if it was unsubmitted, 2, 4 or 5 exactly if its end
      was reported. */
  lemma AnswersTellPlace(ss: seq<State>, steps: seq<Step>, n: nat, i: nat, k: nat)
    requires BenignRun(ss, steps, n) && i < |ss| && k < |ss[i].accepted|
    requires H.Retained(|ss[i].accepted|, k)
    ensures WF(ss[i])
    ensures var m := JobAnswer(ss[i], H.IdOf(k));
            && m.kind == 4 && m.body.StateBody? && m.body.id == H.IdOf(k)
            && BytesTellPlace(ss[i], ss[i].accepted[k], m.body.state, m.body.exit)
  {
    hide Sum, Count, Shows, Waiting, Withdrawing, Reporting, Delivered;
    RunLife(ss, steps, n, i);
    assert RecordOk(ss[i], k) && Conserved(ss[i], ss[i].accepted[k]);
    RightTellsPlace(ss[i], ss[i].accepted[k], RecOf(ss[i], k));
    AnswerIsRecord(ss[i], k);
    hide LifeOk, JobAnswer, Started;
  }

  /** What jobState sends is what the record holds. */
  lemma AnswerIsRecord(s: State, k: nat)
    requires WF(s) && H.Retained(|s.accepted|, k)
    ensures var rec := RecOf(s, k);
            JobAnswer(s, H.IdOf(k)) == Msg(4, StateBody(StateByte(rec.state), H.IdOf(k), rec.exitStatus))
  {
    H.FindRetained(s.hist, |s.accepted|, k);
  }

  /** unsubmit goes on exactly if there is a record for the id and it says WAIT; otherwise it
      changes nothing. It goes on with the queue that the record names. */
  lemma LookGoesOnIff(s: State, t: nat, id: uint16)
    requires WF(s) && Enabled(s, Look(t, id))
    ensures var o := H.Owner(|s.accepted|, id);
            if o.Some? && StateOf(s, o.value) == H.Wait
            then DoLook(s, t, id) == s.(threads := s.threads[t := Removing(id, RecOf(s, o.value).queueIdx)])
            else DoLook(s, t, id) == s
  {
    H.FindIsOwner(s.hist, |s.accepted|, id);
  }

  // ---------------------------------------------------------------- when the guards are needed

  /** The last step of unsubmit finds a record, and keeps every record right, exactly when the
      job of the record it finds has been taken out of its queue. */
  lemma MarkRecordsIff(s: State, t: nat)
    requires LifeOk(s) && Enabled(s, Mark(t))
    ensures WF(DoMark(s, t))
    ensures (!H.MarkFaults(s.hist, s.threads[t].id) && forall k: nat :: RecordOk(DoMark(s, t), k))
       <==> MarksTheRightJob(s, t)
  {
    assert WF(s);
    MarksWF(s, t);
    H.FindIsOwner(s.hist, |s.accepted|, s.threads[t].id);
    hide LifeOk, DoMark, RecordOk;
    if MarksTheRightJob(s, t) {
      forall k: nat
        ensures RecordOk(DoMark(s, t), k)
      {
        MarkRecord(s, t, k);
      }
    } else if !H.MarkFaults(s.hist, s.threads[t].id) {
      MarkWrong(s, t);
    }
  }

  lemma MarkWrong(s: State, t: nat)
    requires LifeOk(s) && Enabled(s, Mark(t)) && !MarksTheRightJob(s, t) && !H.MarkFaults(s.hist, s.threads[t].id)
    ensures WF(DoMark(s, t)) && exists k: nat :: !RecordOk(DoMark(s, t), k)
  {
    hide Sum, Count, Waiting, Withdrawing, Reporting, Delivered, H.MarkUnsubmitted, Shows;
    var s' := DoMark(s, t);
    var n, id := |s.accepted|, s.threads[t].id;
    MarksWF(s, t);
    H.FindIsOwner(s.hist, n, id);
    var k := H.Owner(n, id).value;
    var j := s.accepted[k];
    assert Conserved(s, j);
    MarkMoves(s, t, j);
    StepConserves(s, Mark(t), j);
    H.UpdateOwner(s.hist, n, id, H.Wait, 0, 0, k);
    assert StateOf(s', k) == H.Unsubmitted;
    if RecordOk(s', k) {
      RightTellsPlace(s', j, RecOf(s', k));
    }
  }

  /** changeStateJob keeps every record right exactly when it finds none, the record of the job
      reported, or one that says already what the report says. Otherwise 65536 or more jobs
      were submitted after the one reported, and the record of another job with the same id
      is overwritten. */
  lemma ReportRecordsIff(s: State, t: nat)
    requires LifeOk(s) && Enabled(s, Report(t))
    ensures WF(DoReport(s, t))
    ensures (forall k: nat :: RecordOk(DoReport(s, t), k)) <==> ReportsTheRightJob(s, t)
  {
    assert WF(s);
    ReportWF(s, t);
    hide LifeOk, DoReport, RecordOk, ReportsTheRightJob;
    if ReportsTheRightJob(s, t) {
      forall k: nat
        ensures RecordOk(DoReport(s, t), k)
      {
        ReportRecord(s, t, k);
      }
    } else {
      ReportWrong(s, t);
    }
  }

  lemma ReportWrong(s: State, t: nat)
    requires LifeOk(s) && Enabled(s, Report(t)) && !ReportsTheRightJob(s, t)
    ensures WF(DoReport(s, t)) && exists k: nat :: !RecordOk(DoReport(s, t), k)
  {
    hide Sum, Count, Waiting, Withdrawing, Reporting, Delivered, H.SetState, H.Occupant, Shows, StateOfByte, ReportOf;
    ReportWF(s, t);
    var s' := DoReport(s, t);
    var n, b := |s.accepted|, s.conns[t].inbox[0];
    NextReport(b);
    var (st, exit) := ReportOf(b.rest[0]).value;
    var k := H.Owner(n, b.job.id).value;
    var j := s.accepted[k];
    assert Conserved(s, j) && RecordOk(s, k);
    StepConserves(s, Report(t), j);
    H.UpdateOwner(s.hist, n, b.job.id, st, exit, 0, k);
    assert RecOf(s', k).state == st && RecOf(s', k).exitStatus == exit;
    if RecordOk(s', k) {
      ReportOther(s, t, j, RecOf(s, k));
      SameRecord(s', j, RecOf(s, k), RecOf(s', k));
    }
  }

  /** Two records that are both right say the same if one of them shows a report. */
  lemma SameRecord(s: State, j: Job, a: H.Record, b: H.Record)
    requires j in s.accepted && Conserved(s, j) && Shows(s, j, a) && Shows(s, j, b)
    requires b.state == H.Run ==> b.exitStatus == 0
    requires b.state == H.Run || EndState(b.state)
    ensures a.state == b.state && a.exitStatus == b.exitStatus
  {
    RightTellsPlace(s, j, a);
    RightTellsPlace(s, j, b);
    if b.state == H.Run {
      var t, i :| 0 <= t < |s.conns| && 0 <= i < |s.conns[t].inbox| && s.conns[t].inbox[i].job == j
               && s.conns[t].inbox[i].started;
      assert BatchShows(s.conns[t].inbox[i], a);
    }
  }

  /** The removal of unsubmit takes out no job but one with the id it was given exactly when the
      queue is empty, its newest job has the id, or some job has it and the occupied slots do
      not wrap. Otherwise a job that nobody named is dropped. */
  lemma RemoveTakesNoOtherIff(s: State, t: nat, w: set<nat>)
    requires MemOk(s) && Enabled(s, Remove(t, w)) && InRing(s, Remove(t, w))
    ensures WF(DoRemove(s, t, w))
    ensures var Removing(id, q) := s.threads[t];
            var c, c' := s.queues[q].Contents(), DoRemove(s, t, w).queues[q].Contents();
            (forall j :: j in c && j !in c' ==> j.id == id) <==>
            c == [] || c[|c| - 1].id == id || (R.Unwrapped(s.queues[q]) && exists i :: 0 <= i < |c| && c[i].id == id)
  {
    var Removing(id, q) := s.threads[t];
    var r := s.queues[q];
    RemoveWF(s, t, w);
    if r.Len() > 0 {
      forall i, k | 0 <= i < k < r.Len()
        ensures r.Contents()[i] != r.Contents()[k]
      {
        QueuedOnce(s, q, i, k);
      }
      R.TakesNoOtherIff(r, id);
      assert DoRemove(s, t, w).queues[q] == R.Remove(r, id);
    } else {
      assert DoRemove(s, t, w).queues[q] == r;
    }
    hide MemOk, DoRemove, R.Remove, R.Ring.Contents, R.Scan, R.Unwrapped, R.Victim;
  }

  /** A queue holds a job once. */
  lemma QueuedOnce(s: State, q: nat, i: nat, k: nat)
    requires MemOk(s) && q < |s.queues| && i < |s.queues[q].Contents()| && k < |s.queues[q].Contents()| && i != k
    ensures s.queues[q].Contents()[i] != s.queues[q].Contents()[k]
  {
    var c := s.queues[q].Contents();
    assert Conserved(s, c[i]);
    SumHas(QueuedIn(s.queues, c[i]), q);
    if c[i] == c[k] {
      CountOnce(c, if i < k then i else k, if i < k then k else i);
    }
  }
}
