/** The queue index in a history record and the queue that really holds the job: unsubmit
    searches the queue the record names. */
module QueueIndex {
  import opened Words
  import opened Jobs
  import opened Scheduler
  import opened Conservation
  import opened Memory
  import opened Lifecycle
  import R = Ring
  import H = History

  predicate Located(queues: seq<R.Ring>, j: Job, q: nat) {
    q < |queues| && queues[q].Valid() && j in queues[q].Contents()
  }

  /** A putJobBack of the job into queue `q` has yet to write the record. */
  ghost predicate Pending(threads: seq<Pc>, j: Job, q: nat) {
    exists t :: 0 <= t < |threads| && threads[t] == Marking(j, q)
  }

  /** The record of the job, if it is still in the table, names queue `q`. */
  predicate Names(hist: H.History, n: nat, j: Job, q: nat) {
    |hist.slots| == 10 && (H.Retained(n, j.addr) ==>
      hist.slots[H.SlotFor(j.addr)].Some? && hist.slots[H.SlotFor(j.addr)].value.queueIdx == q)
  }

  /** Wherever a job is queued, its record says so or a putJobBack is about to write it; a
      job on its way to its first queue has a record that names that queue. */
  ghost predicate IndexOk(s: State) {
    && (forall j, q :: Located(s.queues, j, q) ==>
          Names(s.hist, |s.accepted|, j, q) || Pending(s.threads, j, q))
    && (forall t :: 0 <= t < |s.threads| && s.threads[t].Putting? && !s.threads[t].back ==>
          Names(s.hist, |s.accepted|, s.threads[t].job, s.threads[t].q))
    && (forall t, u ::
          (0 <= t < |s.threads| && 0 <= u < |s.threads|
           && s.threads[t].Marking? && s.threads[u].Putting? && !s.threads[u].back) ==>
          s.threads[t].job != s.threads[u].job)
  }

  /** The write of putJobBack is not overtaken: if by now the job whose record is written is
      in another queue, then the putJobBack that moved it there has not written yet either;
      and if it is on its way to its first queue, that is the queue written. */
  ghost predicate Timely(s: State, step: Step)
    requires WF(s) && Enabled(s, step)
  {
    step.BackMark? ==>
      var Marking(job, q) := s.threads[step.t];
      match H.Owner(|s.accepted|, job.id)
      case None => true
      case Some(k) => TimelyFor(s, step.t, s.accepted[k], q)
  }

  /** The job is in queue `p`, not `q`, and no thread but `t` has yet to write that. */
  ghost predicate Overtaken(s: State, t: nat, j: Job, q: nat, p: nat) {
    p != q && Located(s.queues, j, p)
    && forall u :: 0 <= u < |s.threads| && u != t ==> s.threads[u] != Marking(j, p)
  }

  ghost predicate TimelyFor(s: State, t: nat, j: Job, q: nat) {
    && (forall p :: !Overtaken(s, t, j, q, p))
    && (forall u :: 0 <= u < |s.threads| && s.threads[u].Putting? && !s.threads[u].back && s.threads[u].job == j ==>
          s.threads[u].q == q)
  }

  // ---------------------------------------------------------------- steps

  /** A putJobBack that has yet to write stays so until it writes. */
  lemma PendingKept(s: State, step: Step, j: Job, q: nat)
    requires WF(s) && Enabled(s, step) && InRing(s, step) && Pending(s.threads, j, q)
    requires step.BackMark? ==> s.threads[step.t] != Marking(j, q)
    ensures Pending(Apply(s, step).threads, j, q)
  {
    var t :| 0 <= t < |s.threads| && s.threads[t] == Marking(j, q);
    if step.Connect? {
      assert Apply(s, step).threads[t] == Marking(j, q);
    } else {
      Others(s, step);
      assert t != step.t;
      hide Apply;
      assert Apply(s, step).threads[t] == Marking(j, q);
    }
  }

  /** A queue after a put, a get or a removal has no job it did not have, but for the job put. */
  lemma QueueGains(s: State, step: Step, j: Job, q: nat)
    requires WF(s) && Enabled(s, step) && InRing(s, step) && (step.Put? || step.Get? || step.Remove?)
    requires Located(Apply(s, step).queues, j, q)
    ensures Located(s.queues, j, q)
         || (step.Put? && s.threads[step.t].job == j && s.threads[step.t].q == q && s.queues[q].Len() < 15)
  {
    hide R.Victim, R.FirstWith, R.Remove, R.Put, R.Get, Matches, Wake, R.Ring.Contents;
    var r := s.queues[s.threads[step.t].q];
    match step
    case Put(t, w) => if r.Len() < 15 { QueuePut(r, s.threads[t].job); }
    case Get(t, w) => if r.Len() > 0 { QueueGet(r); }
    case Remove(t, w) => if r.Len() > 0 { QueueRemove(r, s.threads[t].id); }
  }

  lemma QueuesKept(s: State, step: Step)
    requires WF(s) && Enabled(s, step) && InRing(s, step) && !step.Put? && !step.Get? && !step.Remove?
    ensures Apply(s, step).queues == s.queues
  {
  }

  lemma LocatedBefore(s: State, step: Step, j: Job, q: nat)
    requires WF(s) && Enabled(s, step) && InRing(s, step)
    requires Located(Apply(s, step).queues, j, q)
    ensures Located(s.queues, j, q)
         || (step.Put? && s.threads[step.t].job == j && s.threads[step.t].q == q && s.queues[q].Len() < 15)
  {
    hide Apply, Located;
    if step.Put? || step.Get? || step.Remove? {
      QueueGains(s, step, j, q);
    } else {
      QueuesKept(s, step);
    }
  }

  /** Steps that write no queue index. */
  lemma IndexUnwritten(s: State, step: Step)
    requires WF(s) && Enabled(s, step) && InRing(s, step) && !step.Accept? && !step.BackMark?
    ensures var s' := Apply(s, step);
            && s'.accepted == s.accepted && |s'.hist.slots| == 10
            && forall i :: 0 <= i < 10 && s.hist.slots[i].Some? ==>
                 s'.hist.slots[i].Some? && s'.hist.slots[i].value.queueIdx == s.hist.slots[i].value.queueIdx
  {
    hide H.Find;
  }

  lemma AcceptNames(s: State, t: nat, exit0: byte, j: Job, q: nat)
    requires WF(s) && Enabled(s, Accept(t, exit0))
    requires j in s.accepted && Names(s.hist, |s.accepted|, j, q)
    ensures var s' := DoAccept(s, t, exit0); Names(s'.hist, |s'.accepted|, j, q)
  {
    var n := |s.accepted|;
    H.RetainedStep(n, j.addr);
    H.WrappedId(n);
    assert H.SlotFor(n) == DoAccept(s, t, exit0).accepted[n].id % 10;
    hide H.Occupant;
  }

  /** The write of putJobBack, to the record of `j` or to another. */
  lemma BackMarkNames(s: State, t: nat, j: Job, q: nat)
    requires WF(s) && Enabled(s, BackMark(t)) && j in s.accepted
    requires if H.Owner(|s.accepted|, s.threads[t].job.id) == Some(j.addr) then s.threads[t].q == q
             else Names(s.hist, |s.accepted|, j, q)
    ensures var s' := DoBackMark(s, t); Names(s'.hist, |s'.accepted|, j, q)
  {
    hide H.SetQueue, H.Owner;
    var n := |s.accepted|;
    if H.Retained(n, j.addr) {
      H.UpdateOwner(s.hist, n, s.threads[t].job.id, H.Wait, 0, s.threads[t].q, j.addr);
    }
  }

  /** The record of every known job names the same queue after a step, except the record
      that putJobBack writes. */
  lemma NamesKept(s: State, step: Step, j: Job, q: nat)
    requires WF(s) && Enabled(s, step) && InRing(s, step)
    requires j in s.accepted && Names(s.hist, |s.accepted|, j, q)
    requires step.BackMark? ==> H.Owner(|s.accepted|, s.threads[step.t].job.id) != Some(j.addr)
    ensures Names(Apply(s, step).hist, |Apply(s, step).accepted|, j, q)
  {
    hide H.Occupant, H.Owner;
    hide DoAccept, DoPut, DoGet, DoSend, DoReport, DoRemove, DoMark, DoBackMark, DoLook, DoCheck;
    match step
    case Accept(t, exit0) => AcceptNames(s, t, exit0, j, q);
    case BackMark(t) => BackMarkNames(s, t, j, q);
    case _ => IndexUnwritten(s, step);
  }

  lemma CarriedKnown(s: State, t: nat, j: Job)
    requires MemOk(s) && t < |s.threads| && Carries(s.threads[t], j) > 0
    ensures j in s.accepted && s.accepted[j.addr] == j
  {
    hide Sum, Count;
    CarriedCounts(s, t);
    assert Conserved(s, j);
    Known(s, j);
  }

  /** Two threads do not carry the same job. */
  lemma CarriedOnce(s: State, t: nat, u: nat, j: Job)
    requires MemOk(s) && t < |s.threads| && u < |s.threads| && t != u
    ensures Carries(s.threads[t], j) + Carries(s.threads[u], j) <= 1
  {
    assert Conserved(s, j);
    SumHasTwo(CarriedBy(s.threads, j), t, u);
  }

  lemma LocatedKnown(s: State, j: Job, q: nat)
    requires MemOk(s) && Located(s.queues, j, q)
    ensures j in s.accepted && Waiting(s, j) > 0
  {
    CountIn(s.queues[q].Contents(), j);
    SumHas(QueuedIn(s.queues, j), q);
    assert QueuedIn(s.queues, j)[q] > 0;
    assert Conserved(s, j);
    Known(s, j);
  }

  /** The first part of the invariant, for one job and one queue. */
  lemma StepLocated(s: State, step: Step, j: Job, q: nat)
    requires MemOk(s) && IndexOk(s) && Enabled(s, step) && InRing(s, step) && Timely(s, step)
    requires Located(Apply(s, step).queues, j, q)
    ensures Names(Apply(s, step).hist, |Apply(s, step).accepted|, j, q) || Pending(Apply(s, step).threads, j, q)
  {
    assert WF(s);
    hide MemOk, Timely, H.Occupant, H.Owner;
    hide DoAccept, DoGet, DoSend, DoReport, DoRemove, DoMark, DoBackMark, DoLook, DoCheck;
    LocatedBefore(s, step, j, q);
    if !Located(s.queues, j, q) {
      PutLocates(s, step.t, step.w);
    } else {
      LocatedKnown(s, j, q);
      if step.BackMark? {
        BackMarkLocated(s, step.t, j, q);
      } else if Pending(s.threads, j, q) {
        PendingKept(s, step, j, q);
      } else {
        NamesKept(s, step, j, q);
      }
    }
  }

  lemma BackMarkLocated(s: State, t: nat, j: Job, p: nat)
    requires WF(s) && IndexOk(s) && Enabled(s, BackMark(t)) && Timely(s, BackMark(t))
    requires Located(s.queues, j, p) && j in s.accepted
    ensures Names(DoBackMark(s, t).hist, |DoBackMark(s, t).accepted|, j, p) || Pending(DoBackMark(s, t).threads, j, p)
  {
    var Marking(job, q) := s.threads[t];
    if H.Owner(|s.accepted|, job.id) == Some(j.addr) {
      if p == q {
        BackMarkNames(s, t, j, p);
      } else {
        OthersMark(s, t, j, p);
      }
    } else if job == j {
      assert !H.Retained(|s.accepted|, j.addr) by {
        if H.Retained(|s.accepted|, j.addr) { H.RetainedIsOwner(|s.accepted|, j.addr); }
      }
      BackMarkNames(s, t, j, p);
    } else if Pending(s.threads, j, p) {
      PendingKept(s, BackMark(t), j, p);
    } else {
      BackMarkNames(s, t, j, p);
    }
  }

  lemma PutLocates(s: State, t: nat, w: set<nat>)
    requires WF(s) && IndexOk(s) && Enabled(s, Put(t, w)) && InRing(s, Put(t, w)) && s.queues[s.threads[t].q].Len() < 15
    ensures var s' := DoPut(s, t, w);
            Names(s'.hist, |s'.accepted|, s.threads[t].job, s.threads[t].q)
            || Pending(s'.threads, s.threads[t].job, s.threads[t].q)
  {
    var s' := DoPut(s, t, w);
    assert s.threads[t].back ==> s'.threads[t] == Marking(s.threads[t].job, s.threads[t].q);
  }

  lemma OthersMark(s: State, t: nat, j: Job, p: nat)
    requires WF(s) && Enabled(s, BackMark(t)) && TimelyFor(s, t, j, s.threads[t].q)
    requires s.threads[t].q != p && Located(s.queues, j, p)
    ensures Pending(DoBackMark(s, t).threads, j, p)
  {
    assert !Overtaken(s, t, j, s.threads[t].q, p);
    var u :| 0 <= u < |s.threads| && u != t && s.threads[u] == Marking(j, p);
    assert DoBackMark(s, t).threads[u] == Marking(j, p);
  }

  /** Where a thread that marks, or that puts a new job, was before the step. */
  predicate FromMarking(step: Step, t: nat, pc: Pc, pc': Pc) {
    pc'.Marking? ==> pc == pc' || (step.Put? && t == step.t && pc.Putting? && pc.job == pc'.job)
  }

  predicate FromPutting(step: Step, t: nat, pc: Pc, pc': Pc) {
    pc'.Putting? && !pc'.back ==>
      (step.Accept? && t == step.t) || (pc.Putting? && !pc.back && pc.job == pc'.job && pc.q == pc'.q)
  }

  lemma OwnOrigin(s: State, step: Step)
    requires WF(s) && Enabled(s, step) && InRing(s, step) && !step.Connect?
    ensures |Apply(s, step).threads| == |s.threads|
    ensures var pc, pc' := s.threads[step.t], Apply(s, step).threads[step.t];
            FromMarking(step, step.t, pc, pc') && FromPutting(step, step.t, pc, pc')
  {
    if step.Put? {
      hide R.Put, Wake;
    } else if step.Accept? {
    } else {
      StaysAway(s, step);
      hide Apply;
    }
  }

  /** Only putJob comes to mark, and only newJob comes to put a new job. */
  lemma StaysAway(s: State, step: Step)
    requires WF(s) && Enabled(s, step) && InRing(s, step) && !step.Connect? && !step.Put? && !step.Accept?
    ensures |Apply(s, step).threads| == |s.threads|
    ensures var pc, pc' := s.threads[step.t], Apply(s, step).threads[step.t];
            pc' == pc || pc' == WakeUp(pc) || !(pc'.Marking? || (pc'.Putting? && !pc'.back))
  {
    hide H.Find, R.Get, R.Remove, R.Victim, Matches, Wake, DoAccept, DoPut;
  }

  lemma Origin(s: State, step: Step, t: nat)
    requires WF(s) && Enabled(s, step) && InRing(s, step) && t < |Apply(s, step).threads|
    ensures var pc' := Apply(s, step).threads[t];
            if t < |s.threads| then FromMarking(step, t, s.threads[t], pc') && FromPutting(step, t, s.threads[t], pc')
            else pc' == Idle
  {
    if !step.Connect? {
      OwnOrigin(s, step);
      Others(s, step);
      hide Apply;
    }
  }

  /** The other two parts. */
  lemma StepOnTheWay(s: State, step: Step, t: nat)
    requires MemOk(s) && IndexOk(s) && Enabled(s, step) && InRing(s, step) && Timely(s, step)
    requires var s' := Apply(s, step); t < |s'.threads| && s'.threads[t].Putting? && !s'.threads[t].back
    ensures var s' := Apply(s, step); Names(s'.hist, |s'.accepted|, s'.threads[t].job, s'.threads[t].q)
  {
    assert WF(s);
    hide MemOk, H.Occupant, H.Owner, Names;
    hide DoAccept, DoPut, DoGet, DoSend, DoReport, DoRemove, DoMark, DoBackMark, DoLook, DoCheck;
    Origin(s, step, t);
    if step.Accept? && t == step.t {
      AcceptNamesOwn(s, t, step.exit0);
    } else {
      CarriedKnown(s, t, s.threads[t].job);
      if step.BackMark? {
        BackMarkNames(s, step.t, s.threads[t].job, s.threads[t].q);
      } else {
        NamesKept(s, step, s.threads[t].job, s.threads[t].q);
      }
    }
  }

  lemma AcceptNamesOwn(s: State, t: nat, exit0: byte)
    requires WF(s) && Enabled(s, Accept(t, exit0))
    ensures var s' := DoAccept(s, t, exit0); Names(s'.hist, |s'.accepted|, s'.threads[t].job, s'.threads[t].q)
  {
    H.WrappedId(|s.accepted|);
  }

  lemma StepApart(s: State, step: Step, t: nat, u: nat)
    requires MemOk(s) && IndexOk(s) && Enabled(s, step) && InRing(s, step)
    requires var s' := Apply(s, step);
             t < |s'.threads| && u < |s'.threads| && s'.threads[t].Marking? && s'.threads[u].Putting? && !s'.threads[u].back
    ensures var s' := Apply(s, step); s'.threads[t].job != s'.threads[u].job
  {
    assert WF(s);
    hide MemOk, H.Occupant, Names;
    hide DoPut, DoGet, DoSend, DoReport, DoRemove, DoMark, DoBackMark, DoLook, DoCheck;
    Origin(s, step, t);
    Origin(s, step, u);
    if step.Accept? && u == step.t {
      MarkedKnown(s, t);
    } else if step.Put? && t == step.t {
      CarriedOnce(s, t, u, s.threads[t].job);
    }
  }

  lemma MarkedKnown(s: State, t: nat)
    requires MemOk(s) && t < |s.threads| && s.threads[t].Marking?
    ensures WF(s) && s.threads[t].job in s.accepted
  {
    assert PcKnown(s, s.threads[t]);
  }

  lemma StepIndex(s: State, step: Step)
    requires MemOk(s) && IndexOk(s) && Enabled(s, step) && InRing(s, step) && Timely(s, step)
    ensures IndexOk(Apply(s, step))
  {
    assert WF(s);
    hide MemOk, Apply, Names, Located, Pending, Timely;
    var s' := Apply(s, step);
    forall j, q | Located(s'.queues, j, q)
      ensures Names(s'.hist, |s'.accepted|, j, q) || Pending(s'.threads, j, q)
    {
      StepLocated(s, step, j, q);
    }
    forall t | 0 <= t < |s'.threads| && s'.threads[t].Putting? && !s'.threads[t].back
      ensures Names(s'.hist, |s'.accepted|, s'.threads[t].job, s'.threads[t].q)
    {
      StepOnTheWay(s, step, t);
    }
    forall t, u | 0 <= t < |s'.threads| && 0 <= u < |s'.threads|
          && s'.threads[t].Marking? && s'.threads[u].Putting? && !s'.threads[u].back
      ensures s'.threads[t].job != s'.threads[u].job
    {
      StepApart(s, step, t, u);
    }
  }

  // ---------------------------------------------------------------- theorems

  /** The write of putJobBack keeps the agreement exactly when it is timely. */
  lemma BackMarkAgreesIff(s: State, t: nat)
    requires MemOk(s) && IndexOk(s) && Enabled(s, BackMark(t))
    ensures IndexOk(DoBackMark(s, t)) <==> Timely(s, BackMark(t))
  {
    if Timely(s, BackMark(t)) {
      StepIndex(s, BackMark(t));
    } else {
      OvertakenDisagrees(s, t);
    }
  }

  lemma OvertakenDisagrees(s: State, t: nat)
    requires WF(s) && Enabled(s, BackMark(t)) && !Timely(s, BackMark(t))
    ensures !IndexOk(DoBackMark(s, t))
  {
    var s' := DoBackMark(s, t);
    var Marking(job, q) := s.threads[t];
    var n := |s.accepted|;
    var k := H.Owner(n, job.id).value;
    var j := s.accepted[k];
    H.UpdateOwner(s.hist, n, job.id, H.Wait, 0, q, k);
    hide H.SetQueue, H.Occupant;
    assert forall p :: p != q ==> !Names(s'.hist, |s'.accepted|, j, p);
    if p :| Overtaken(s, t, j, q, p) {
      assert Located(s'.queues, j, p) && !Pending(s'.threads, j, p);
    } else {
      var u :| 0 <= u < |s.threads| && s.threads[u].Putting? && !s.threads[u].back && s.threads[u].job == j
            && s.threads[u].q != q;
      assert s'.threads[u] == s.threads[u];
    }
  }

  ghost predicate TimelyRun(ss: seq<State>, steps: seq<Step>, n: nat) {
    Run(ss, steps, n)
    && forall i :: 0 <= i < |steps| ==> Next(ss[i], steps[i], ss[i + 1]) && Timely(ss[i], steps[i])
  }

  /** Queue-location agreement: in every run in which no putJobBack is overtaken, every queued
      job with a retained record is where its record says, or a putJobBack of it into that
      queue is about to write the record. */
  lemma {:induction false} IndexAgrees(ss: seq<State>, steps: seq<Step>, n: nat, i: nat)
    requires TimelyRun(ss, steps, n) && i < |ss|
    ensures IndexOk(ss[i])
  {
    hide MemOk, IndexOk, Timely, Apply, InRing, Safe;
    if i == 0 {
      EmptyIndex(ss[0], n);
    } else {
      IndexAgrees(ss, steps, n, i - 1);
      RunMem(ss, steps, n, i - 1);
      assert Next(ss[i - 1], steps[i - 1], ss[i]);
      assert Timely(ss[i - 1], steps[i - 1]);
      StepIndex(ss[i - 1], steps[i - 1]);
    }
  }

  lemma EmptyIndex(s: State, n: nat)
    requires Init(s, n)
    ensures IndexOk(s)
  {
    forall j, q
      ensures !Located(s.queues, j, q)
    {
    }
  }

  /** With one queue, as the program is configured, no putJobBack can be overtaken. */
  lemma OneQueueIsTimely(ss: seq<State>, steps: seq<Step>)
    requires Run(ss, steps, 1)
    ensures TimelyRun(ss, steps, 1)
  {
    forall i | 0 <= i < |steps|
      ensures Next(ss[i], steps[i], ss[i + 1]) && Timely(ss[i], steps[i])
    {
      RunWF(ss, steps, 1, i);
      assert Next(ss[i], steps[i], ss[i + 1]);
    }
  }

  lemma KnownPlace(s: State, j: Job, q: nat)
    requires MemOk(s) && Located(s.queues, j, q)
    ensures WF(s) && j.id == H.IdOf(j.addr)
  {
    LocatedKnown(s, j, q);
  }

  lemma LookFollowsIndex(s: State, t: nat, j: Job, q: nat)
    requires MemOk(s) && IndexOk(s) && Enabled(s, Look(t, j.id)) && Located(s.queues, j, q)
    requires !Pending(s.threads, j, q) && H.Retained(|s.accepted|, j.addr)
    ensures DoLook(s, t, j.id).threads[t] == if StateOf(s, j.addr) == H.Wait then Removing(j.id, q) else Idle
  {
    hide MemOk, Located, Pending, H.Find, H.Retained, H.Occupant, H.Agrees, QueuesOk, ThreadsOk;
    KnownPlace(s, j, q);
    H.FindRetained(s.hist, |s.accepted|, j.addr);
  }

  /** The queue that unsubmit searches is the one that holds the job: in every timely run, once
      no putJobBack of a queued job is in flight and its record is retained, unsubmit goes on
      to that queue, unless the record does not say WAIT. */
  lemma UnsubmitSearchesRightQueue(ss: seq<State>, steps: seq<Step>, n: nat, i: nat, t: nat, j: Job, q: nat)
    requires TimelyRun(ss, steps, n) && i < |ss|
    requires Enabled(ss[i], Look(t, j.id)) && Located(ss[i].queues, j, q) && !Pending(ss[i].threads, j, q)
    requires H.Retained(|ss[i].accepted|, j.addr)
    ensures WF(ss[i])
    ensures DoLook(ss[i], t, j.id).threads[t] == if StateOf(ss[i], j.addr) == H.Wait then Removing(j.id, q) else Idle
  {
    RunMem(ss, steps, n, i);
    IndexAgrees(ss, steps, n, i);
    LookFollowsIndex(ss[i], t, j, q);
    hide TimelyRun, IndexOk, Located, Pending, H.Retained, DoLook;
  }
}
