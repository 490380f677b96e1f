/** The memory of the jobs. In every run no step uses a job that was freed and no job is
    freed while a queue or a handler still has it; so it does not matter that a later
    submission may be given the block of a freed job. */
module Memory {
  import opened Words
  import opened Jobs
  import opened Scheduler
  import opened Conservation
  import R = Ring
  import H = History

  // ---------------------------------------------------------------- the invariant

  /** Threads between two critical sections remember real jobs. */
  predicate PcKnown(s: State, pc: Pc) {
    match pc
    case Marking(job, _) => job in s.accepted
    case Freeing(job) => job in s.accepted
    case Withdrawn(id, Some(job)) => job.id == id
    case _ => true
  }

  predicate PcsKnown(s: State) {
    forall t :: 0 <= t < |s.threads| ==> PcKnown(s, s.threads[t])
  }

  /** free() was called on a job as often as it was delivered or unsubmitted; only a job that
      removeJob dropped without freeing it may be freed besides. */
  predicate HeapOk(s: State, j: Job) {
    var due := Delivered(s, j) + Withdrawing(s, j) + Count(s.removed, j);
    due <= Count(s.freed, j) <= due + Count(s.lost, j)
  }

  ghost predicate MemOk(s: State) {
    WF(s) && PcsKnown(s) && forall j :: Conserved(s, j) && HeapOk(s, j)
  }

  /** A job that is somewhere is one of the accepted jobs. */
  lemma Known(s: State, j: Job)
    requires WF(s) && Conserved(s, j) && Places(s, j) > 0
    ensures j in s.accepted && j.addr < |s.accepted| && s.accepted[j.addr] == j && j.id == H.IdOf(j.addr)
  {
  }

  lemma CarriedCounts(s: State, t: nat)
    requires t < |s.threads|
    ensures forall j :: Carries(s.threads[t], j) <= Carried(s, j) && Removes(s.threads[t], j) <= Withdrawing(s, j)
  {
    forall j
      ensures Carries(s.threads[t], j) <= Carried(s, j) && Removes(s.threads[t], j) <= Withdrawing(s, j)
    {
      SumHas(CarriedBy(s.threads, j), t);
      SumHas(RemovedBy(s.threads, j), t);
    }
  }

  /** The stepping thread. */
  lemma StepPc(s: State, step: Step)
    requires MemOk(s) && Enabled(s, step) && InRing(s, step) && !step.Connect?
    ensures |Apply(s, step).threads| == |s.threads| && PcKnown(Apply(s, step), Apply(s, step).threads[step.t])
  {
    assert WF(s) && PcKnown(s, s.threads[step.t]);
    hide MemOk;
    if step.Put? {
      PutPc(s, step.t, step.w);
    } else if step.Remove? {
      RemovePc(s, step.t, step.w);
    } else {
      hide H.Find, R.Put, R.Get, R.Remove, DoPut, DoRemove, DoReport;
    }
  }

  lemma PutPc(s: State, t: nat, w: set<nat>)
    requires MemOk(s) && Enabled(s, Put(t, w)) && InRing(s, Put(t, w))
    ensures |DoPut(s, t, w).threads| == |s.threads| && PcKnown(DoPut(s, t, w), DoPut(s, t, w).threads[t])
  {
    CarriedCounts(s, t);
    assert Conserved(s, s.threads[t].job);
    Known(s, s.threads[t].job);
    hide MemOk, Sum, Count, Carried, Waiting, Withdrawing, R.Put;
  }

  lemma RemovePc(s: State, t: nat, w: set<nat>)
    requires WF(s) && Enabled(s, Remove(t, w)) && InRing(s, Remove(t, w))
    ensures |DoRemove(s, t, w).threads| == |s.threads| && PcKnown(DoRemove(s, t, w), DoRemove(s, t, w).threads[t])
  {
    hide R.Remove, R.Ring.Contents, R.Scan, Wake;
  }

  lemma AcceptedGrows(s: State, step: Step)
    requires WF(s) && Enabled(s, step) && InRing(s, step)
    ensures s.accepted <= Apply(s, step).accepted
  {
  }

  lemma StepPcs(s: State, step: Step)
    requires MemOk(s) && Enabled(s, step) && InRing(s, step)
    ensures PcsKnown(Apply(s, step))
  {
    hide Apply, Sum, Count;
    var s' := Apply(s, step);
    AcceptedGrows(s, step);
    if step.Connect? {
      ConnectPcs(s);
    } else {
      Others(s, step);
      StepPc(s, step);
      forall t | 0 <= t < |s'.threads|
        ensures PcKnown(s', s'.threads[t])
      {
        assert PcKnown(s, s.threads[t]);
      }
    }
  }

  lemma ConnectPcs(s: State)
    requires WF(s) && PcsKnown(s)
    ensures PcsKnown(Apply(s, Connect))
  {
  }

  // ---------------------------------------------------------------- steps

  lemma SendHeap(s: State, t: nat, k: nat, o: Outcome, j: Job)
    requires WF(s) && HeapOk(s, j) && Enabled(s, SendJob(t, k, o))
    ensures HeapOk(DoSend(s, t, k, o), j)
  {
    hide JobFrame, ReportsOf;
    hide Sum, Count, Waiting, Withdrawing, Reporting, Delivered;
    SendMoves(s, t, k, o, j);
    CountPush(s.freed, s.threads[t].job, j);
  }

  lemma RemoveHeap(s: State, t: nat, w: set<nat>, j: Job)
    requires WF(s) && HeapOk(s, j) && Enabled(s, Remove(t, w)) && InRing(s, Remove(t, w))
    ensures HeapOk(DoRemove(s, t, w), j)
  {
    hide Sum, Count, Waiting, Withdrawing, Reporting, Delivered, R.Victim, R.FirstWith, R.Remove, Matches;
    var r, id := s.queues[s.threads[t].q], s.threads[t].id;
    RemoveMoves(s, t, w, j);
    if r.Len() > 0 {
      CountPush(s.freed, r.Contents()[R.Victim(r, id)], j);
    }
  }

  lemma MarkHeap(s: State, t: nat, j: Job)
    requires WF(s) && HeapOk(s, j) && Enabled(s, Mark(t))
    ensures HeapOk(DoMark(s, t), j)
  {
    hide Sum, Count, Waiting, Withdrawing, Reporting, Delivered;
    MarkMoves(s, t, j);
  }

  lemma BackFreeHeap(s: State, t: nat, j: Job)
    requires WF(s) && HeapOk(s, j) && Enabled(s, BackFree(t)) && Safe(s, BackFree(t))
    ensures HeapOk(Apply(s, BackFree(t)), j)
  {
    hide Sum, Count, Waiting, Withdrawing, Reporting, Delivered;
    ControlMoves(s, BackFree(t), j);
    CountPush(s.freed, s.threads[t].job, j);
    CountIn(s.freed, s.threads[t].job);
    CountIn(s.lost, s.threads[t].job);
  }

  /** Steps that free no job. */
  lemma FreesNothing(s: State, step: Step)
    requires WF(s) && Enabled(s, step) && InRing(s, step) && !step.SendJob? && !step.Remove? && !step.BackFree?
    ensures Apply(s, step).freed == s.freed && Apply(s, step).lost == s.lost
  {
  }

  lemma StepHeap(s: State, step: Step, j: Job)
    requires WF(s) && HeapOk(s, j) && Enabled(s, step) && Sound(s, step)
    ensures HeapOk(Apply(s, step), j)
  {
    hide Sum, Count, Waiting, Withdrawing, Reporting, Delivered, Safe;
    hide DoAccept, DoPut, DoGet, DoSend, DoBackMark, DoReport, DoRemove, DoMark, DoLook, DoCheck;
    if !step.SendJob? && !step.Remove? && !step.BackFree? {
      FreesNothing(s, step);
    }
    match step
    case Connect => ConnectMoves(s, j);
    case Accept(t, exit0) => AcceptMoves(s, t, exit0, j);
    case Put(t, w) => PutMoves(s, t, w, j);
    case Get(t, w) => GetMoves(s, t, w, j);
    case SendJob(t, k, o) => SendHeap(s, t, k, o, j);
    case Report(t) => ReportMoves(s, t, j);
    case Remove(t, w) => RemoveHeap(s, t, w, j);
    case Mark(t) => MarkHeap(s, t, j);
    case BackFree(t) => BackFreeHeap(s, t, j);
    case _ => ControlMoves(s, step, j);
  }

  lemma StepMem(s: State, step: Step)
    requires MemOk(s) && Enabled(s, step) && Sound(s, step)
    ensures MemOk(Apply(s, step))
  {
    hide Sum, Count, Conserved, HeapOk, PcsKnown, Apply;
    var s' := Apply(s, step);
    StepWF(s, step);
    StepPcs(s, step);
    forall j
      ensures Conserved(s', j) && HeapOk(s', j)
    {
      assert Conserved(s, j);
      StepConserves(s, step, j);
      StepHeap(s, step, j);
    }
  }

  lemma InitMem(s: State, n: nat)
    requires Init(s, n)
    ensures MemOk(s)
  {
    InitWF(s, n);
    forall j
      ensures Conserved(s, j) && HeapOk(s, j)
    {
      InitConserved(s, n, j);
    }
  }

  lemma {:induction false} RunMem(ss: seq<State>, steps: seq<Step>, n: nat, i: nat)
    requires Run(ss, steps, n) && i < |ss|
    ensures MemOk(ss[i])
  {
    hide MemOk;
    if i == 0 {
      InitMem(ss[0], n);
    } else {
      RunMem(ss, steps, n, i - 1);
      assert Next(ss[i - 1], steps[i - 1], ss[i]);
      StepMem(ss[i - 1], steps[i - 1]);
    }
  }

  // ---------------------------------------------------------------- what it means for the program

  /** removeJob looks at the id of the job while it scans the slots. */
  ghost predicate Scanned(r: R.Ring, id: uint16, j: Job)
    requires r.Valid()
  {
    var g, p := r.getIdx % 15, r.putIdx % 15;
    r.Len() > 0 && exists i :: g <= i < p && i <= R.Scan(r.slots, g, p, id) && r.slots[i] == j
  }

  /** The step follows a pointer to the job. */
  ghost predicate Uses(s: State, step: Step, j: Job)
    requires WF(s) && Enabled(s, step)
  {
    match step
    case SendJob(t, _, _) => s.threads[t].job == j
    case BackMark(t) => s.threads[t].job == j
    case BackFree(t) => s.threads[t].job == j
    case Remove(t, _) => Scanned(s.queues[s.threads[t].q], s.threads[t].id, j)
    case _ => false
  }

  /** No job was freed twice, and none that a queue or a handler still has. */
  ghost predicate NoneFreedInUse(s: State) {
    forall j :: Count(s.freed, j) <= 1 && (Waiting(s, j) > 0 ==> j !in s.freed)
  }

  /** What C asks of the step: it follows no pointer to a freed job, frees nothing twice or in
      use, and writes a record only if there is one. */
  ghost predicate MemorySafe(s: State, step: Step)
    requires WF(s) && Enabled(s, step) && InRing(s, step)
  {
    && (forall j :: Uses(s, step, j) ==> j !in s.freed)
    && NoneFreedInUse(Apply(s, step))
    && (step.Mark? ==> H.Find(s.hist, s.threads[step.t].id) >= 0)
  }

  lemma NotInUse(s: State)
    requires MemOk(s)
    ensures NoneFreedInUse(s)
  {
    forall j
      ensures Count(s.freed, j) <= 1 && (Waiting(s, j) > 0 ==> j !in s.freed)
    {
      assert Conserved(s, j) && HeapOk(s, j);
      CountIn(s.freed, j);
    }
  }

  lemma CarriedInUse(s: State, t: nat, j: Job)
    requires MemOk(s) && t < |s.threads| && Carries(s.threads[t], j) > 0
    ensures j !in s.freed
  {
    NotInUse(s);
    CarriedCounts(s, t);
  }

  lemma QueuedInUse(s: State, q: nat, j: Job)
    requires MemOk(s) && q < |s.queues| && j in s.queues[q].Contents()
    ensures j !in s.freed
  {
    NotInUse(s);
    CountIn(s.queues[q].Contents(), j);
    SumHas(QueuedIn(s.queues, j), q);
    assert QueuedIn(s.queues, j)[q] > 0;
  }

  /** removeJob scans queued jobs only. */
  lemma ScannedIsQueued(r: R.Ring, id: uint16, j: Job)
    requires QueueOk(r) && Scanned(r, id, j)
    ensures j in r.Contents()
  {
    var g, p := r.getIdx % 15, r.putIdx % 15;
    assert !R.Aliased(r);
    var i :| g <= i < p && i <= R.Scan(r.slots, g, p, id) && r.slots[i] == j;
    R.WindowContents(r, g, p);
    InWindow(r.slots, g, p, i);
    hide R.Scan, R.Ring.Contents, R.Ring.Straddles, R.Ring.FlagFaithful, R.Aliased, R.Ring.Len;
  }

  lemma InWindow(slots: seq<Job>, g: nat, p: nat, i: nat)
    requires g <= i < p <= |slots|
    ensures slots[i] in slots[g..p]
  {
    assert slots[g..p][i - g] == slots[i];
  }

  lemma SafeUses(s: State, step: Step, j: Job)
    requires MemOk(s) && Enabled(s, step) && Sound(s, step) && Uses(s, step, j)
    ensures j !in s.freed
  {
    assert WF(s);
    hide MemOk, Scanned, H.Find;
    match step
    case SendJob(t, _, _) => CarriedInUse(s, t, j);
    case Remove(t, _) =>
      ScannedIsQueued(s.queues[s.threads[t].q], s.threads[t].id, j);
      QueuedInUse(s, s.threads[t].q, j);
    case _ =>
  }

  /** If putJobBack frees a job that nobody has any more, removeJob had dropped it. */
  lemma FreesLost(s: State, t: nat)
    requires MemOk(s) && Enabled(s, BackFree(t))
    requires s.threads[t].job !in s.freed && NoneFreedInUse(Apply(s, BackFree(t)))
    ensures s.threads[t].job in s.lost
  {
    var job := s.threads[t].job;
    assert PcKnown(s, s.threads[t]) && Conserved(s, job) && HeapOk(s, job);
    ControlMoves(s, BackFree(t), job);
    assert Apply(s, BackFree(t)).freed[|s.freed|] == job;
    CountIn(s.freed, job);
    CountIn(s.lost, job);
  }

  /** Exactly when a step is safe for memory: always, except for the two ways in which the end
      of putJobBack fails, a job freed before it reads or frees it and a job in use that it
      frees, and for the missing record at the end of unsubmit. */
  lemma MemorySafeIff(s: State, step: Step)
    requires MemOk(s) && Enabled(s, step) && InRing(s, step)
    ensures MemorySafe(s, step) <==> Safe(s, step)
  {
    assert WF(s);
    hide MemOk, Apply, NoneFreedInUse;
    if Safe(s, step) {
      StepMem(s, step);
      NotInUse(Apply(s, step));
      forall j | Uses(s, step, j)
        ensures j !in s.freed
      {
        SafeUses(s, step, j);
      }
    } else if MemorySafe(s, step) {
      GuardIsNeeded(s, step);
    }
  }

  lemma GuardIsNeeded(s: State, step: Step)
    requires MemOk(s) && Enabled(s, step) && InRing(s, step) && MemorySafe(s, step)
    ensures Safe(s, step)
  {
    assert WF(s);
    hide MemOk, NoneFreedInUse, H.Find;
    if step.BackMark? {
      assert Uses(s, step, s.threads[step.t].job);
    } else if step.BackFree? {
      assert Uses(s, step, s.threads[step.t].job);
      FreesLost(s, step.t);
    }
  }

  /** For the end of putJobBack, in terms of where the job is. The look-up is safe if and only
      if the job was neither delivered nor unsubmitted since it was queued again, or removeJob
      dropped it and nobody freed it. */
  lemma BackMarkSafeIff(s: State, t: nat)
    requires MemOk(s) && Enabled(s, BackMark(t))
    ensures var job := s.threads[t].job;
            MemorySafe(s, BackMark(t)) <==> Waiting(s, job) == 1 || (job in s.lost && job !in s.freed)
  {
    var job := s.threads[t].job;
    MemorySafeIff(s, BackMark(t));
    assert PcKnown(s, s.threads[t]) && Conserved(s, job) && HeapOk(s, job);
    CountIn(s.freed, job);
    CountIn(s.lost, job);
    hide MemOk, MemorySafe, H.Find, Sum, Count, Waiting, Withdrawing, Reporting, Delivered;
  }

  /** The free that follows when there is no record is safe if and only if removeJob has dropped
      the job in the meantime and nobody freed it; for every other job it is an error. */
  lemma BackFreeSafeIff(s: State, t: nat)
    requires MemOk(s) && Enabled(s, BackFree(t))
    ensures var job := s.threads[t].job;
            MemorySafe(s, BackFree(t)) <==> job in s.lost && job !in s.freed
  {
    MemorySafeIff(s, BackFree(t));
  }

  /** Memory safety of every run: no step follows a pointer to a freed job, frees a job twice
      or while a queue or a handler has it, or writes a missing record. */
  lemma RunsAreMemorySafe(ss: seq<State>, steps: seq<Step>, n: nat, i: nat)
    requires Run(ss, steps, n) && i < |steps|
    ensures WF(ss[i]) && Enabled(ss[i], steps[i]) && InRing(ss[i], steps[i]) && MemorySafe(ss[i], steps[i])
  {
    RunMem(ss, steps, n, i);
    assert Next(ss[i], steps[i], ss[i + 1]);
    hide MemOk, MemorySafe, InRing, Safe;
    MemorySafeIff(ss[i], steps[i]);
  }

  /** In every run a job that removeJob has not dropped is freed once it was delivered or
      unsubmitted, once, and not before. */
  lemma FreedWhenDone(ss: seq<State>, steps: seq<Step>, n: nat, i: nat, j: Job)
    requires Run(ss, steps, n) && i < |ss|
    ensures Count(ss[i].freed, j) <= 1
    ensures j in ss[i].accepted && j !in ss[i].lost ==> (j !in ss[i].freed <==> Waiting(ss[i], j) == 1)
  {
    RunMem(ss, steps, n, i);
    assert Conserved(ss[i], j) && HeapOk(ss[i], j);
    CountIn(ss[i].freed, j);
    CountIn(ss[i].lost, j);
  }
}
