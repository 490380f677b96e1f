/** Runs of the main server that show what the hypotheses on unsubmit and putJobBack exclude.
    Without them a record can say UNSUBMITED of a job that is about to be sent, and can name a
    queue that the job is not in; unsubmit can write outside the table, and putJobBack can
    read a job that was freed or free one that is queued; and a report can be written to the
    record of another job. */
module Races {
  import opened Words
  import opened Jobs
  import opened Codec
  import opened Scheduler
  import opened Conservation
  import opened Memory
  import opened Lifecycle
  import opened QueueIndex
  import R = Ring
  import H = History
  import M = Monitor

  const PAYLOAD := Payload(0, 0, [], [])
  const JOB := Job(0, 0, PAYLOAD)

  /** The history after the only submission, with the given state and queue. */
  function OneRecord(st: H.JobState, q: byte): H.History {
    H.History([Some(H.Record(0, 0, st, 0, q)), None, None, None, None, None, None, None, None, None], 1)
  }

  /** A queue that `JOB` has left `gone` times and entered `come` times. */
  function Passed(come: uint32, gone: uint32): R.Ring {
    R.Ring(seq(15, i => JOB), come, gone, false)
  }

  lemma PassedPut(come: uint32, gone: uint32)
    requires gone <= come < gone + 14 && come < 15
    ensures R.Put(Passed(come, gone), JOB) == Passed(come + 1, gone)
  {
    assert Passed(come, gone).slots[come % 15 := JOB] == Passed(come, gone).slots;
  }

  predicate Awake(pc: Pc) {
    (pc.Putting? || pc.Getting?) ==> pc.wait != Parked
  }

  /** Nobody is blocked, so a signal wakes nobody. */
  lemma NoneParked(threads: seq<Pc>, q: nat)
    requires forall t :: 0 <= t < |threads| ==> Awake(threads[t])
    ensures Wake(threads, {}) == threads
    ensures M.Signal(ParkedGet(threads, q), {}) && M.Signal(ParkedPut(threads, q), {})
  {
  }

  /** Nobody is blocked. */
  predicate AllAwake(s: State) {
    forall t :: 0 <= t < |s.threads| ==> Awake(s.threads[t])
  }

  lemma PutEnabled(s: State, t: nat)
    requires WF(s) && AllAwake(s) && t < |s.threads| && s.threads[t].Putting?
    requires !R.PutCollides(s.queues[s.threads[t].q])
    ensures Enabled(s, Put(t, {})) && Sound(s, Put(t, {})) && Wake(s.threads, {}) == s.threads
  {
    hide Wake, M.Signal, ParkedGet, QueuesOk, HistOk, AcceptedOk, R.PutCollides;
    assert Awake(s.threads[t]);
    NoneParked(s.threads, s.threads[t].q);
  }

  lemma GetEnabled(s: State, t: nat)
    requires WF(s) && AllAwake(s) && t < |s.threads| && s.threads[t].Getting?
    ensures Enabled(s, Get(t, {})) && Sound(s, Get(t, {})) && Wake(s.threads, {}) == s.threads
  {
    hide Wake, M.Signal, ParkedPut, QueuesOk, HistOk, AcceptedOk;
    assert Awake(s.threads[t]);
    NoneParked(s.threads, s.threads[t].q);
  }

  lemma AwakePut(s: State, t: nat, s': State)
    requires WF(s) && AllAwake(s) && t < |s.threads| && s.threads[t].Putting?
    requires s.queues[s.threads[t].q].Len() < 15 && !R.PutCollides(s.queues[s.threads[t].q])
    requires var Putting(q, job, back, wait) := s.threads[t];
             s' == s.(queues := s.queues[q := R.Put(s.queues[q], job)],
                      threads := s.threads[t := if back then Marking(job, q) else Idle])
    ensures Next(s, Put(t, {}), s')
  {
    hide R.Put, Wake, Enabled, Sound, AllAwake, R.Ring.Straddles, R.Ring.FlagFaithful, R.Ring.Len;
    PutEnabled(s, t);
  }

  lemma AwakeGet(s: State, t: nat, s': State)
    requires WF(s) && AllAwake(s) && t < |s.threads| && s.threads[t].Getting?
    requires s.queues[s.threads[t].q].Len() > 0
    requires var q := s.threads[t].q; var r := s.queues[q];
             s' == s.(queues := s.queues[q := R.Get(r)],
                      threads := s.threads[t := Holding(r.slots[r.getIdx % 15])])
    ensures Next(s, Get(t, {}), s')
  {
    hide R.Get, Wake, Enabled, Sound, AllAwake, R.Ring.Straddles, R.Ring.FlagFaithful, R.Ring.Len;
    GetEnabled(s, t);
  }

  // ---------------------------------------------------------------- an unsubmit that comes too late

  /** The main server with one queue, a client handler and an exec-server handler. */
  function Mk(client: Pc, server: Pc, queue: R.Ring, hist: H.History, put2: uint32, get2: uint32, accepted: seq<Job>): State {
    State([queue], hist, put2, get2, [client, server], [NEW_CONN, NEW_CONN], accepted, [], [], [], [], map[])
  }

  /** Both connect, the client's job is queued, the exec server asks for a job; the client's
      unsubmit looks the job up, the exec server takes it, and only then the unsubmit removes
      it, in vain, and marks the record. */
  function LateStep(k: nat): Step
    requires k < 10
  {
    [Connect, Connect, TakeTicket(0, PAYLOAD), Accept(0, 0), Put(0, {}), GetTicket(1), Look(0, 0), Get(1, {}),
     Remove(0, {}), Mark(0)][k]
  }

  function Late(k: nat): State
    requires k <= 10
  {
    var q0, q1, q2, waiting := Passed(0, 0), Passed(1, 0), Passed(1, 1), OneRecord(H.Wait, 0);
    if k == 0 then State([q0], H.EMPTY, 0, 0, [], [], [], [], [], [], [], map[])
    else if k == 1 then State([q0], H.EMPTY, 0, 0, [Idle], [NEW_CONN], [], [], [], [], [], map[])
    else if k == 2 then Mk(Idle, Idle, q0, H.EMPTY, 0, 0, [])
    else if k == 3 then Mk(Ticketed(0, PAYLOAD), Idle, q0, H.EMPTY, 1, 0, [])
    else if k == 4 then Mk(Putting(0, JOB, false, Fresh), Idle, q0, waiting, 1, 0, [JOB])
    else if k == 5 then Mk(Idle, Idle, q1, waiting, 1, 0, [JOB])
    else if k == 6 then Mk(Idle, Getting(0, Fresh), q1, waiting, 1, 1, [JOB])
    else if k == 7 then Mk(Removing(0, 0), Getting(0, Fresh), q1, waiting, 1, 1, [JOB])
    else if k == 8 then Mk(Removing(0, 0), Holding(JOB), q2, waiting, 1, 1, [JOB])
    else if k == 9 then Mk(Withdrawn(0, None), Holding(JOB), q2, waiting, 1, 1, [JOB])
    else Mk(Idle, Holding(JOB), q2, OneRecord(H.Unsubmitted, 0), 1, 1, [JOB])
  }

  lemma LateNext(k: nat)
    requires k < 10 && WF(Late(k))
    ensures Next(Late(k), LateStep(k), Late(k + 1))
  {
    hide Next, Late, LateStep;
    if k == 4 {
      LatePut();
    } else if k == 7 {
      LateGet();
    } else if k < 4 {
      LateSubmit(k);
    } else if k < 7 {
      LateAsk(k);
    } else if k == 8 {
      LateRemove();
    } else {
      LateMark();
    }
  }

  lemma LateSubmit(k: nat)
    requires k < 4 && WF(Late(k))
    ensures Next(Late(k), LateStep(k), Late(k + 1))
  {
    hide QueuesOk, ThreadsOk, HistOk, AcceptedOk;
    hide DoPut, DoGet, DoSend, DoReport, DoRemove, DoMark, DoBackMark, DoLook, DoCheck;
    if k == 0 {
    } else if k == 1 {
    } else if k == 2 {
    } else {
    }
  }

  lemma LateAsk(k: nat)
    requires 5 <= k < 7 && WF(Late(k))
    ensures Next(Late(k), LateStep(k), Late(k + 1))
  {
    hide QueuesOk, ThreadsOk, HistOk, AcceptedOk;
    hide DoAccept, DoPut, DoGet, DoSend, DoReport, DoRemove, DoMark, DoBackMark, DoCheck;
    if k == 5 {
    } else {
    }
  }

  lemma LatePut()
    requires WF(Late(4))
    ensures Next(Late(4), LateStep(4), Late(5))
  {
    hide Next, QueuesOk, ThreadsOk, HistOk, AcceptedOk, OneRecord;
    var s, s' := Late(4), Late(5);
    PassedPut(0, 0);
    hide R.Put;
    assert s'.queues == s.queues[0 := Passed(1, 0)];
    AwakePut(s, 0, s');
  }

  lemma LateGet()
    requires WF(Late(7))
    ensures Next(Late(7), LateStep(7), Late(8))
  {
    hide Next, QueuesOk, ThreadsOk, HistOk, AcceptedOk, OneRecord;
    var s, s' := Late(7), Late(8);
    assert s'.queues == s.queues[0 := R.Get(s.queues[0])];
    AwakeGet(s, 1, s');
  }

  lemma LateRemove()
    requires WF(Late(8))
    ensures Next(Late(8), LateStep(8), Late(9))
  {
    hide QueuesOk, ThreadsOk, HistOk, AcceptedOk;
    hide DoAccept, DoPut, DoGet, DoSend, DoReport, DoMark, DoBackMark, DoLook, DoCheck;
    NoneParked(Late(8).threads, 0);
    hide Wake, M.Signal;
  }

  lemma LateMark()
    requires WF(Late(9))
    ensures Next(Late(9), LateStep(9), Late(10))
  {
    hide QueuesOk, ThreadsOk, HistOk, AcceptedOk, Passed;
    hide DoAccept, DoPut, DoGet, DoSend, DoReport, DoRemove, DoBackMark, DoLook, DoCheck;
  }

  lemma {:induction false} LateWF(k: nat)
    requires k <= 10
    ensures WF(Late(k)) && Init(Late(0), 1)
  {
    hide Late, LateStep;
    if k == 0 {
      LateInit();
    } else {
      LateWF(k - 1);
      LateNext(k - 1);
      StepWF(Late(k - 1), LateStep(k - 1));
    }
  }

  lemma LateInit()
    ensures Init(Late(0), 1) && WF(Late(0))
  {
    InitWF(Late(0), 1);
  }

  /** With one queue: the record of a job says UNSUBMITED although a handler has the job in
      hand and goes on to send it. The job was dequeued between the two critical sections of
      unsubmit, so removeJob did not find it. */
  lemma LateUnsubmit() returns (ss: seq<State>, steps: seq<Step>)
    ensures Run(ss, steps, 1) && |ss| == 11 && WF(ss[10])
    ensures H.Retained(|ss[10].accepted|, 0) && StateOf(ss[10], 0) == H.Unsubmitted
    ensures ss[10].threads == [Idle, Holding(JOB)] && ss[10].accepted == [JOB] && !RecordOk(ss[10], 0)
  {
    ss, steps := seq(11, k requires 0 <= k <= 10 => Late(k)), seq(10, k requires 0 <= k < 10 => LateStep(k));
    LateWF(10);
    forall k | 0 <= k < 10
      ensures Next(ss[k], steps[k], ss[k + 1])
    {
      LateWF(k);
      LateNext(k);
    }
    var s := Late(10);
    assert Carries(s.threads[1], JOB) == 1;
    CarriedCounts(s, 1);
    assert Waiting(s, JOB) > 0;
  }

  // ---------------------------------------------------------------- reachable states

  /** Some run of a main server with `n` queues ends in `s`. */
  ghost predicate Reaches(s: State, n: nat) {
    WF(s) && exists ss, steps :: Run(ss, steps, n) && ss[|ss| - 1] == s
  }

  lemma Extend(s: State, n: nat, step: Step)
    requires Reaches(s, n) && Enabled(s, step) && Sound(s, step)
    ensures Reaches(Apply(s, step), n)
  {
    StepWF(s, step);
    hide Apply, Sound, Enabled, WF, Init;
    var ss, steps :| Run(ss, steps, n) && ss[|ss| - 1] == s;
    var ss', steps' := ss + [Apply(s, step)], steps + [step];
    forall i | 0 <= i < |steps'|
      ensures Next(ss'[i], steps'[i], ss'[i + 1])
    {
      if i < |steps| {
        assert Next(ss[i], steps[i], ss[i + 1]);
      }
    }
    assert Run(ss', steps', n);
  }

  lemma ReachedMem(s: State, n: nat)
    requires Reaches(s, n)
    ensures MemOk(s)
  {
    var ss, steps :| Run(ss, steps, n) && ss[|ss| - 1] == s;
    RunMem(ss, steps, n, |ss| - 1);
  }

  /** `s'` is `s` after `m` further submissions whose handlers have not reached their queues. */
  predicate Behind(s: State, s': State, m: nat) {
    && WF(s) && WF(s') && s'.queues == s.queues
    && s.threads <= s'.threads && s.accepted <= s'.accepted && |s'.accepted| == |s.accepted| + m
    && s.conns <= s'.conns && s'.freed == s.freed && s'.lost == s.lost
    && (m > 0 ==> NewestWaits(s'))
  }

  /** The record of the latest submission says WAIT. */
  predicate NewestWaits(s: State)
    requires WF(s)
  {
    |s.accepted| > 0 &&
    var rec := s.hist.slots[H.SlotFor(|s.accepted| - 1)];
    rec.Some? && rec.value.state == H.Wait
  }

  lemma SubmitOne(s: State, n: nat) returns (s': State)
    requires Reaches(s, n)
    ensures Reaches(s', n) && Behind(s, s', 1)
  {
    assert WF(s);
    hide Reaches, QueuesOk, HistOk, ThreadsOk, AcceptedOk;
    hide DoPut, DoGet, DoSend, DoReport, DoRemove, DoMark, DoBackMark, DoLook, DoCheck;
    var t := |s.threads|;
    Extend(s, n, Connect);
    var s1 := Apply(s, Connect);
    ReachedWF(s1, n);
    Extend(s1, n, TakeTicket(t, PAYLOAD));
    var s2 := Apply(s1, TakeTicket(t, PAYLOAD));
    ReachedWF(s2, n);
    Extend(s2, n, Accept(t, 0));
    s' := Apply(s2, Accept(t, 0));
    ReachedWF(s', n);
    H.WrappedId(|s.accepted|);
    assert s2.hist.putIdx == Wrap32(|s.accepted|) by { HistCounts(s2); }
  }

  lemma HistCounts(s: State)
    requires WF(s)
    ensures s.hist.putIdx == Wrap32(|s.accepted|)
  {
  }

  lemma ReachedWF(s: State, n: nat)
    requires Reaches(s, n)
    ensures WF(s)
  {
  }

  lemma {:induction false} SubmitMany(s: State, n: nat, m: nat) returns (s': State)
    requires Reaches(s, n)
    ensures Reaches(s', n) && Behind(s, s', m)
  {
    if m == 0 {
      s' := s;
    } else {
      var s1 := SubmitMany(s, n, m - 1);
      s' := SubmitOne(s1, n);
      BehindTwice(s, s1, s', m - 1);
    }
    hide Reaches, Behind;
  }

  lemma BehindTwice(s: State, s1: State, s2: State, m: nat)
    requires Behind(s, s1, m) && Behind(s1, s2, 1)
    ensures Behind(s, s2, m + 1)
  {
  }

  /** Ten submissions later the record of the first job is gone. */
  lemma EvictedByTen(h: H.History)
    requires H.Agrees(h, 11)
    ensures H.Find(h, 0) < 0
  {
    H.FindIsOwner(h, 11, 0);
    H.RecentIsOwner(11, 0);
    H.LastTen(11, 0);
  }

  lemma {:induction false} LateReached(k: nat)
    requires k <= 10
    ensures Reaches(Late(k), 1)
  {
    hide Late, LateStep, Apply, Sound;
    LateWF(k);
    if k == 0 {
      assert Run([Late(0)], [], 1);
    } else {
      LateReached(k - 1);
      LateNext(k - 1);
      Extend(Late(k - 1), 1, LateStep(k - 1));
    }
  }

  /** With one queue: ten jobs are submitted between the two look-ups of unsubmit, and the
      second one finds no record, so unsubmit writes to job_array[-1]. */
  lemma MissingRecord() returns (s: State)
    ensures Reaches(s, 1) && WF(s) && Enabled(s, Mark(0)) && H.MarkFaults(s.hist, s.threads[0].id)
  {
    hide Reaches, Late, QueuesOk, ThreadsOk, AcceptedOk, H.Agrees, H.Find;
    LateReached(9);
    LateWithdrawn();
    s := SubmitMany(Late(9), 1, 10);
    EvictedByTen(s.hist);
  }

  lemma LateWithdrawn()
    ensures Late(9).threads == [Withdrawn(0, None), Holding(JOB)] && |Late(9).accepted| == 1
  {
  }

  // ---------------------------------------------------------------- a job put back and freed

  /** The exec server takes the job, does not answer, and its handler queues the job again;
      a second exec server connects and takes it. */
  function BackStep(k: nat): Step
    requires k < 7
  {
    [Get(1, {}), CheckFails(1, 0), BackTicket(1), Put(1, {}), Connect, GetTicket(2), Get(2, {})][k]
  }

  function Back(k: nat): State
    requires k <= 7
  {
    var q2, q3, q4, w := Passed(1, 1), Passed(2, 1), Passed(2, 2), OneRecord(H.Wait, 0);
    var mark := Marking(JOB, 0);
    if k == 0 then Late(6)
    else if k == 1 then Mk(Idle, Holding(JOB), q2, w, 1, 1, [JOB])
    else if k == 2 then Mk(Idle, Returning(JOB), q2, w, 1, 1, [JOB])
    else if k == 3 then Mk(Idle, Putting(0, JOB, true, Fresh), q2, w, 2, 1, [JOB])
    else if k == 4 then Mk(Idle, mark, q3, w, 2, 1, [JOB])
    else if k == 5 then Mk3(mark, Idle, q3, w, 2, 1)
    else if k == 6 then Mk3(mark, Getting(0, Fresh), q3, w, 2, 2)
    else Mk3(mark, Holding(JOB), q4, w, 2, 2)
  }

  function Mk3(one: Pc, two: Pc, queue: R.Ring, hist: H.History, put2: uint32, get2: uint32): State {
    State([queue], hist, put2, get2, [Idle, one, two], [NEW_CONN, NEW_CONN, NEW_CONN], [JOB], [], [], [], [], map[])
  }

  lemma BackTake()
    requires WF(Back(0))
    ensures Next(Back(0), BackStep(0), Back(1))
  {
    hide Next, QueuesOk, ThreadsOk, HistOk, AcceptedOk, OneRecord;
    var s, s' := Back(0), Back(1);
    assert s'.queues == s.queues[0 := R.Get(s.queues[0])];
    AwakeGet(s, 1, s');
  }

  lemma BackTakeAgain()
    requires WF(Back(6))
    ensures Next(Back(6), BackStep(6), Back(7))
  {
    hide Next, QueuesOk, ThreadsOk, HistOk, AcceptedOk, OneRecord;
    var s, s' := Back(6), Back(7);
    assert s'.queues == s.queues[0 := R.Get(s.queues[0])];
    AwakeGet(s, 2, s');
  }

  lemma BackControl(k: nat)
    requires k in {1, 2, 4, 5} && WF(Back(k))
    ensures Next(Back(k), BackStep(k), Back(k + 1))
  {
    hide QueuesOk, ThreadsOk, HistOk, AcceptedOk;
    hide DoAccept, DoPut, DoGet, DoSend, DoReport, DoRemove, DoMark, DoBackMark, DoLook;
    assert NEW_CONN.wire + CheckFrame()[..0] == NEW_CONN.wire;
    assert NEW_CONN.(wire := NEW_CONN.wire) == NEW_CONN;
    if k == 1 {
    } else if k == 2 {
    } else if k == 4 {
    } else {
    }
  }

  lemma BackPut()
    requires WF(Back(3))
    ensures Next(Back(3), BackStep(3), Back(4))
  {
    hide Next, QueuesOk, ThreadsOk, HistOk, AcceptedOk, OneRecord;
    var s, s' := Back(3), Back(4);
    PassedPut(1, 1);
    hide R.Put;
    assert s'.queues == s.queues[0 := Passed(2, 1)];
    AwakePut(s, 1, s');
  }

  lemma BackNext(k: nat)
    requires k < 7 && WF(Back(k))
    ensures Next(Back(k), BackStep(k), Back(k + 1))
  {
    hide Next, Back, BackStep;
    if k == 0 {
      BackTake();
    } else if k == 6 {
      BackTakeAgain();
    } else if k == 3 {
      BackPut();
    } else {
      BackControl(k);
    }
  }

  lemma {:induction false} BackReached(k: nat)
    requires k <= 7
    ensures Reaches(Back(k), 1)
  {
    hide Back, BackStep, Late, Reaches, Apply, Sound;
    if k == 0 {
      LateReached(6);
      BackStart();
    } else {
      BackReached(k - 1);
      ReachedWF(Back(k - 1), 1);
      BackNext(k - 1);
      Extend(Back(k - 1), 1, BackStep(k - 1));
    }
  }

  lemma BackStart()
    ensures Back(0) == Late(6)
  {
  }

  /** With one queue: ten jobs are submitted while a job is being put back, so putJobBack finds
      no record and is about to free the job, which is in the queue. */
  lemma FreedInQueue() returns (s: State)
    ensures Reaches(s, 1) && WF(s) && Enabled(s, BackFree(1)) && !MemorySafe(s, BackFree(1))
    ensures s.threads[1] == Freeing(JOB) && JOB in s.queues[0].Contents() && JOB !in s.freed
  {
    hide Reaches, Back, MemOk, MemorySafe, H.Find, H.Agrees, H.SetQueue, QueuesOk, ThreadsOk, AcceptedOk, R.Ring.Contents;
    BackReached(4);
    BackQueued();
    var s0 := SubmitMany(Back(4), 1, 10);
    EvictedByTen(s0.hist);
    Extend(s0, 1, BackMark(1));
    s := DoBackMark(s0, 1);
    ReachedWF(s, 1);
    ReachedMem(s, 1);
    MemorySafeIff(s, BackFree(1));
  }

  lemma BackQueued()
    ensures var b := Back(4);
            && |b.threads| == 2 && b.threads[1] == Marking(JOB, 0) && |b.accepted| == 1 && b.freed == [] && b.lost == []
            && |b.queues| == 1 && b.queues[0].Valid() && JOB in b.queues[0].Contents()
  {
    assert Back(4).queues[0].Contents()[0] == JOB;
  }

  /** With one queue and one job: the job that a handler has just put back is taken by a
      second handler, sent and freed before the first one reads its id. */
  lemma ReadAfterFree() returns (s: State)
    ensures Reaches(s, 1) && WF(s) && Enabled(s, BackMark(1)) && !MemorySafe(s, BackMark(1))
    ensures Uses(s, BackMark(1), JOB) && JOB in s.freed && H.Find(s.hist, JOB.id) >= 0
  {
    hide Reaches, Back, MemOk, MemorySafe, H.Find, QueuesOk, ThreadsOk, AcceptedOk, H.Agrees;
    BackReached(7);
    BackHeld();
    ReachedWF(Back(7), 1);
    s := SendIt(Back(7), 1, 2);
    ReachedMem(s, 1);
    MemorySafeIff(s, BackMark(1));
  }

  lemma BackHeld()
    ensures Back(7).threads == [Idle, Marking(JOB, 0), Holding(JOB)]
    ensures |Back(7).hist.slots| == 10 && H.Find(Back(7).hist, 0) == 0
  {
  }

  /** The exec server answers and the job it is given is sent and freed. */
  lemma SendIt(b: State, n: nat, t: nat) returns (s: State)
    requires Reaches(b, n) && t < |b.threads| && b.threads[t] == Holding(JOB)
    ensures Reaches(s, n) && WF(s) && WF(b) && s.threads == b.threads[t := Idle] && s.hist == b.hist && JOB in s.freed
    ensures s.accepted == b.accepted && s.conns[t].inbox == b.conns[t].inbox + [Batch(JOB, false, ReportsOf(JOB.id, Exits(0)))]
  {
    assert WF(b);
    hide Reaches, QueuesOk, ThreadsOk, HistOk, AcceptedOk;
    hide DoAccept, DoPut, DoGet, DoReport, DoRemove, DoMark, DoBackMark, DoLook;
    Extend(b, n, Acked(t));
    var s1 := Apply(b, Acked(t));
    ReachedWF(s1, n);
    var send := SendJob(t, |JobFrame(JOB)|, Exits(0));
    Extend(s1, n, send);
    s := Apply(s1, send);
    ReachedWF(s, n);
    assert s.freed[|b.freed|] == JOB;
  }

  // ---------------------------------------------------------------- a report for another job

  lemma BackTaken()
    ensures var b := Back(1);
            b.threads == [Idle, Holding(JOB)] && b.conns == [NEW_CONN, NEW_CONN] && b.accepted == [JOB]
  {
  }

  /** The 65537th submission has the id of the first, and its record is the one found. */
  lemma IdsWrap()
    ensures H.IdOf(65536) == 0 && H.Retained(65537, 65536) && H.Owner(65537, 0) == Some(65536)
  {
    H.RetainedStep(65536, 65536);
    H.RetainedIsOwner(65537, 65536);
  }

  /** With one queue: 65536 jobs are submitted while a job runs, and the report that it runs is
      about to be written to the record of the last of them, which is waiting. */
  lemma OverwrittenRecord() returns (s: State)
    ensures Reaches(s, 1) && WF(s) && Enabled(s, Report(1)) && !ReportsTheRightJob(s, 1)
    ensures s.conns[1].inbox[0].job == JOB && |s.accepted| == 65537 && H.Retained(65537, 65536)
    ensures WF(DoReport(s, 1)) && StateOf(s, 65536) == H.Wait && StateOf(DoReport(s, 1), 65536) == H.Run
  {
    hide Reaches, Back, QueuesOk, ThreadsOk, HistOk, AcceptedOk, H.Retained, H.Owner, H.SetState;
    BackReached(1);
    BackTaken();
    var s0 := SendIt(Back(1), 1, 1);
    s := SubmitMany(s0, 1, 65536);
    assert s.threads[1] == s0.threads[1] && s.conns[1] == s0.conns[1];
    assert s.conns[1].inbox[0] == Batch(JOB, false, [JobRun(0), JobDone(0, 0)]);
    IdsWrap();
    ReportWF(s, 1);
    RunOverWait(s);
  }

  lemma RunOverWait(s: State)
    requires WF(s) && |s.accepted| == 65537 && NewestWaits(s) && Enabled(s, Report(1))
    requires s.conns[1].inbox[0] == Batch(JOB, false, [JobRun(0), JobDone(0, 0)])
    ensures H.Retained(65537, 65536) && WF(DoReport(s, 1)) && !ReportsTheRightJob(s, 1)
    ensures StateOf(s, 65536) == H.Wait && StateOf(DoReport(s, 1), 65536) == H.Run
  {
    hide H.Occupant, H.SetState;
    IdsWrap();
    ReportWF(s, 1);
    H.UpdateOwner(s.hist, 65537, 0, H.Run, 0, 0, 65536);
  }

  // ---------------------------------------------------------------- a putJobBack that is overtaken

  /** Two queues, a client handler and two exec-server handlers. */
  function Mk2(client: Pc, one: Pc, two: Pc, a: R.Ring, b: R.Ring, hist: H.History, put2: uint32, get2: uint32,
               accepted: seq<Job>): State
  {
    State([a, b], hist, put2, get2, [client, one, two], [NEW_CONN, NEW_CONN, NEW_CONN], accepted, [], [], [], [], map[])
  }

  /** The job is queued in queue 0; the first exec server takes it, does not answer, and it
      goes to queue 1; before its record is written the second exec server takes it from
      there, does not answer either, and it goes back to queue 0. The second putJobBack
      writes the record, then the first does. */
  function StaleStep(k: nat): Step
    requires k < 18
  {
    [Connect, Connect, Connect, TakeTicket(0, PAYLOAD), Accept(0, 0), Put(0, {}),
     GetTicket(1), Get(1, {}), CheckFails(1, 0), BackTicket(1), Put(1, {}),
     GetTicket(2), Get(2, {}), CheckFails(2, 0), BackTicket(2), Put(2, {}),
     BackMark(2), BackMark(1)][k]
  }

  function Stale(k: nat): State
    requires k <= 18
  {
    var a0, a1, a2, a3 := Passed(0, 0), Passed(1, 0), Passed(1, 1), Passed(2, 1);
    var w := OneRecord(H.Wait, 0);
    var mark := Marking(JOB, 1);
    if k == 0 then State([a0, a0], H.EMPTY, 0, 0, [], [], [], [], [], [], [], map[])
    else if k == 1 then State([a0, a0], H.EMPTY, 0, 0, [Idle], [NEW_CONN], [], [], [], [], [], map[])
    else if k == 2 then State([a0, a0], H.EMPTY, 0, 0, [Idle, Idle], [NEW_CONN, NEW_CONN], [], [], [], [], [], map[])
    else if k == 3 then Mk2(Idle, Idle, Idle, a0, a0, H.EMPTY, 0, 0, [])
    else if k == 4 then Mk2(Ticketed(0, PAYLOAD), Idle, Idle, a0, a0, H.EMPTY, 1, 0, [])
    else if k == 5 then Mk2(Putting(0, JOB, false, Fresh), Idle, Idle, a0, a0, w, 1, 0, [JOB])
    else if k == 6 then Mk2(Idle, Idle, Idle, a1, a0, w, 1, 0, [JOB])
    else if k == 7 then Mk2(Idle, Getting(0, Fresh), Idle, a1, a0, w, 1, 1, [JOB])
    else if k == 8 then Mk2(Idle, Holding(JOB), Idle, a2, a0, w, 1, 1, [JOB])
    else if k == 9 then Mk2(Idle, Returning(JOB), Idle, a2, a0, w, 1, 1, [JOB])
    else if k == 10 then Mk2(Idle, Putting(1, JOB, true, Fresh), Idle, a2, a0, w, 2, 1, [JOB])
    else if k == 11 then Mk2(Idle, mark, Idle, a2, a1, w, 2, 1, [JOB])
    else if k == 12 then Mk2(Idle, mark, Getting(1, Fresh), a2, a1, w, 2, 2, [JOB])
    else if k == 13 then Mk2(Idle, mark, Holding(JOB), a2, a2, w, 2, 2, [JOB])
    else if k == 14 then Mk2(Idle, mark, Returning(JOB), a2, a2, w, 2, 2, [JOB])
    else if k == 15 then Mk2(Idle, mark, Putting(0, JOB, true, Fresh), a2, a2, w, 3, 2, [JOB])
    else if k == 16 then Mk2(Idle, mark, Marking(JOB, 0), a3, a2, w, 3, 2, [JOB])
    else if k == 17 then Mk2(Idle, mark, Closed, a3, a2, w, 3, 2, [JOB])
    else Mk2(Idle, Closed, Closed, a3, a2, OneRecord(H.Wait, 1), 3, 2, [JOB])
  }

  lemma StaleSubmit(k: nat)
    requires k < 5 && WF(Stale(k))
    ensures Next(Stale(k), StaleStep(k), Stale(k + 1))
  {
    hide QueuesOk, ThreadsOk, HistOk, AcceptedOk;
    hide DoPut, DoGet, DoSend, DoReport, DoRemove, DoMark, DoBackMark, DoLook, DoCheck;
    if k == 0 {
    } else if k == 1 {
    } else if k == 2 {
    } else if k == 3 {
    } else {
    }
  }

  lemma StaleTicket(k: nat)
    requires k in {6, 9, 11, 14} && WF(Stale(k))
    ensures Next(Stale(k), StaleStep(k), Stale(k + 1))
  {
    hide QueuesOk, ThreadsOk, HistOk, AcceptedOk, OneRecord, Passed;
    hide DoAccept, DoPut, DoGet, DoSend, DoReport, DoRemove, DoMark, DoBackMark, DoLook, DoCheck;
    if k == 6 {
    } else if k == 9 {
    } else if k == 11 {
    } else {
    }
  }

  lemma StaleFirstPut()
    requires WF(Stale(5))
    ensures Next(Stale(5), StaleStep(5), Stale(6))
  {
    hide Next, QueuesOk, ThreadsOk, HistOk, AcceptedOk, OneRecord;
    var s, s' := Stale(5), Stale(6);
    PassedPut(0, 0);
    hide R.Put;
    assert s'.queues == s.queues[0 := Passed(1, 0)];
    AwakePut(s, 0, s');
  }

  lemma StalePutBack()
    requires WF(Stale(10))
    ensures Next(Stale(10), StaleStep(10), Stale(11))
  {
    hide Next, QueuesOk, ThreadsOk, HistOk, AcceptedOk, OneRecord;
    var s, s' := Stale(10), Stale(11);
    PassedPut(0, 0);
    hide R.Put;
    assert s'.queues == s.queues[1 := Passed(1, 0)];
    AwakePut(s, 1, s');
  }

  lemma StalePutAgain()
    requires WF(Stale(15))
    ensures Next(Stale(15), StaleStep(15), Stale(16))
  {
    hide Next, QueuesOk, ThreadsOk, HistOk, AcceptedOk, OneRecord;
    var s, s' := Stale(15), Stale(16);
    PassedPut(1, 1);
    hide R.Put;
    assert s'.queues == s.queues[0 := Passed(2, 1)];
    AwakePut(s, 2, s');
  }

  lemma StaleTake()
    requires WF(Stale(7))
    ensures Next(Stale(7), StaleStep(7), Stale(8))
  {
    hide Next, QueuesOk, ThreadsOk, HistOk, AcceptedOk, OneRecord;
    var s, s' := Stale(7), Stale(8);
    assert s'.queues == s.queues[0 := R.Get(s.queues[0])];
    AwakeGet(s, 1, s');
  }

  lemma StaleTakeAgain()
    requires WF(Stale(12))
    ensures Next(Stale(12), StaleStep(12), Stale(13))
  {
    hide Next, QueuesOk, ThreadsOk, HistOk, AcceptedOk, OneRecord;
    var s, s' := Stale(12), Stale(13);
    assert s'.queues == s.queues[1 := R.Get(s.queues[1])];
    AwakeGet(s, 2, s');
  }

  lemma StaleCheck(k: nat)
    requires k in {8, 13} && WF(Stale(k))
    ensures Next(Stale(k), StaleStep(k), Stale(k + 1))
  {
    hide QueuesOk, ThreadsOk, HistOk, AcceptedOk;
    hide DoAccept, DoPut, DoGet, DoSend, DoReport, DoRemove, DoMark, DoBackMark, DoLook;
    assert NEW_CONN.wire + CheckFrame()[..0] == NEW_CONN.wire;
    assert NEW_CONN.(wire := NEW_CONN.wire) == NEW_CONN;
    if k == 8 {
    } else {
    }
  }

  lemma StaleMark(k: nat)
    requires k in {16, 17} && WF(Stale(k))
    ensures Next(Stale(k), StaleStep(k), Stale(k + 1))
  {
    hide QueuesOk, ThreadsOk, HistOk, AcceptedOk;
    hide DoAccept, DoPut, DoGet, DoSend, DoReport, DoRemove, DoMark, DoLook, DoCheck;
    if k == 16 {
    } else {
    }
  }

  lemma StaleNext(k: nat)
    requires k < 18 && WF(Stale(k))
    ensures Next(Stale(k), StaleStep(k), Stale(k + 1))
  {
    hide Next, Stale, StaleStep;
    if k < 5 {
      StaleSubmit(k);
    } else if k == 5 {
      StaleFirstPut();
    } else if k in {6, 9, 11, 14} {
      StaleTicket(k);
    } else if k == 7 {
      StaleTake();
    } else if k == 12 {
      StaleTakeAgain();
    } else if k in {8, 13} {
      StaleCheck(k);
    } else if k == 10 {
      StalePutBack();
    } else if k == 15 {
      StalePutAgain();
    } else {
      StaleMark(k);
    }
  }

  lemma {:induction false} StaleWF(k: nat)
    requires k <= 18
    ensures WF(Stale(k)) && Init(Stale(0), 2)
  {
    hide Stale, StaleStep;
    if k == 0 {
      StaleInit();
    } else {
      StaleWF(k - 1);
      StaleNext(k - 1);
      StepWF(Stale(k - 1), StaleStep(k - 1));
    }
  }

  lemma StaleInit()
    ensures Init(Stale(0), 2) && WF(Stale(0))
  {
    InitWF(Stale(0), 2);
  }

  /** With two queues, in a benign run and with no operation in flight: the job is in queue 0
      and its retained record names queue 1. */
  lemma StaleIndex() returns (ss: seq<State>, steps: seq<Step>)
    ensures BenignRun(ss, steps, 2) && |ss| == 19
    ensures ss[18].threads == [Idle, Closed, Closed]
    ensures Located(ss[18].queues, JOB, 0) && !Names(ss[18].hist, |ss[18].accepted|, JOB, 0) && !IndexOk(ss[18])
  {
    ss, steps := seq(19, k requires 0 <= k < 19 => Stale(k)), seq(18, k requires 0 <= k < 18 => StaleStep(k));
    hide Stale, StaleStep, IndexOk, Names, Located;
    StaleWF(18);
    forall k | 0 <= k < 18
      ensures Next(ss[k], steps[k], ss[k + 1]) && Benign(ss[k], steps[k])
    {
      StaleWF(k);
      StaleNext(k);
      StaleBenign(k);
    }
    StaleEnd();
  }

  /** No report and no unsubmit takes part. */
  lemma StaleBenign(k: nat)
    requires k < 18 && Next(Stale(k), StaleStep(k), Stale(k + 1))
    ensures Benign(Stale(k), StaleStep(k))
  {
    assert !StaleStep(k).Remove? && !StaleStep(k).Mark? && !StaleStep(k).Report?;
    hide Stale, StaleStep, WF, Apply, Sound, Enabled;
  }

  lemma StaleEnd()
    ensures var s := Stale(18);
            && s.threads == [Idle, Closed, Closed]
            && Located(s.queues, JOB, 0) && !Names(s.hist, |s.accepted|, JOB, 0) && !IndexOk(s)
  {
    var s := Stale(18);
    assert s.queues[0].Contents()[0] == JOB;
    assert H.Retained(1, 0);
    assert !Pending(s.threads, JOB, 0);
  }
}
