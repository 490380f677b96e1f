/** Where every accepted job is. In every run of the main server each job is in exactly one
    place, and no job is handed completely to two exec servers. All counts are for one job. */
module Conservation {
  import opened Words
  import opened Jobs
  import opened Scheduler
  import R = Ring
  import H = History

  // ---------------------------------------------------------------- counting

  /** How often a job occurs in a sequence. */
  function Count(js: seq<Job>, j: Job): nat {
    if js == [] then 0 else Count(js[..|js| - 1], j) + if js[|js| - 1] == j then 1 else 0
  }

  lemma CountPush(js: seq<Job>, x: Job, j: Job)
    ensures Count(js + [x], j) == Count(js, j) + if x == j then 1 else 0
  {
    assert (js + [x])[..|js|] == js;
  }

  lemma {:induction false} CountConcat(a: seq<Job>, b: seq<Job>, j: Job)
    ensures Count(a + b, j) == Count(a, j) + Count(b, j)
  {
    if b == [] {
      assert a + b == a;
    } else {
      var n := |b| - 1;
      CountConcat(a, b[..n], j);
      assert (a + b)[..|a + b| - 1] == a + b[..n];
    }
  }

  lemma CountHead(x: Job, js: seq<Job>, j: Job)
    ensures Count([x] + js, j) == Count(js, j) + if x == j then 1 else 0
  {
    CountConcat([x], js, j);
    assert [x][..0] == [];
  }

  lemma {:induction false} CountIn(js: seq<Job>, j: Job)
    ensures Count(js, j) > 0 <==> j in js
  {
    if js != [] {
      CountIn(js[..|js| - 1], j);
      assert js == js[..|js| - 1] + [js[|js| - 1]];
    }
  }

  lemma CountDelete(js: seq<Job>, k: nat, j: Job)
    requires k < |js|
    ensures Count(R.DeleteAt(js, k), j) == Count(js, j) - if js[k] == j then 1 else 0
  {
    CountConcat(js[..k], js[k + 1..], j);
    CountConcat(js[..k] + [js[k]], js[k + 1..], j);
    CountPush(js[..k], js[k], j);
    assert js == js[..k] + [js[k]] + js[k + 1..];
  }

  /** A job that is counted at most once has one position. */
  lemma CountOnce(js: seq<Job>, i: nat, k: nat)
    requires i < k < |js| && js[i] == js[k]
    ensures Count(js, js[i]) >= 2
  {
    CountConcat(js[..k], js[k..], js[i]);
    assert js == js[..k] + js[k..];
    assert js[i] in js[..k] && js[k..][0] == js[i];
    CountIn(js[..k], js[i]);
    CountIn(js[k..], js[i]);
  }

  function Sum(ns: seq<nat>): nat {
    if ns == [] then 0 else Sum(ns[..|ns| - 1]) + ns[|ns| - 1]
  }

  lemma {:induction false} SumUpdate(ns: seq<nat>, i: nat, m: nat)
    requires i < |ns|
    ensures Sum(ns[i := m]) + ns[i] == Sum(ns) + m
  {
    var n := |ns| - 1;
    if i == n {
      assert ns[i := m][..n] == ns[..n];
    } else {
      SumUpdate(ns[..n], i, m);
      assert ns[i := m][..n] == ns[..n][i := m];
    }
  }

  lemma SumPush(ns: seq<nat>, m: nat)
    ensures Sum(ns + [m]) == Sum(ns) + m
  {
    assert (ns + [m])[..|ns|] == ns;
  }

  lemma SumHas(ns: seq<nat>, i: nat)
    requires i < |ns|
    ensures ns[i] <= Sum(ns)
  {
    SumUpdate(ns, i, 0);
  }

  lemma SumHasTwo(ns: seq<nat>, i: nat, k: nat)
    requires i < |ns| && k < |ns| && i != k
    ensures ns[i] + ns[k] <= Sum(ns)
  {
    SumUpdate(ns, i, 0);
    SumHas(ns[i := 0], k);
  }

  lemma {:induction false} SumPositive(ns: seq<nat>) returns (i: nat)
    requires Sum(ns) > 0
    ensures i < |ns| && ns[i] > 0
  {
    i := |ns| - 1;
    if ns[i] == 0 {
      i := SumPositive(ns[..i]);
    }
  }

  lemma {:induction false} SumZero(ns: seq<nat>)
    requires forall i :: 0 <= i < |ns| ==> ns[i] == 0
    ensures Sum(ns) == 0
  {
    if ns != [] {
      SumZero(ns[..|ns| - 1]);
    }
  }

  // ---------------------------------------------------------------- places

  /** A thread has the job in hand and will put, send or put it back. */
  function Carries(pc: Pc, j: Job): nat {
    match pc
    case Putting(_, job, _, _) => if job == j then 1 else 0
    case Holding(job) => if job == j then 1 else 0
    case Checked(job) => if job == j then 1 else 0
    case Returning(job) => if job == j then 1 else 0
    case _ => 0
  }

  /** An unsubmit has taken the job out of its queue and not yet recorded that. */
  function Removes(pc: Pc, j: Job): nat {
    match pc
    case Withdrawn(_, gone) => if gone == Some(j) then 1 else 0
    case _ => 0
  }

  function Holds(r: R.Ring, j: Job): nat {
    if r.Valid() then Count(r.Contents(), j) else 0
  }

  function BatchJobs(inbox: seq<Batch>): (js: seq<Job>)
    ensures |js| == |inbox| && forall i :: 0 <= i < |js| ==> js[i] == inbox[i].job
  {
    seq(|inbox|, i requires 0 <= i < |inbox| => inbox[i].job)
  }

  function CarriedBy(threads: seq<Pc>, j: Job): seq<nat> {
    seq(|threads|, t requires 0 <= t < |threads| => Carries(threads[t], j))
  }

  function RemovedBy(threads: seq<Pc>, j: Job): seq<nat> {
    seq(|threads|, t requires 0 <= t < |threads| => Removes(threads[t], j))
  }

  function QueuedIn(queues: seq<R.Ring>, j: Job): seq<nat> {
    seq(|queues|, q requires 0 <= q < |queues| => Holds(queues[q], j))
  }

  function ReportedOn(conns: seq<Conn>, j: Job): seq<nat> {
    seq(|conns|, t requires 0 <= t < |conns| => Count(BatchJobs(conns[t].inbox), j))
  }

  function SentOn(conns: seq<Conn>, j: Job): seq<nat> {
    seq(|conns|, t requires 0 <= t < |conns| => Count(conns[t].sent, j))
  }

  /** How often the job waits to be run: in a handler thread's hands, and in a queue. */
  function Carried(s: State, j: Job): nat { Sum(CarriedBy(s.threads, j)) }

  function Queued(s: State, j: Job): nat { Sum(QueuedIn(s.queues, j)) }

  function Waiting(s: State, j: Job): nat { Carried(s, j) + Queued(s, j) }

  /** ... is taken out by an unsubmit that has not finished. */
  function Withdrawing(s: State, j: Job): nat { Sum(RemovedBy(s.threads, j)) }

  /** ... is delivered, with reports still to be read. */
  function Reporting(s: State, j: Job): nat { Sum(ReportedOn(s.conns, j)) }

  /** How often the job was written completely to an exec server. */
  function Delivered(s: State, j: Job): nat { Sum(SentOn(s.conns, j)) }

  /** Every place a job can be. */
  function Places(s: State, j: Job): nat {
    Waiting(s, j) + Withdrawing(s, j) + Reporting(s, j)
    + Count(s.finished, j) + Count(s.removed, j) + Count(s.lost, j)
  }

  // ---------------------------------------------------------------- moving one thread or one queue

  lemma MoveThread(threads: seq<Pc>, t: nat, pc: Pc, j: Job)
    requires t < |threads|
    ensures Sum(CarriedBy(threads[t := pc], j)) + Carries(threads[t], j)
         == Sum(CarriedBy(threads, j)) + Carries(pc, j)
    ensures Sum(RemovedBy(threads[t := pc], j)) + Removes(threads[t], j)
         == Sum(RemovedBy(threads, j)) + Removes(pc, j)
  {
    SumUpdate(CarriedBy(threads, j), t, Carries(pc, j));
    SumUpdate(RemovedBy(threads, j), t, Removes(pc, j));
    assert CarriedBy(threads[t := pc], j) == CarriedBy(threads, j)[t := Carries(pc, j)];
    assert RemovedBy(threads[t := pc], j) == RemovedBy(threads, j)[t := Removes(pc, j)];
  }

  /** Waking threads moves no job. */
  lemma WakeMovesNothing(threads: seq<Pc>, w: set<nat>, j: Job)
    ensures CarriedBy(Wake(threads, w), j) == CarriedBy(threads, j)
    ensures RemovedBy(Wake(threads, w), j) == RemovedBy(threads, j)
  {
  }

  lemma MoveWoken(threads: seq<Pc>, w: set<nat>, t: nat, pc: Pc, j: Job)
    requires t < |threads| && t !in w
    ensures Sum(CarriedBy(Wake(threads, w)[t := pc], j)) + Carries(threads[t], j)
         == Sum(CarriedBy(threads, j)) + Carries(pc, j)
    ensures Sum(RemovedBy(Wake(threads, w)[t := pc], j)) + Removes(threads[t], j)
         == Sum(RemovedBy(threads, j)) + Removes(pc, j)
  {
    WakeMovesNothing(threads, w, j);
    MoveThread(Wake(threads, w), t, pc, j);
  }

  lemma MoveQueue(queues: seq<R.Ring>, q: nat, r: R.Ring, j: Job)
    requires q < |queues|
    ensures Sum(QueuedIn(queues[q := r], j)) + Holds(queues[q], j) == Sum(QueuedIn(queues, j)) + Holds(r, j)
  {
    SumUpdate(QueuedIn(queues, j), q, Holds(r, j));
    assert QueuedIn(queues[q := r], j) == QueuedIn(queues, j)[q := Holds(r, j)];
  }

  lemma MoveConn(conns: seq<Conn>, t: nat, c: Conn, j: Job)
    requires t < |conns|
    ensures Sum(ReportedOn(conns[t := c], j)) + Count(BatchJobs(conns[t].inbox), j)
         == Sum(ReportedOn(conns, j)) + Count(BatchJobs(c.inbox), j)
    ensures Sum(SentOn(conns[t := c], j)) + Count(conns[t].sent, j)
         == Sum(SentOn(conns, j)) + Count(c.sent, j)
  {
    SumUpdate(ReportedOn(conns, j), t, Count(BatchJobs(c.inbox), j));
    SumUpdate(SentOn(conns, j), t, Count(c.sent, j));
    assert ReportedOn(conns[t := c], j) == ReportedOn(conns, j)[t := Count(BatchJobs(c.inbox), j)];
    assert SentOn(conns[t := c], j) == SentOn(conns, j)[t := Count(c.sent, j)];
  }

  // ---------------------------------------------------------------- how a job moves, step by step

  function One(b: bool): nat {
    if b then 1 else 0
  }

  /** Between the two states the job was accepted and has changed places only as the
      differences say. */
  predicate Moved(s: State, s': State, j: Job, accepted: int, waiting: int, withdrawing: int, reporting: int,
                  finished: int, removed: int, lost: int)
  {
    && One(j in s'.accepted) == One(j in s.accepted) + accepted
    && Waiting(s', j) == Waiting(s, j) + waiting
    && Withdrawing(s', j) == Withdrawing(s, j) + withdrawing
    && Reporting(s', j) == Reporting(s, j) + reporting
    && Count(s'.finished, j) == Count(s.finished, j) + finished
    && Count(s'.removed, j) == Count(s.removed, j) + removed
    && Count(s'.lost, j) == Count(s.lost, j) + lost
    && Delivered(s', j) == Delivered(s, j) + reporting + finished
  }

  lemma AcceptMoves(s: State, t: nat, exit0: byte, j: Job)
    requires WF(s) && Enabled(s, Accept(t, exit0))
    ensures var s' := DoAccept(s, t, exit0);
            var born: int := One(s'.accepted[|s.accepted|] == j);
            Moved(s, s', j, born, born, 0, 0, 0, 0, 0)
  {
    hide Sum, Count;
    var s' := DoAccept(s, t, exit0);
    MoveThread(s.threads, t, s'.threads[t], j);
    assert s'.accepted[|s.accepted|] !in s.accepted;
  }

  lemma PutMoves(s: State, t: nat, w: set<nat>, j: Job)
    requires WF(s) && Enabled(s, Put(t, w)) && InRing(s, Put(t, w))
    ensures Moved(s, DoPut(s, t, w), j, 0, 0, 0, 0, 0, 0, 0)
  {
    hide Sum, Count, R.Put, R.Ring.Contents, Wake;
    var Putting(q, job, back, wait) := s.threads[t];
    var s' := DoPut(s, t, w);
    if s.queues[q].Len() == 15 {
      MoveThread(s.threads, t, s'.threads[t], j);
    } else {
      MoveWoken(s.threads, w, t, s'.threads[t], j);
      QueuePut(s.queues[q], job);
      CountPush(s.queues[q].Contents(), job, j);
      MoveQueue(s.queues, q, s'.queues[q], j);
    }
  }

  lemma GetMoves(s: State, t: nat, w: set<nat>, j: Job)
    requires WF(s) && Enabled(s, Get(t, w))
    ensures Moved(s, DoGet(s, t, w), j, 0, 0, 0, 0, 0, 0, 0)
  {
    hide Sum, Count, R.Get, R.Ring.Contents, Wake;
    var q := s.threads[t].q;
    var r := s.queues[q];
    var s' := DoGet(s, t, w);
    if r.Len() == 0 {
      MoveThread(s.threads, t, s'.threads[t], j);
    } else {
      MoveWoken(s.threads, w, t, s'.threads[t], j);
      QueueGet(r);
      CountHead(r.slots[r.getIdx % 15], R.Get(r).Contents(), j);
      MoveQueue(s.queues, q, s'.queues[q], j);
    }
  }

  lemma SendMoves(s: State, t: nat, k: nat, o: Outcome, j: Job)
    requires WF(s) && Enabled(s, SendJob(t, k, o))
    ensures var out: int := One(s.threads[t].job == j && k == |JobFrame(s.threads[t].job)|);
            Moved(s, DoSend(s, t, k, o), j, 0, -out, 0, out, 0, 0, 0)
  {
    hide Sum, Count, JobFrame, ReportsOf;
    var s' := DoSend(s, t, k, o);
    var c := s.conns[t];
    MoveThread(s.threads, t, s'.threads[t], j);
    MoveConn(s.conns, t, s'.conns[t], j);
    CountPush(c.sent, s.threads[t].job, j);
    CountPush(BatchJobs(c.inbox), s.threads[t].job, j);
    if k == |JobFrame(s.threads[t].job)| {
      assert BatchJobs(s'.conns[t].inbox) == BatchJobs(c.inbox) + [s.threads[t].job];
    }
  }

  lemma ReportMoves(s: State, t: nat, j: Job)
    requires WF(s) && Enabled(s, Report(t))
    ensures var b := s.conns[t].inbox[0];
            var done: int := One(b.job == j && |b.rest| == 1);
            Moved(s, DoReport(s, t), j, 0, 0, 0, -done, done, 0, 0)
  {
    hide Sum, Count;
    var s' := DoReport(s, t);
    var inbox := s.conns[t].inbox;
    MoveConn(s.conns, t, s'.conns[t], j);
    var js := BatchJobs(inbox);
    CountDelete(js, 0, j);
    CountPush(s.finished, inbox[0].job, j);
    if |inbox[0].rest| == 1 {
      assert BatchJobs(s'.conns[t].inbox) == R.DeleteAt(js, 0);
    } else {
      assert BatchJobs(s'.conns[t].inbox) == js;
    }
  }

  lemma RemoveMoves(s: State, t: nat, w: set<nat>, j: Job)
    requires WF(s) && Enabled(s, Remove(t, w)) && InRing(s, Remove(t, w))
    ensures var r, id := s.queues[s.threads[t].q], s.threads[t].id;
            var out: int := One(r.Len() > 0 && r.Contents()[R.Victim(r, id)] == j);
            var hit := One(out == 1 && Matches(r, id));
            Moved(s, DoRemove(s, t, w), j, 0, -out, hit, 0, 0, 0, out - hit)
  {
    hide Sum, Count, R.Victim, R.FirstWith, R.Remove, Matches, R.Ring.Contents, R.DeleteAt, Wake;
    var Removing(id, q) := s.threads[t];
    var r := s.queues[q];
    var s' := DoRemove(s, t, w);
    if r.Len() == 0 {
      MoveThread(s.threads, t, s'.threads[t], j);
    } else {
      var v := R.Victim(r, id);
      MoveWoken(s.threads, w, t, s'.threads[t], j);
      QueueRemove(r, id);
      MoveQueue(s.queues, q, s'.queues[q], j);
      CountDelete(r.Contents(), v, j);
      CountPush(s.lost, r.Contents()[v], j);
    }
  }

  lemma MarkMoves(s: State, t: nat, j: Job)
    requires WF(s) && Enabled(s, Mark(t))
    ensures var out: int := Removes(s.threads[t], j);
            Moved(s, DoMark(s, t), j, 0, 0, -out, 0, 0, out, 0)
  {
    hide Sum, Count;
    MoveThread(s.threads, t, DoMark(s, t).threads[t], j);
    if s.threads[t].gone.Some? {
      CountPush(s.removed, s.threads[t].gone.value, j);
    }
  }

  /** Steps that move no job at all. */
  predicate IsControl(step: Step) {
    step.TakeTicket? || step.GetTicket? || step.Spurious? || step.CheckFails? || step.Acked?
    || step.BackTicket? || step.BackMark? || step.BackFree? || step.Look? || step.Hangup?
  }

  /** Such a step changes one thread, which keeps its job, and one connection, which keeps its logs. */
  lemma ControlShape(s: State, step: Step)
    requires WF(s) && Enabled(s, step) && InRing(s, step) && IsControl(step)
    ensures var s', t := Apply(s, step), step.t;
            && |s'.threads| == |s.threads| && s'.threads == s.threads[t := s'.threads[t]]
            && |s'.conns| == |s.conns| && s'.conns == s.conns[t := s'.conns[t]]
            && s'.conns[t].sent == s.conns[t].sent && s'.conns[t].inbox == s.conns[t].inbox
            && s' == s.(threads := s'.threads, conns := s'.conns, hist := s'.hist, queue2put := s'.queue2put,
                        queue2get := s'.queue2get, freed := s'.freed)
  {
    hide H.Find;
  }

  lemma ControlCarries(s: State, step: Step, j: Job)
    requires WF(s) && Enabled(s, step) && InRing(s, step) && IsControl(step)
    ensures |Apply(s, step).threads| == |s.threads|
    ensures var pc, pc' := s.threads[step.t], Apply(s, step).threads[step.t];
            Carries(pc', j) == Carries(pc, j) && Removes(pc', j) == Removes(pc, j)
  {
    hide H.Find;
  }

  lemma ControlMoves(s: State, step: Step, j: Job)
    requires WF(s) && Enabled(s, step) && InRing(s, step) && IsControl(step)
    ensures Moved(s, Apply(s, step), j, 0, 0, 0, 0, 0, 0, 0)
  {
    hide Sum, Count, Apply, Carries, Removes;
    var s' := Apply(s, step);
    ControlShape(s, step);
    ControlCarries(s, step, j);
    MoveThread(s.threads, step.t, s'.threads[step.t], j);
    MoveConn(s.conns, step.t, s'.conns[step.t], j);
  }

  lemma ConnectMoves(s: State, j: Job)
    requires WF(s)
    ensures Moved(s, Apply(s, Connect), j, 0, 0, 0, 0, 0, 0, 0)
  {
    hide Sum;
    var s' := Apply(s, Connect);
    SumPush(CarriedBy(s.threads, j), 0);
    SumPush(RemovedBy(s.threads, j), 0);
    SumPush(ReportedOn(s.conns, j), 0);
    SumPush(SentOn(s.conns, j), 0);
    assert CarriedBy(s'.threads, j) == CarriedBy(s.threads, j) + [0];
    assert RemovedBy(s'.threads, j) == RemovedBy(s.threads, j) + [0];
    assert ReportedOn(s'.conns, j) == ReportedOn(s.conns, j) + [0];
    assert SentOn(s'.conns, j) == SentOn(s.conns, j) + [0];
  }

  // ---------------------------------------------------------------- conservation

  /** The job is in exactly one place if it was accepted and nowhere otherwise, and it was
      delivered as often as its reports are being read or have been read. */
  predicate Conserved(s: State, j: Job) {
    && Places(s, j) == One(j in s.accepted)
    && Delivered(s, j) == Reporting(s, j) + Count(s.finished, j)
  }

  lemma StepConserves(s: State, step: Step, j: Job)
    requires WF(s) && Enabled(s, step) && Sound(s, step) && Conserved(s, j)
    ensures Conserved(Apply(s, step), j)
  {
    hide Sum, Count, Waiting, Withdrawing, Reporting, Delivered;
    hide DoAccept, DoPut, DoGet, DoSend, DoReport, DoRemove, DoMark, DoBackMark, DoLook, DoCheck;
    match step
    case Connect => ConnectMoves(s, j);
    case Accept(t, exit0) => AcceptMoves(s, t, exit0, j);
    case Put(t, w) => PutMoves(s, t, w, j);
    case Get(t, w) => GetMoves(s, t, w, j);
    case SendJob(t, k, o) => SendMoves(s, t, k, o, j);
    case Report(t) => ReportMoves(s, t, j);
    case Remove(t, w) => RemoveMoves(s, t, w, j);
    case Mark(t) => MarkMoves(s, t, j);
    case _ => ControlMoves(s, step, j);
  }

  /** A put into a queue with room keeps every job in its one place exactly when it does not
      collide; a colliding put queues its job twice. */
  lemma PutConservesIff(s: State, t: nat, w: set<nat>)
    requires WF(s) && Enabled(s, Put(t, w)) && s.queues[s.threads[t].q].Len() < 15
    requires forall j :: Conserved(s, j)
    ensures (forall j :: Conserved(DoPut(s, t, w), j)) <==> !R.PutCollides(s.queues[s.threads[t].q])
  {
    var q, job := s.threads[t].q, s.threads[t].job;
    var s' := DoPut(s, t, w);
    if R.PutCollides(s.queues[q]) {
      var c := s'.queues[q].Contents();
      R.PutContents(s.queues[q], job);
      assert c[|c| - 2] == job && c[|c| - 1] == job;
      CountOnce(c, |c| - 2, |c| - 1);
      SumHas(QueuedIn(s'.queues, job), q);
      assert !Conserved(s', job);
    } else {
      forall j
        ensures Conserved(s', j)
      {
        StepConserves(s, Put(t, w), j);
      }
    }
  }

  lemma InitConserved(s: State, n: nat, j: Job)
    requires Init(s, n)
    ensures Conserved(s, j)
  {
    SumZero(QueuedIn(s.queues, j));
  }

  /** Job conservation: in every run and at every point of it, every accepted job is in
      exactly one place. */
  lemma {:induction false} JobsConserved(ss: seq<State>, steps: seq<Step>, n: nat, i: nat, j: Job)
    requires Run(ss, steps, n) && i < |ss|
    ensures WF(ss[i]) && Conserved(ss[i], j)
  {
    RunWF(ss, steps, n, i);
    if i == 0 {
      InitConserved(ss[0], n, j);
    } else {
      JobsConserved(ss, steps, n, i - 1, j);
      assert Next(ss[i - 1], steps[i - 1], ss[i]);
      StepConserves(ss[i - 1], steps[i - 1], j);
    }
  }

  // ---------------------------------------------------------------- at most once

  /** A job that is in one place was sent once. */
  lemma SentOnce(s: State, t: nat, a: nat, u: nat, b: nat)
    requires t < |s.conns| && a < |s.conns[t].sent| && u < |s.conns| && b < |s.conns[u].sent|
    requires s.conns[t].sent[a] == s.conns[u].sent[b] && Conserved(s, s.conns[t].sent[a])
    ensures t == u && a == b
  {
    var j := s.conns[t].sent[a];
    var ns := SentOn(s.conns, j);
    CountIn(s.conns[t].sent, j);
    CountIn(s.conns[u].sent, j);
    assert ns[t] > 0 && ns[u] > 0 && Sum(ns) <= 1;
    if t != u {
      SumHasTwo(ns, t, u);
    } else if a < b {
      CountOnce(s.conns[t].sent, a, b);
      SumHas(ns, t);
    } else if b < a {
      CountOnce(s.conns[t].sent, b, a);
      SumHas(ns, t);
    }
  }

  /** At-most-once delivery: over a whole run no job is written completely to two exec
      servers, nor twice to one. */
  lemma DeliveredAtMostOnce(ss: seq<State>, steps: seq<Step>, n: nat, i: nat, t: nat, a: nat, u: nat, b: nat)
    requires Run(ss, steps, n) && i < |ss|
    requires t < |ss[i].conns| && a < |ss[i].conns[t].sent|
    requires u < |ss[i].conns| && b < |ss[i].conns[u].sent|
    requires ss[i].conns[t].sent[a] == ss[i].conns[u].sent[b]
    ensures t == u && a == b
  {
    JobsConserved(ss, steps, n, i, ss[i].conns[t].sent[a]);
    SentOnce(ss[i], t, a, u, b);
  }
}
