/** The main server as a transition system: any number of handler threads, N queues, the
    job history, the round-robin tickets and the connections to exec servers. Every critical
    section of main_server.c is one step; threads interleave freely between steps. */
module Scheduler {
  import opened Words
  import opened Jobs
  import opened Codec
  import R = Ring
  import H = History
  import F = Framing
  import M = Monitor

  // ---------------------------------------------------------------- threads

  /** Whether a thread in putJob or sendJob has just come to the queue, is blocked in
      pthread_cond_wait, or was woken and has yet to take the mutex again. */
  datatype Wait = Fresh | Parked | Woken

  /** Where a handler thread is, with the locals that matter there. */
  datatype Pc =
    | Idle                                                   // waiting for the next message
    | Ticketed(q: nat, payload: Payload)                     // newJob, after queue2put++
    | Putting(q: nat, job: Job, back: bool, wait: Wait)      // putJob, from newJob or putJobBack
    | Getting(q: nat, wait: Wait)                            // sendJob, before it has a job
    | Holding(job: Job)                                      // sendJob, before checkServerStatus
    | Checked(job: Job)                                      // sendJob, after the ACK
    | Returning(job: Job)                                    // sendJob, about to call putJobBack
    | Marking(job: Job, q: nat)                              // putJobBack, after putJob
    | Freeing(job: Job)                                      // putJobBack, after it found no record
    | Removing(id: uint16, q: nat)                           // unsubmit, before removeJob
    | Withdrawn(id: uint16, gone: Option<Job>)               // unsubmit, after removeJob
    | Closed                                                 // the handler has ended

  /** How the child process of an exec server ends. */
  datatype Outcome = Exits(status: byte) | Dies(signal: byte) | ForkFails

  /** The messages an exec server sends about a job it was given, in terms of the numbers that
      travel: RUN is type 15 with state 1, an end type 14 with state 2, or 5 for the exit
      statuses 40 and 41, a signal type 16 with state 4. */
  function ReportsOf(id: uint16, o: Outcome): seq<Msg> {
    match o
    case Exits(e) => [Msg(15, StateBody(1, id, 0)), Msg(14, StateBody(if e == 40 || e == 41 then 5 else 2, id, e))]
    case Dies(g) => [Msg(15, StateBody(1, id, 0)), Msg(16, StateBody(4, id, g))]
    case ForkFails => [Msg(14, StateBody(5, id, 41))]
  }

  /** The reports about one delivered job that the handler has not read yet. `started` tells
      whether it has read the first of two. */
  datatype Batch = Batch(job: Job, started: bool, rest: seq<Msg>)

  /** A connection to an exec server. `wire` is what was written to it, `frames` the messages
      written completely, `sent` the jobs among them and `ends` how these ended, `inbox` the
      reports still to be read and `heard` those read. */
  datatype Conn = Conn(wire: Bytes, frames: seq<Bytes>, sent: seq<Job>, ends: seq<Outcome>,
                       inbox: seq<Batch>, heard: seq<Msg>)

  const NEW_CONN := Conn([], [], [], [], [], [])

  /** `accepted` lists every job that got an id, in order; the k-th has address k. The logs
      `finished`, `removed`, `lost` and `freed` say what became of jobs, and `verdicts` what the
      last report about a job said; the program does not keep them. */
  datatype State = State(
    queues: seq<R.Ring>,
    hist: H.History,
    queue2put: uint32,
    queue2get: uint32,
    threads: seq<Pc>,
    conns: seq<Conn>,
    accepted: seq<Job>,
    finished: seq<Job>,
    removed: seq<Job>,
    lost: seq<Job>,
    freed: seq<Job>,
    verdicts: map<Job, (H.JobState, byte)>)

  // ---------------------------------------------------------------- well-formed states

  predicate PcOk(pc: Pc, n: nat) {
    match pc
    case Ticketed(q, _) => q < n
    case Putting(q, _, _, _) => q < n
    case Getting(q, _) => q < n
    case Marking(_, q) => q < n
    case Removing(_, q) => q < n
    case _ => true
  }

  /** A queue is well-formed, its counters are not wrapped inside the occupied window, and
      its stored state is its occupancy. */
  predicate QueueOk(r: R.Ring) {
    r.Valid() && !r.Straddles() && r.FlagFaithful()
  }

  predicate QueuesOk(queues: seq<R.Ring>) {
    1 <= |queues| <= 256 && forall q :: 0 <= q < |queues| ==> QueueOk(queues[q])
  }

  predicate ThreadsOk(threads: seq<Pc>, n: nat) {
    forall t :: 0 <= t < |threads| ==> PcOk(threads[t], n)
  }

  predicate HistOk(hist: H.History, submitted: nat, n: nat) {
    && H.Agrees(hist, submitted)
    && forall i :: 0 <= i < 10 && hist.slots[i].Some? ==> hist.slots[i].value.queueIdx < n
  }

  predicate AcceptedOk(accepted: seq<Job>) {
    forall k :: 0 <= k < |accepted| ==> accepted[k].addr == k && accepted[k].id == H.IdOf(k)
  }

  predicate WF(s: State) {
    && QueuesOk(s.queues)
    && |s.conns| == |s.threads|
    && ThreadsOk(s.threads, |s.queues|)
    && HistOk(s.hist, |s.accepted|, |s.queues|)
    && AcceptedOk(s.accepted)
  }

  /** MainServerInit with `n` queues; the slots of a queue start with arbitrary contents. */
  ghost predicate Init(s: State, n: nat) {
    && 1 <= n <= 256 && |s.queues| == n
    && (forall q :: 0 <= q < n ==>
          |s.queues[q].slots| == 15 && s.queues[q].putIdx == s.queues[q].getIdx == 0 && !s.queues[q].full)
    && s == State(s.queues, H.EMPTY, 0, 0, [], [], [], [], [], [], [], map[])
  }

  // ---------------------------------------------------------------- waiting and waking

  function ParkedGet(threads: seq<Pc>, q: nat): set<nat> {
    set t | 0 <= t < |threads| && threads[t] == Getting(q, Parked)
  }

  function ParkedPut(threads: seq<Pc>, q: nat): set<nat> {
    set t | 0 <= t < |threads| && threads[t].Putting? && threads[t].q == q && threads[t].wait == Parked
  }

  function WakeUp(pc: Pc): Pc {
    match pc
    case Putting(q, job, back, _) => Putting(q, job, back, Woken)
    case Getting(q, _) => Getting(q, Woken)
    case _ => pc
  }

  function Wake(threads: seq<Pc>, w: set<nat>): (r: seq<Pc>)
    ensures |r| == |threads|
    ensures forall i :: 0 <= i < |r| ==> r[i] == if i in w then WakeUp(threads[i]) else threads[i]
  {
    seq(|threads|, i requires 0 <= i < |threads| => if i in w then WakeUp(threads[i]) else threads[i])
  }

  // ---------------------------------------------------------------- steps

  datatype Step =
    | Connect                                       // a client or an exec server connects
    | TakeTicket(t: nat, payload: Payload)          // newJob: queue2put++
    | Accept(t: nat, exit0: byte)                   // newJob: the history record
    | Put(t: nat, w: set<nat>)                      // putJob: one pass through the mutex
    | GetTicket(t: nat)                             // sendJob: queue2get++
    | Get(t: nat, w: set<nat>)                      // sendJob: one pass through the mutex
    | Spurious(t: nat)                              // a wait returns without a signal
    | CheckFails(t: nat, k: nat)                    // checkServerStatus returns 0
    | Acked(t: nat)                                 // checkServerStatus returns 1
    | SendJob(t: nat, k: nat, o: Outcome)           // sendMsg of the job; k bytes get out
    | BackTicket(t: nat)                            // putJobBack: queue2put++
    | BackMark(t: nat)                              // putJobBack: the history record
    | BackFree(t: nat)                              // putJobBack: free, if there was no record
    | Report(t: nat)                                // attendExecServ: changeStateJob
    | Look(t: nat, id: uint16)                      // unsubmit: the first look-up
    | Remove(t: nat, w: set<nat>)                   // unsubmit: removeJob
    | Mark(t: nat)                                  // unsubmit: the second look-up
    | Hangup(t: nat)                                // the peer closes

  function CheckFrame(): (b: Bytes)
    ensures F.IsFrame(b) && b == [0, 5, 0x80, 1, 11]
  {
    BareBytes();
    Encode(CheckExecServer())
  }

  function JobFrame(job: Job): (b: Bytes)
    ensures F.IsFrame(b) && b[4] in {9, 10}
  {
    Encode(JobMsg(job.id, job.payload))
  }

  /** What an exec server decodes from the message of a job describes the job. */
  lemma JobFrameTells(job: Job)
    ensures Decode(JobFrame(job)).Some? && Describes(Decode(JobFrame(job)).value, job.id, job.payload)
  {
    RoundTrip(JobMsg(job.id, job.payload));
  }

  predicate Enabled(s: State, step: Step) {
    match step
    case Connect => true
    case TakeTicket(t, _) => t < |s.threads| && s.threads[t] == Idle
    case Accept(t, _) => t < |s.threads| && s.threads[t].Ticketed?
    case Put(t, w) =>
      t < |s.threads| && s.threads[t].Putting? && s.threads[t].wait != Parked
      && M.Signal(ParkedGet(s.threads, s.threads[t].q), w)
    case GetTicket(t) => t < |s.threads| && s.threads[t] == Idle
    case Get(t, w) =>
      t < |s.threads| && s.threads[t].Getting? && s.threads[t].wait != Parked
      && M.Signal(ParkedPut(s.threads, s.threads[t].q), w)
    case Spurious(t) =>
      t < |s.threads| && (s.threads[t].Getting? || s.threads[t].Putting?) && s.threads[t].wait == Parked
    case CheckFails(t, k) => t < |s.threads| && s.threads[t].Holding? && k <= |CheckFrame()|
    case Acked(t) => t < |s.threads| && s.threads[t].Holding?
    case SendJob(t, k, _) => t < |s.threads| && s.threads[t].Checked? && k <= |JobFrame(s.threads[t].job)|
    case BackTicket(t) => t < |s.threads| && s.threads[t].Returning?
    case BackMark(t) => t < |s.threads| && s.threads[t].Marking?
    case BackFree(t) => t < |s.threads| && s.threads[t].Freeing?
    case Report(t) =>
      t < |s.threads| && s.threads[t] == Idle && t < |s.conns| && s.conns[t].inbox != []
      && s.conns[t].inbox[0].rest != []
    case Look(t, _) => t < |s.threads| && s.threads[t] == Idle
    case Remove(t, w) =>
      t < |s.threads| && s.threads[t].Removing? && M.Signal(ParkedPut(s.threads, s.threads[t].q), w)
    case Mark(t) => t < |s.threads| && s.threads[t].Withdrawn?
    case Hangup(t) => t < |s.threads| && s.threads[t] == Idle
  }

  /** The step stays inside the region where the ring behaves as a queue: a put does not
      follow a wrap of its counter with jobs queued, removeJob does not leave the array. */
  predicate InRing(s: State, step: Step)
    requires WF(s) && Enabled(s, step)
  {
    match step
    case Put(t, _) => var r := s.queues[s.threads[t].q]; r.Len() == 15 || !R.PutCollides(r)
    case Remove(t, _) => !R.RemoveFaults(s.queues[s.threads[t].q])
    case _ => true
  }

  /** The step uses memory as it should: putJobBack does not read a job that was freed since
      it was queued again, and frees none but one that removeJob has dropped; the last step of
      unsubmit finds a record to write. */
  predicate Safe(s: State, step: Step)
    requires WF(s) && Enabled(s, step)
  {
    match step
    case BackMark(t) => s.threads[t].job !in s.freed
    case BackFree(t) => s.threads[t].job !in s.freed && s.threads[t].job in s.lost
    case Mark(t) => !H.MarkFaults(s.hist, s.threads[t].id)
    case _ => true
  }

  /** The program has no defined behaviour after a step that is not safe or in which removeJob
      leaves its array, and the ring is no queue after a colliding put: runs stop before them. */
  predicate Sound(s: State, step: Step)
    requires WF(s) && Enabled(s, step)
  {
    InRing(s, step) && Safe(s, step)
  }

  /** Nothing but where a thread is restricts what may happen next: an idle handler may get any
      request, a blocked one may wake, a check may be answered or fail with any part of it
      sent, and any part of a job message may get out before the connection breaks. */
  lemma FreeChoices(s: State, t: nat, payload: Payload, id: uint16, k: nat, o: Outcome)
    requires t < |s.threads|
    ensures s.threads[t] == Idle ==>
            Enabled(s, TakeTicket(t, payload)) && Enabled(s, GetTicket(t)) && Enabled(s, Look(t, id)) && Enabled(s, Hangup(t))
    ensures (s.threads[t].Getting? || s.threads[t].Putting?) && s.threads[t].wait == Parked ==> Enabled(s, Spurious(t))
    ensures s.threads[t].Holding? ==> Enabled(s, Acked(t)) && (k <= 5 ==> Enabled(s, CheckFails(t, k)))
    ensures s.threads[t].Checked? && k <= |JobFrame(s.threads[t].job)| ==> Enabled(s, SendJob(t, k, o))
    ensures Enabled(s, Connect)
  {
  }

  // ---------------------------------------------------------------- what each step does

  function DoAccept(s: State, t: nat, exit0: byte): State
    requires WF(s) && Enabled(s, Accept(t, exit0))
  {
    var Ticketed(q, payload) := s.threads[t];
    var rec := H.NewRecord(s.hist, payload.ipaddr, q, exit0);
    var job := Job(|s.accepted|, rec.id, payload);
    s.(hist := H.Append(s.hist, rec),
       accepted := s.accepted + [job],
       threads := s.threads[t := Putting(q, job, false, Fresh)])
  }

  function DoPut(s: State, t: nat, w: set<nat>): State
    requires WF(s) && Enabled(s, Put(t, w))
  {
    var Putting(q, job, back, wait) := s.threads[t];
    if s.queues[q].Len() == 15 then
      s.(threads := s.threads[t := Putting(q, job, back, Parked)])
    else
      s.(queues := s.queues[q := R.Put(s.queues[q], job)],
         threads := Wake(s.threads, w)[t := if back then Marking(job, q) else Idle])
  }

  function DoGet(s: State, t: nat, w: set<nat>): State
    requires WF(s) && Enabled(s, Get(t, w))
  {
    var q := s.threads[t].q;
    if s.queues[q].Len() == 0 then
      s.(threads := s.threads[t := Getting(q, Parked)])
    else
      s.(queues := s.queues[q := R.Get(s.queues[q])],
         threads := Wake(s.threads, w)[t := Holding(s.queues[q].slots[s.queues[q].getIdx % 15])])
  }

  function DoCheck(s: State, t: nat, k: nat, acked: bool): State
    requires WF(s) && t < |s.threads| && s.threads[t].Holding? && k <= |CheckFrame()|
  {
    var c := s.conns[t];
    var frames := if k == |CheckFrame()| then c.frames + [CheckFrame()] else c.frames;
    s.(conns := s.conns[t := c.(wire := c.wire + CheckFrame()[..k], frames := frames)],
       threads := s.threads[t := if acked then Checked(s.threads[t].job) else Returning(s.threads[t].job)])
  }

  function DoSend(s: State, t: nat, k: nat, o: Outcome): State
    requires WF(s) && Enabled(s, SendJob(t, k, o))
  {
    var job := s.threads[t].job;
    var frame := JobFrame(job);
    var c := s.conns[t];
    if k < |frame| then
      s.(conns := s.conns[t := c.(wire := c.wire + frame[..k])],
         threads := s.threads[t := Returning(job)])
    else
      s.(conns := s.conns[t := Conn(c.wire + frame, c.frames + [frame], c.sent + [job], c.ends + [o],
                                    c.inbox + [Batch(job, false, ReportsOf(job.id, o))], c.heard)],
         threads := s.threads[t := Idle],
         freed := s.freed + [job])
  }

  function DoBackMark(s: State, t: nat): State
    requires WF(s) && Enabled(s, BackMark(t))
  {
    var Marking(job, q) := s.threads[t];
    s.(hist := H.SetQueue(s.hist, job.id, q),
       threads := s.threads[t := if H.Find(s.hist, job.id) < 0 then Freeing(job) else Closed])
  }

  /** The record state a Job_State message carries; None is the assert(0) of changeStateJob. */
  function StateOfByte(b: byte): Option<H.JobState> {
    if b == STATE_RUN then Some(H.Run)
    else if b == STATE_FINISHED then Some(H.Finished)
    else if b == STATE_SIGNALED then Some(H.Signaled)
    else if b == STATE_ERROR then Some(H.Error)
    else None
  }

  /** The state and the exit value that a report carries. */
  function ReportOf(m: Msg): Option<(H.JobState, byte)> {
    match m.body
    case StateBody(state, _, exit) =>
      (match StateOfByte(state)
       case Some(st) => Some((st, exit))
       case None => None)
    case _ => None
  }

  /** changeStateJob. */
  function ChangeState(h: H.History, m: Msg): H.History
    requires |h.slots| == 10
  {
    match m.body
    case StateBody(state, id, exit) =>
      (match StateOfByte(state)
       case Some(st) => H.SetState(h, id, st, exit)
       case None => h)
    case _ => h
  }

  function DoReport(s: State, t: nat): State
    requires WF(s) && Enabled(s, Report(t))
  {
    var c := s.conns[t];
    var b := c.inbox[0];
    var done := |b.rest| == 1;
    s.(hist := ChangeState(s.hist, b.rest[0]),
       conns := s.conns[t := c.(heard := c.heard + [b.rest[0]],
                                inbox := if done then c.inbox[1..]
                                         else [Batch(b.job, true, b.rest[1..])] + c.inbox[1..])],
       finished := if done then s.finished + [b.job] else s.finished,
       verdicts := if done && ReportOf(b.rest[0]).Some? then s.verdicts[b.job := ReportOf(b.rest[0]).value] else s.verdicts)
  }

  function DoLook(s: State, t: nat, id: uint16): State
    requires WF(s) && Enabled(s, Look(t, id))
  {
    var i := H.Find(s.hist, id);
    if i < 0 || s.hist.slots[i].value.state != H.Wait then s
    else s.(threads := s.threads[t := Removing(id, s.hist.slots[i].value.queueIdx)])
  }

  /** removeJob found the job it was asked for, so it frees it. */
  predicate Matches(r: R.Ring, id: uint16)
    requires r.Valid()
  {
    r.Len() > 0 && R.Unwrapped(r) && R.FirstWith(r.Contents(), id) < r.Len()
  }

  function DoRemove(s: State, t: nat, w: set<nat>): State
    requires WF(s) && Enabled(s, Remove(t, w)) && InRing(s, Remove(t, w))
  {
    var Removing(id, q) := s.threads[t];
    var r := s.queues[q];
    if r.Len() == 0 then
      s.(threads := s.threads[t := Withdrawn(id, None)])
    else
      var victim := r.Contents()[R.Victim(r, id)];
      var hit := Matches(r, id);
      s.(queues := s.queues[q := R.Remove(r, id)],
         threads := Wake(s.threads, w)[t := Withdrawn(id, if hit then Some(victim) else None)],
         lost := if hit then s.lost else s.lost + [victim],
         freed := if hit then s.freed + [victim] else s.freed)
  }

  function DoMark(s: State, t: nat): State
    requires WF(s) && Enabled(s, Mark(t))
  {
    var Withdrawn(id, gone) := s.threads[t];
    s.(hist := H.MarkUnsubmitted(s.hist, id),
       threads := s.threads[t := Idle],
       removed := if gone.Some? then s.removed + [gone.value] else s.removed)
  }

  function Apply(s: State, step: Step): State
    requires WF(s) && Enabled(s, step) && InRing(s, step)
  {
    match step
    case Connect => s.(threads := s.threads + [Idle], conns := s.conns + [NEW_CONN])
    case TakeTicket(t, payload) =>
      s.(queue2put := Inc32(s.queue2put),
         threads := s.threads[t := Ticketed(s.queue2put % |s.queues|, payload)])
    case Accept(t, exit0) => DoAccept(s, t, exit0)
    case Put(t, w) => DoPut(s, t, w)
    case GetTicket(t) =>
      s.(queue2get := Inc32(s.queue2get),
         threads := s.threads[t := Getting(s.queue2get % |s.queues|, Fresh)])
    case Get(t, w) => DoGet(s, t, w)
    case Spurious(t) => s.(threads := s.threads[t := WakeUp(s.threads[t])])
    case CheckFails(t, k) => DoCheck(s, t, k, false)
    case Acked(t) => DoCheck(s, t, |CheckFrame()|, true)
    case SendJob(t, k, o) => DoSend(s, t, k, o)
    case BackTicket(t) =>
      s.(queue2put := Inc32(s.queue2put),
         threads := s.threads[t := Putting(s.queue2put % |s.queues|, s.threads[t].job, true, Fresh)])
    case BackMark(t) => DoBackMark(s, t)
    case BackFree(t) => s.(threads := s.threads[t := Closed], freed := s.freed + [s.threads[t].job])
    case Report(t) => DoReport(s, t)
    case Look(t, id) => DoLook(s, t, id)
    case Remove(t, w) => DoRemove(s, t, w)
    case Mark(t) => DoMark(s, t)
    case Hangup(t) => s.(threads := s.threads[t := Closed])
  }

  // ---------------------------------------------------------------- structure is kept

  lemma InitWF(s: State, n: nat)
    requires Init(s, n)
    ensures WF(s)
  {
  }

  lemma QueuePut(r: R.Ring, job: Job)
    requires QueueOk(r) && r.Len() < 15 && !R.PutCollides(r)
    ensures QueueOk(R.Put(r, job)) && R.Put(r, job).Contents() == r.Contents() + [job]
  {
    R.PutContents(r, job);
  }

  lemma QueueGet(r: R.Ring)
    requires QueueOk(r) && r.Len() > 0
    ensures QueueOk(R.Get(r)) && r.Contents() == [r.slots[r.getIdx % 15]] + R.Get(r).Contents()
  {
    R.GetContents(r);
  }

  lemma QueueRemove(r: R.Ring, id: uint16)
    requires QueueOk(r) && r.Len() > 0 && !R.RemoveFaults(r)
    ensures QueueOk(R.Remove(r, id))
    ensures R.Remove(r, id).Contents() == R.DeleteAt(r.Contents(), R.Victim(r, id))
  {
    R.RemoveContents(r, id);
  }

  lemma AcceptWF(s: State, t: nat, exit0: byte)
    requires WF(s) && Enabled(s, Accept(t, exit0))
    ensures WF(DoAccept(s, t, exit0))
  {
    var Ticketed(q, payload) := s.threads[t];
    H.AppendAgrees(s.hist, |s.accepted|, payload.ipaddr, q, exit0);
  }

  lemma PutWF(s: State, t: nat, w: set<nat>)
    requires WF(s) && Enabled(s, Put(t, w)) && InRing(s, Put(t, w))
    ensures WF(DoPut(s, t, w))
  {
    var r := s.queues[s.threads[t].q];
    if r.Len() < 15 {
      QueuePut(r, s.threads[t].job);
    }
  }

  lemma GetWF(s: State, t: nat, w: set<nat>)
    requires WF(s) && Enabled(s, Get(t, w))
    ensures WF(DoGet(s, t, w))
  {
    var r := s.queues[s.threads[t].q];
    if r.Len() > 0 {
      QueueGet(r);
    }
  }

  lemma RemoveWF(s: State, t: nat, w: set<nat>)
    requires WF(s) && Enabled(s, Remove(t, w)) && InRing(s, Remove(t, w))
    ensures WF(DoRemove(s, t, w))
  {
    hide R.Remove, R.Victim, R.FirstWith, R.Unwrapped, R.Ring.Contents, R.DeleteAt, Wake, Matches;
    var r := s.queues[s.threads[t].q];
    if r.Len() > 0 {
      QueueRemove(r, s.threads[t].id);
    }
  }

  lemma MarksWF(s: State, t: nat)
    requires WF(s)
    ensures Enabled(s, BackMark(t)) ==> WF(DoBackMark(s, t))
    ensures Enabled(s, Mark(t)) ==> WF(DoMark(s, t))
  {
    if Enabled(s, BackMark(t)) {
      H.UpdatesAgree(s.hist, |s.accepted|, s.threads[t].job.id, H.Wait, 0, s.threads[t].q);
    } else if Enabled(s, Mark(t)) {
      H.UpdatesAgree(s.hist, |s.accepted|, s.threads[t].id, H.Wait, 0, 0);
    }
  }

  lemma StepWF(s: State, step: Step)
    requires WF(s) && Enabled(s, step) && InRing(s, step)
    ensures WF(Apply(s, step)) && |Apply(s, step).queues| == |s.queues|
  {
    match step
    case Accept(t, exit0) => AcceptWF(s, t, exit0);
    case Put(t, w) => PutWF(s, t, w);
    case Get(t, w) => GetWF(s, t, w);
    case Remove(t, w) => RemoveWF(s, t, w);
    case BackMark(t) => MarksWF(s, t);
    case Mark(t) => MarksWF(s, t);
    case Report(t) => ReportWF(s, t);
    case Connect =>
    case _ => ControlWF(s, step);
  }

  /** Steps that only move one thread and its connection. */
  lemma ControlWF(s: State, step: Step)
    requires WF(s) && Enabled(s, step) && InRing(s, step)
    requires step.TakeTicket? || step.GetTicket? || step.Spurious? || step.CheckFails? || step.Acked?
          || step.SendJob? || step.BackTicket? || step.BackFree? || step.Look? || step.Hangup?
    ensures WF(Apply(s, step)) && Apply(s, step).queues == s.queues
  {
    var s' := Apply(s, step);
    assert s'.hist == s.hist && s'.accepted == s.accepted;
    assert |s'.threads| == |s.threads| && forall u :: 0 <= u < |s.threads| && u != step.t ==> s'.threads[u] == s.threads[u];
    assert PcOk(s'.threads[step.t], |s.queues|);
  }

  lemma ReportWF(s: State, t: nat)
    requires WF(s) && Enabled(s, Report(t))
    ensures WF(DoReport(s, t))
  {
    var m := s.conns[t].inbox[0].rest[0];
    if m.body.StateBody? && StateOfByte(m.body.state).Some? {
      H.UpdatesAgree(s.hist, |s.accepted|, m.body.id, StateOfByte(m.body.state).value, m.body.exit, 0);
    }
  }

  /** What a step leaves of the threads and connections it is not about. */
  lemma Others(s: State, step: Step)
    requires WF(s) && Enabled(s, step) && InRing(s, step) && !step.Connect?
    ensures var s' := Apply(s, step);
            |s'.threads| == |s.threads| && |s'.conns| == |s.conns|
            && (forall u :: 0 <= u < |s.threads| && u != step.t ==>
                  s'.threads[u] == s.threads[u] || s'.threads[u] == WakeUp(s.threads[u]))
            && forall u :: 0 <= u < |s.conns| && u != step.t ==> s'.conns[u] == s.conns[u]
  {
  }

  // ---------------------------------------------------------------- runs

  ghost predicate Next(s: State, step: Step, s': State) {
    WF(s) && Enabled(s, step) && Sound(s, step) && s' == Apply(s, step)
  }

  /** `ss` is a run of a main server with `n` queues. */
  ghost predicate Run(ss: seq<State>, steps: seq<Step>, n: nat) {
    && |ss| == |steps| + 1
    && Init(ss[0], n)
    && forall i :: 0 <= i < |steps| ==> Next(ss[i], steps[i], ss[i + 1])
  }

  lemma {:induction false} RunWF(ss: seq<State>, steps: seq<Step>, n: nat, i: nat)
    requires Run(ss, steps, n) && i < |ss|
    ensures WF(ss[i]) && |ss[i].queues| == n
  {
    if i == 0 {
      InitWF(ss[0], n);
    } else {
      RunWF(ss, steps, n, i - 1);
      assert Next(ss[i - 1], steps[i - 1], ss[i]);
      StepWF(ss[i - 1], steps[i - 1]);
    }
  }

  // ---------------------------------------------------------------- answers to clients

  /** The message queueState sends for a queue: its state, or bad parameters. */
  function QueueAnswer(s: State, q: byte): (m: Msg)
    ensures WellFormed(m)
  {
    if q >= |s.queues| then BadParams()
    else QueueStateResp(if s.queues[q].full then STATE_FULL else STATE_AVAIL, q)
  }

  /** In every run a queue is reported full exactly when it holds fifteen jobs. */
  lemma QueueAnswerIsOccupancy(ss: seq<State>, steps: seq<Step>, n: nat, i: nat, q: byte)
    requires Run(ss, steps, n) && i < |ss|
    ensures WF(ss[i]) && |ss[i].queues| == n
    ensures Encode(QueueAnswer(ss[i], q)) ==
            if q >= n then [0, 5, 0x80, 1, 19]
            else [0, 7, 0x80, 1, 6, if |ss[i].queues[q].Contents()| == 15 then 1 else 0, q]
  {
    RunWF(ss, steps, n, i);
    BareBytes();
    ClientBytes(if q < n && |ss[i].queues[q].Contents()| == 15 then 1 else 0, 0, 0, q);
    hide Encode;
  }

  /** The byte for a state in a Job_State. */
  function StateByte(st: H.JobState): byte {
    match st
    case Wait => STATE_WAIT
    case Run => STATE_RUN
    case Finished => STATE_FINISHED
    case Unsubmitted => STATE_UNSUBMITED
    case Signaled => STATE_SIGNALED
    case Error => STATE_ERROR
  }

  /** The message jobState sends for an id: state and exit status, or bad parameters. */
  function JobAnswer(s: State, id: uint16): (m: Msg)
    requires |s.hist.slots| == 10
    ensures WellFormed(m)
  {
    var i := H.Find(s.hist, id);
    if i < 0 then BadParams()
    else
      var rec := s.hist.slots[i].value;
      JobStateResp(StateByte(rec.state), id, rec.exitStatus)
  }
}
