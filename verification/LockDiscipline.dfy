/** The lock structure of the handlers of main_server.c. Every handler operation is a small
    program of lock, unlock, condition wait, socket call and other work. A static check of
    each program gives, for any number of threads running checked programs, that a thread
    owns at most one mutex, that whoever waits for a mutex waits for a thread that runs, and
    that no two threads are at the same shared data. */
module LockDiscipline {
  import opened Words

  /** main_server_mtx, job_hist_mtx, and the mutex of each queue. */
  datatype Mutex = MainMtx | HistMtx | QueueMtx(q: nat)

  /** The data that handlers share: the two tickets and the queue pointers, the job history, and
      the counters, state and slots of each queue. Everything else is a handler's own. */
  datatype Data = TicketData | JobTable | QueueData(q: nat) | Private

  /** The mutex that guards the data. */
  function Guard(d: Data): Option<Mutex> {
    match d
    case TicketData => Some(MainMtx)
    case JobTable => Some(HistMtx)
    case QueueData(q) => Some(QueueMtx(q))
    case Private => None
  }

  /** Instructions go on to the next one, except for the two-way jump and the end. Work and
      tests name the data they touch. */
  datatype Instr =
    | Lock(m: Mutex)
    | Unlock(m: Mutex)
    | Wait(m: Mutex)                 // pthread_cond_wait with this mutex
    | Socket                         // a send, recv or select
    | Work(d: Data)                  // anything else
    | Jump(d: Data, a: nat, b: nat)  // an if or a loop test
    | Halt

  type Program = seq<Instr>

  // ---------------------------------------------------------------- the static check

  /** `held[pc]` is the mutex held before the instruction at `pc`. */
  predicate Checked(p: Program, held: seq<Option<Mutex>>) {
    && |p| == |held| && |p| > 0 && held[0] == None
    && forall pc :: 0 <= pc < |p| ==> CheckedAt(p, held, pc)
  }

  predicate CheckedAt(p: Program, held: seq<Option<Mutex>>, pc: nat)
    requires |p| == |held| && pc < |p|
  {
    match p[pc]
    case Lock(m) => held[pc] == None && pc + 1 < |p| && held[pc + 1] == Some(m)
    case Unlock(m) => held[pc] == Some(m) && pc + 1 < |p| && held[pc + 1] == None
    case Wait(m) => held[pc] == Some(m) && m.QueueMtx? && pc + 1 < |p| && held[pc + 1] == Some(m)
    case Socket => held[pc] == None && pc + 1 < |p| && held[pc + 1] == None
    case Work(d) => pc + 1 < |p| && held[pc + 1] == held[pc] && (d != Private ==> held[pc] == Guard(d))
    case Jump(d, a, b) =>
      a < |p| && b < |p| && held[a] == held[pc] && held[b] == held[pc] && (d != Private ==> held[pc] == Guard(d))
    case Halt => held[pc] == None
  }

  // ---------------------------------------------------------------- threads

  /** A thread in a program; `asleep` while it is blocked inside pthread_cond_wait. */
  datatype Thread = Thread(prog: Program, held: seq<Option<Mutex>>, pc: nat, asleep: bool)

  datatype State = State(threads: seq<Thread>, owner: map<Mutex, nat>)

  predicate ThreadOk(th: Thread) {
    Checked(th.prog, th.held) && th.pc < |th.prog| && (th.asleep ==> th.prog[th.pc].Wait?)
  }

  /** What the check says a thread holds. */
  function Holds(th: Thread): Option<Mutex>
    requires ThreadOk(th)
  {
    if th.asleep then None else th.held[th.pc]
  }

  /** The mutex a thread needs for its next step. */
  function Needs(th: Thread): Option<Mutex>
    requires ThreadOk(th)
  {
    if th.asleep then Some(th.prog[th.pc].m)
    else if th.prog[th.pc].Lock? then Some(th.prog[th.pc].m)
    else None
  }

  /** Ownership is what the check says, for all threads. */
  ghost predicate Inv(s: State) {
    && (forall t :: 0 <= t < |s.threads| ==> ThreadOk(s.threads[t]))
    && (forall t, m :: 0 <= t < |s.threads| ==>
          (Holds(s.threads[t]) == Some(m) <==> (m in s.owner && s.owner[m] == t)))
    && (forall m :: m in s.owner ==> s.owner[m] < |s.threads|)
  }

  datatype Step = Spawn(prog: Program, held: seq<Option<Mutex>>) | Restart(t: nat, prog: Program, held: seq<Option<Mutex>>)
                | Run(t: nat, left: bool)

  predicate Enabled(s: State, step: Step) {
    match step
    case Spawn(p, held) => Checked(p, held)
    case Restart(t, p, held) =>
      t < |s.threads| && ThreadOk(s.threads[t]) && s.threads[t].prog[s.threads[t].pc].Halt? && Checked(p, held)
    case Run(t, _) =>
      t < |s.threads| && ThreadOk(s.threads[t]) && !s.threads[t].prog[s.threads[t].pc].Halt?
      && (Needs(s.threads[t]).Some? ==> Needs(s.threads[t]).value !in s.owner)
  }

  /** One instruction. Unlock and Wait give the mutex back without asking whose it is. */
  function RunOne(s: State, t: nat, left: bool): State
    requires Enabled(s, Run(t, left))
  {
    var th := s.threads[t];
    var next := th.(pc := th.pc + 1);
    match th.prog[th.pc]
    case Lock(m) => State(s.threads[t := next], s.owner[m := t])
    case Unlock(m) => State(s.threads[t := next], s.owner - {m})
    case Wait(m) =>
      if th.asleep then State(s.threads[t := next.(asleep := false)], s.owner[m := t])
      else State(s.threads[t := th.(asleep := true)], s.owner - {m})
    case Socket => s.(threads := s.threads[t := next])
    case Work(_) => s.(threads := s.threads[t := next])
    case Jump(_, a, b) => s.(threads := s.threads[t := th.(pc := if left then a else b)])
    case Halt => s
  }

  function Apply(s: State, step: Step): State
    requires Enabled(s, step)
  {
    match step
    case Spawn(p, held) => s.(threads := s.threads + [Thread(p, held, 0, false)])
    case Restart(t, p, held) => s.(threads := s.threads[t := Thread(p, held, 0, false)])
    case Run(t, left) => RunOne(s, t, left)
  }

  lemma RunKeeps(s: State, t: nat, left: bool)
    requires Inv(s) && Enabled(s, Run(t, left))
    ensures Inv(RunOne(s, t, left))
  {
    var s' := RunOne(s, t, left);
    var th := s.threads[t];
    assert CheckedAt(th.prog, th.held, th.pc);
    assert ThreadOk(s'.threads[t]);
    forall u, m | 0 <= u < |s'.threads|
      ensures Holds(s'.threads[u]) == Some(m) <==> (m in s'.owner && s'.owner[m] == u)
    {
      assert u != t ==> s'.threads[u] == s.threads[u];
      assert Holds(s.threads[u]) == Some(m) <==> (m in s.owner && s.owner[m] == u);
    }
  }

  lemma StepKeeps(s: State, step: Step)
    requires Inv(s) && Enabled(s, step)
    ensures Inv(Apply(s, step))
  {
    match step
    case Spawn(p, held) =>
      forall m ensures !(m in s.owner && s.owner[m] == |s.threads|) { }
    case Restart(t, p, held) => assert CheckedAt(s.threads[t].prog, s.threads[t].held, s.threads[t].pc);
    case Run(t, left) => RunKeeps(s, t, left);
  }

  ghost predicate Runs(ss: seq<State>, steps: seq<Step>) {
    && |ss| == |steps| + 1 && ss[0] == State([], map[])
    && forall i :: 0 <= i < |steps| ==> Enabled(ss[i], steps[i]) && ss[i + 1] == Apply(ss[i], steps[i])
  }

  lemma {:induction false} RunsKeep(ss: seq<State>, steps: seq<Step>, i: nat)
    requires Runs(ss, steps) && i < |ss|
    ensures Inv(ss[i])
  {
    if i > 0 {
      RunsKeep(ss, steps, i - 1);
      StepKeeps(ss[i - 1], steps[i - 1]);
    }
  }

  // ---------------------------------------------------------------- what it gives

  /** No thread ever owns two mutexes, every unlock and every condition wait releases a
      mutex the thread owns, and socket calls and ended operations own none. */
  lemma OneMutexAtMost(ss: seq<State>, steps: seq<Step>, i: nat, t: nat, m: Mutex, m': Mutex)
    requires Runs(ss, steps) && i < |ss| && t < |ss[i].threads|
    ensures m in ss[i].owner && m' in ss[i].owner && ss[i].owner[m] == ss[i].owner[m'] ==> m == m'
    ensures ThreadOk(ss[i].threads[t])
    ensures var th := ss[i].threads[t]; var ins := th.prog[th.pc];
            && ((ins.Unlock? || ins.Wait?) && !th.asleep ==> ins.m in ss[i].owner && ss[i].owner[ins.m] == t)
            && (ins.Socket? || ins.Halt? ==> m !in ss[i].owner || ss[i].owner[m] != t)
  {
    RunsKeep(ss, steps, i);
    var s := ss[i];
    var th := s.threads[t];
    assert CheckedAt(th.prog, th.held, th.pc);
    if m in s.owner && m' in s.owner && s.owner[m] == s.owner[m'] {
      var u := s.owner[m];
      assert Holds(s.threads[u]) == Some(m) && Holds(s.threads[u]) == Some(m');
    }
  }

  /** No deadlock on mutexes: a thread that cannot run its next instruction waits for a mutex
      whose owner can run, and that owner is not itself in a socket call. */
  lemma OwnersRun(ss: seq<State>, steps: seq<Step>, i: nat, t: nat)
    requires Runs(ss, steps) && i < |ss| && t < |ss[i].threads|
    requires ThreadOk(ss[i].threads[t]) && !ss[i].threads[t].prog[ss[i].threads[t].pc].Halt?
    requires !Enabled(ss[i], Run(t, true))
    ensures var s := ss[i];
            && Needs(s.threads[t]).Some? && Needs(s.threads[t]).value in s.owner
            && var u := s.owner[Needs(s.threads[t]).value];
               u < |s.threads| && Enabled(s, Run(u, true)) && !s.threads[u].prog[s.threads[u].pc].Socket?
  {
    RunsKeep(ss, steps, i);
    var s := ss[i];
    var m := Needs(s.threads[t]).value;
    var u := s.owner[m];
    var th := s.threads[u];
    assert Holds(th) == Some(m);
    assert CheckedAt(th.prog, th.held, th.pc);
  }

  /** The shared data that the next instruction of a thread touches. */
  function Touches(th: Thread): Data
    requires ThreadOk(th)
  {
    match th.prog[th.pc]
    case Work(d) => d
    case Jump(d, _, _) => d
    case _ => Private
  }

  /** No data race: no two threads are ever about to touch the same shared data. */
  lemma NoDataRace(ss: seq<State>, steps: seq<Step>, i: nat, t: nat, u: nat)
    requires Runs(ss, steps) && i < |ss| && t < |ss[i].threads| && u < |ss[i].threads| && t != u
    ensures ThreadOk(ss[i].threads[t]) && ThreadOk(ss[i].threads[u])
    ensures Touches(ss[i].threads[t]) == Private || Touches(ss[i].threads[t]) != Touches(ss[i].threads[u])
  {
    RunsKeep(ss, steps, i);
    TouchIsHeld(ss[i].threads[t]);
    TouchIsHeld(ss[i].threads[u]);
  }

  lemma TouchIsHeld(th: Thread)
    requires ThreadOk(th)
    ensures Touches(th) != Private ==> Holds(th) == Guard(Touches(th)) && Holds(th).Some?
  {
    assert CheckedAt(th.prog, th.held, th.pc);
  }

  // ---------------------------------------------------------------- the programs

  /** newJob, with putJob into queue `q`. */
  function NewJob(q: nat): Program {
    var mx, data := QueueMtx(q), QueueData(q);
    [ Lock(MainMtx), Work(TicketData), Unlock(MainMtx),
      Lock(HistMtx), Jump(JobTable, 5, 6), Work(JobTable), Work(JobTable), Unlock(HistMtx),
      Socket,
      Lock(mx), Jump(data, 11, 13), Wait(mx), Jump(Private, 10, 10), Work(data), Unlock(mx),
      Halt ]
  }

  function NewJobHeld(q: nat): seq<Option<Mutex>> {
    var mx := Some(QueueMtx(q));
    [ None, Some(MainMtx), Some(MainMtx),
      None, Some(HistMtx), Some(HistMtx), Some(HistMtx), Some(HistMtx),
      None,
      None, mx, mx, mx, mx, mx,
      None ]
  }

  /** sendJob from queue `q`, with putJobBack into queue `p`. */
  function SendJob(q: nat, p: nat): Program {
    var mx, bx, from, to := QueueMtx(q), QueueMtx(p), QueueData(q), QueueData(p);
    [ Lock(MainMtx), Work(TicketData), Unlock(MainMtx),
      Lock(mx), Jump(from, 5, 7), Wait(mx), Jump(Private, 4, 4), Work(from), Unlock(mx),
      Socket, Jump(Private, 11, 15),                                       // checkServerStatus
      Socket, Jump(Private, 13, 15), Work(Private), Halt,                      // the job message
      Lock(MainMtx), Work(TicketData), Unlock(MainMtx),                   // putJobBack
      Lock(bx), Jump(to, 20, 22), Wait(bx), Jump(Private, 19, 19), Work(to), Unlock(bx),
      Lock(HistMtx), Jump(JobTable, 26, 29), Unlock(HistMtx), Work(Private), Halt,
      Work(JobTable), Unlock(HistMtx), Halt ]
  }

  function SendJobHeld(q: nat, p: nat): seq<Option<Mutex>> {
    var mx, bx := Some(QueueMtx(q)), Some(QueueMtx(p));
    [ None, Some(MainMtx), Some(MainMtx),
      None, mx, mx, mx, mx, mx,
      None, None,
      None, None, None, None,
      None, Some(MainMtx), Some(MainMtx),
      None, bx, bx, bx, bx, bx,
      None, Some(HistMtx), Some(HistMtx), None, None,
      Some(HistMtx), Some(HistMtx), None ]
  }

  /** unsubmit, with removeJob on queue `q`. */
  function Unsubmit(q: nat): Program {
    var mx, data := QueueMtx(q), QueueData(q);
    [ Lock(HistMtx), Jump(JobTable, 2, 5), Unlock(HistMtx), Socket, Halt,
      Work(JobTable), Unlock(HistMtx),
      Lock(MainMtx), Work(TicketData), Unlock(MainMtx),
      Lock(mx), Jump(data, 12, 13), Work(data), Unlock(mx),
      Lock(HistMtx), Work(JobTable), Unlock(HistMtx),
      Socket, Halt ]
  }

  function UnsubmitHeld(q: nat): seq<Option<Mutex>> {
    var mx := Some(QueueMtx(q));
    [ None, Some(HistMtx), Some(HistMtx), None, None,
      Some(HistMtx), Some(HistMtx),
      None, Some(MainMtx), Some(MainMtx),
      None, mx, mx, mx,
      None, Some(HistMtx), Some(HistMtx),
      None, None ]
  }

  /** jobState. */
  function JobState(): Program {
    [ Lock(HistMtx), Jump(JobTable, 2, 4), Unlock(HistMtx), Jump(Private, 6, 6), Work(JobTable), Unlock(HistMtx), Socket, Halt ]
  }

  function JobStateHeld(): seq<Option<Mutex>> {
    var h := Some(HistMtx);
    [ None, h, h, None, h, h, None, None ]
  }

  /** queueState of queue `q`. */
  function QueueState(q: nat): Program {
    var mx := QueueMtx(q);
    [ Jump(Private, 4, 1), Lock(mx), Work(QueueData(q)), Unlock(mx), Socket, Halt ]
  }

  function QueueStateHeld(q: nat): seq<Option<Mutex>> {
    var mx := Some(QueueMtx(q));
    [ None, None, mx, mx, None, None ]
  }

  /** changeStateJob. */
  function ChangeState(): Program {
    [ Lock(HistMtx), Jump(JobTable, 2, 3), Work(JobTable), Unlock(HistMtx), Halt ]
  }

  function ChangeStateHeld(): seq<Option<Mutex>> {
    var h := Some(HistMtx);
    [ None, h, h, h, None ]
  }

  /** The program takes exactly these mutexes, at these places of its text. */
  predicate TakesAt(p: Program, ms: seq<Mutex>, at: seq<nat>) {
    && |at| == |ms| && (forall i :: 0 <= i < |at| ==> at[i] < |p| && p[at[i]] == Lock(ms[i]))
    && (forall pc :: 0 <= pc < |p| && p[pc].Lock? ==> pc in at)
  }

  /** The program works on the data. */
  predicate WorksOn(p: Program, d: Data) {
    exists pc :: 0 <= pc < |p| && p[pc] == Work(d)
  }

  /** newJob draws a ticket, then adds a record, then queues the job, each under its own mutex. */
  lemma NewJobChecked(q: nat)
    ensures Checked(NewJob(q), NewJobHeld(q))
    ensures TakesAt(NewJob(q), [MainMtx, HistMtx, QueueMtx(q)], [0, 3, 9])
    ensures WorksOn(NewJob(q), TicketData) && WorksOn(NewJob(q), JobTable) && WorksOn(NewJob(q), QueueData(q))
  {
    assert NewJob(q)[1] == Work(TicketData) && NewJob(q)[5] == Work(JobTable) && NewJob(q)[13] == Work(QueueData(q));
  }

  /** sendJob draws a ticket and takes a job; putJobBack draws another, queues the job again and
      changes the record. */
  lemma SendJobChecked(q: nat, p: nat)
    ensures Checked(SendJob(q, p), SendJobHeld(q, p))
    ensures TakesAt(SendJob(q, p), [MainMtx, QueueMtx(q), MainMtx, QueueMtx(p), HistMtx], [0, 3, 15, 18, 24])
    ensures WorksOn(SendJob(q, p), TicketData) && WorksOn(SendJob(q, p), JobTable)
    ensures WorksOn(SendJob(q, p), QueueData(q)) && WorksOn(SendJob(q, p), QueueData(p))
  {
    SendJobTakesAt(q, p);
    SendJobSizes(q, p);
    hide SendJob, SendJobHeld, CheckedAt;
    forall pc | 0 <= pc < 32
      ensures CheckedAt(SendJob(q, p), SendJobHeld(q, p), pc)
    {
      if pc < 4 {
        SendJobDraws(q, p, pc);
      } else if pc < 9 {
        SendJobTakes(q, p, pc);
      } else if pc < 18 {
        SendJobSends(q, p, pc);
      } else if pc < 24 {
        SendJobQueues(q, p, pc);
      } else {
        SendJobMarks(q, p, pc);
      }
    }
  }

  lemma SendJobTakesAt(q: nat, p: nat)
    ensures TakesAt(SendJob(q, p), [MainMtx, QueueMtx(q), MainMtx, QueueMtx(p), HistMtx], [0, 3, 15, 18, 24])
    ensures WorksOn(SendJob(q, p), TicketData) && WorksOn(SendJob(q, p), JobTable)
    ensures WorksOn(SendJob(q, p), QueueData(q)) && WorksOn(SendJob(q, p), QueueData(p))
  {
    var prog := SendJob(q, p);
    assert prog[1] == Work(TicketData) && prog[7] == Work(QueueData(q)) && prog[22] == Work(QueueData(p)) && prog[29] == Work(JobTable);
  }

  lemma SendJobSizes(q: nat, p: nat)
    ensures |SendJob(q, p)| == |SendJobHeld(q, p)| == 32 && SendJobHeld(q, p)[0] == None
  {
  }

  lemma SendJobDraws(q: nat, p: nat, pc: nat)
    requires pc < 4
    ensures CheckedAt(SendJob(q, p), SendJobHeld(q, p), pc)
  {
  }

  lemma SendJobTakes(q: nat, p: nat, pc: nat)
    requires 4 <= pc < 9
    ensures CheckedAt(SendJob(q, p), SendJobHeld(q, p), pc)
  {
  }

  lemma SendJobSends(q: nat, p: nat, pc: nat)
    requires 9 <= pc < 18
    ensures CheckedAt(SendJob(q, p), SendJobHeld(q, p), pc)
  {
  }

  lemma SendJobQueues(q: nat, p: nat, pc: nat)
    requires 18 <= pc < 24
    ensures CheckedAt(SendJob(q, p), SendJobHeld(q, p), pc)
  {
  }

  lemma SendJobMarks(q: nat, p: nat, pc: nat)
    requires 24 <= pc < 32
    ensures CheckedAt(SendJob(q, p), SendJobHeld(q, p), pc)
  {
  }

  /** unsubmit looks the record up, takes the job out of the queue, and marks the record. */
  lemma UnsubmitChecked(q: nat)
    ensures Checked(Unsubmit(q), UnsubmitHeld(q))
    ensures TakesAt(Unsubmit(q), [HistMtx, MainMtx, QueueMtx(q), HistMtx], [0, 7, 10, 14])
    ensures Unsubmit(q)[5] == Work(JobTable) && Unsubmit(q)[12] == Work(QueueData(q)) && Unsubmit(q)[15] == Work(JobTable)
  {
  }

  lemma QueriesChecked(q: nat)
    ensures Checked(JobState(), JobStateHeld())
    ensures Checked(QueueState(q), QueueStateHeld(q))
    ensures Checked(ChangeState(), ChangeStateHeld())
    ensures WorksOn(JobState(), JobTable) && WorksOn(QueueState(q), QueueData(q)) && WorksOn(ChangeState(), JobTable)
  {
    assert JobState()[4] == Work(JobTable) && QueueState(q)[2] == Work(QueueData(q)) && ChangeState()[2] == Work(JobTable);
  }
}
