/** One exec-server connection: the handler loop of the main server (attendExecServ, sendJob,
    checkServerStatus) and the exec server (jobRequest, exec_server_protocol, ackRoutine,
    execJob, fatherJobRoutine) over two first-in-first-out channels. */
module Session {
  import opened Words
  import opened Jobs
  import opened Codec
  import Scheduler

  /** Where the handler is. `FailedType` is its bad-type branch, in the loop or in the wait
      for the ACK. */
  datatype MainPc =
    | Listening
    | WantsJob
    | Probing(id: uint16, payload: Payload)
    | AwaitsAck(id: uint16, payload: Payload)
    | Sending(id: uint16, payload: Payload)
    | Ended
    | FailedType

  /** Where the exec server is. `depth` counts the nested activations of exec_server_protocol. */
  datatype ExecPc =
    | Command
    | Protocol(depth: nat)
    | Acking(depth: nat)
    | Forking(id: uint16)
    | Awaiting(id: uint16)
    | Stopped
    | BadType

  /** `up` is false once either end closed or the connection broke; a send then fails. The
      logs: `given` are the ids of the jobs sent by the main server and `payloads` the rest of
      them, `taken` the ids the exec server started on and `got` the messages it had them
      from, `ended` how the started ones ended, `told` the reports that got out and `heard`
      those the main server has read. */
  datatype Session = Session(
    main: MainPc, exec: ExecPc, m2e: seq<Msg>, e2m: seq<Msg>, up: bool,
    given: seq<uint16>, payloads: seq<Payload>, taken: seq<uint16>, got: seq<Msg>,
    ended: seq<Scheduler.Outcome>, told: seq<Msg>, heard: seq<Msg>)

  const START := Session(Listening, Command, [], [], true, [], [], [], [], [], [], [])

  datatype Step =
    // the main server
    | MainRecv                                      // recvMsg in attendExecServ
    | MainJob(id: uint16, payload: Payload)         // the queue hands over a job
    | MainProbe                                     // sendMsg of the check
    | MainAck                                       // select says readable, recvMsg of the answer
    | MainTimeout                                   // select times out
    | MainSend                                      // sendMsg of the job
    | MainFails                                     // recvMsg reports an error or a closed socket
    // the exec server
    | ExecRequest                                   // command "job"
    | ExecStop                                      // command "stop"
    | ExecRecv                                      // recvMsg in exec_server_protocol
    | ExecFails                                     // the same, with an error or a closed socket
    | ExecAck                                       // sendAck
    | ExecFork(ok: bool)                            // execJob
    | ExecWait(o: Scheduler.Outcome)                // fatherJobRoutine, after wait()
    // the network
    | Break

  function Put(ch: seq<Msg>, m: Msg, up: bool): seq<Msg> {
    if up then ch + [m] else ch
  }

  predicate IsJob(m: Msg) {
    m.kind == SENDJOB_NOINTER || m.kind == SENDJOB_INTER
  }

  predicate IsReport(m: Msg) {
    m.kind == JOB_RUN || m.kind == JOB_DONE || m.kind == JOB_SIG
  }

  /** getJobID_NoIter and getJobID_Iter. */
  function IdIn(m: Msg): uint16 {
    match m.body
    case ExecBody(id, _, _) => id
    case ExecAddrBody(id, _, _, _, _) => id
    case _ => 0
  }

  predicate Enabled(s: Session, step: Step) {
    match step
    case MainRecv => s.main == Listening && s.e2m != []
    case MainJob(_, _) => s.main == WantsJob
    case MainProbe => s.main.Probing?
    case MainAck => s.main.AwaitsAck? && s.e2m != []
    case MainTimeout => s.main.AwaitsAck?
    case MainSend => s.main.Sending?
    case MainFails => s.main == Listening
    case ExecRequest => s.exec == Command
    case ExecStop => s.exec == Command
    case ExecRecv => s.exec.Protocol? && s.m2e != []
    case ExecFails => s.exec.Protocol?
    case ExecAck => s.exec.Acking?
    case ExecFork(_) => s.exec.Forking?
    case ExecWait(o) => s.exec.Awaiting? && !o.ForkFails?
    case Break => true
  }

  function Close(s: Session): Session {
    s.(main := Ended, up := false)
  }

  function Quit(s: Session): Session {
    s.(exec := Stopped, up := false)
  }

  /** The dispatch of attendExecServ. */
  function Dispatch(s: Session, m: Msg): Session {
    if m.kind == JOB_REQ then s.(main := WantsJob)
    else if IsReport(m) then s.(heard := s.heard + [m])
    else if m.kind == SERVER_CLOSED then Close(s)
    else s.(main := FailedType)
  }

  /** The dispatch of exec_server_protocol. */
  function ExecDispatch(s: Session, m: Msg): Session
    requires s.exec.Protocol?
  {
    if IsJob(m) then s.(exec := Forking(IdIn(m)), taken := s.taken + [IdIn(m)], got := s.got + [m])
    else if m.kind == CH_EXEC_SER then s.(exec := Acking(s.exec.depth))
    else s.(exec := BadType)
  }

  function Tell(s: Session, m: Msg): Session {
    s.(e2m := Put(s.e2m, m, s.up), told := Put(s.told, m, s.up))
  }

  function Apply(s: Session, step: Step): Session
    requires Enabled(s, step)
  {
    match step
    case MainRecv => Dispatch(s.(e2m := s.e2m[1..]), s.e2m[0])
    case MainJob(id, payload) => s.(main := Probing(id, payload))
    case MainProbe =>
      if s.up then s.(main := AwaitsAck(s.main.id, s.main.payload), m2e := s.m2e + [CheckExecServer()])
      else Close(s)
    case MainAck =>
      var s' := s.(e2m := s.e2m[1..]);
      if s.e2m[0].kind == CH_EXEC_SER_ACK then s'.(main := Sending(s.main.id, s.main.payload))
      else s'.(main := FailedType)
    case MainTimeout => Close(s)
    case MainSend =>
      if s.up then
        s.(main := Listening, m2e := s.m2e + [JobMsg(s.main.id, s.main.payload)],
           given := s.given + [s.main.id], payloads := s.payloads + [s.main.payload])
      else Close(s)
    case MainFails => Close(s)
    case ExecRequest => if s.up then s.(exec := Protocol(1), e2m := s.e2m + [JobReq()]) else Quit(s)
    case ExecStop => Quit(s.(e2m := Put(s.e2m, ServerClosed(), s.up)))
    case ExecRecv => ExecDispatch(s.(m2e := s.m2e[1..]), s.m2e[0])
    case ExecFails => Quit(s)
    case ExecAck =>
      if s.up then s.(exec := Protocol(s.exec.depth + 1), e2m := s.e2m + [CheckExecServerAck()]) else Quit(s)
    case ExecFork(ok) =>
      if ok then Tell(s.(exec := Awaiting(s.exec.id)), JobRun(s.exec.id))
      else Tell(s.(exec := Command, ended := s.ended + [Scheduler.ForkFails]), JobDone(s.exec.id, 41))
    case ExecWait(o) =>
      Tell(s.(exec := Command, ended := s.ended + [o]),
           if o.Exits? then JobDone(s.exec.id, o.status) else JobSignaled(s.exec.id, o.signal))
    case Break => s.(up := false)
  }

  // ---------------------------------------------------------------- the lockstep invariant

  predicate AllReports(ms: seq<Msg>) {
    forall i :: 0 <= i < |ms| ==> IsReport(ms[i])
  }

  /** Reports followed by at most one other message. */
  predicate ReportsThen(ms: seq<Msg>, last: Msg) {
    ms != [] && AllReports(ms[..|ms| - 1]) && ms[|ms| - 1] == last
  }

  predicate JobWaits(ms: seq<Msg>) {
    |ms| == 1 && IsJob(ms[0])
  }

  /** Which states of the two ends and of the channels occur together. A stopped exec server
      may have stopped in any of them. */
  predicate Lockstep(s: Session) {
    match s.main
    case Listening =>
      || (AllReports(s.e2m) && s.m2e == [] && (s.exec.Command? || s.exec.Forking? || s.exec.Awaiting? || s.exec.Stopped?))
      || (s.e2m == [] && JobWaits(s.m2e) && (s.exec == Protocol(2) || s.exec.Stopped?))
      || (ReportsThen(s.e2m, JobReq()) && s.m2e == [] && (s.exec == Protocol(1) || s.exec.Stopped?))
      || (ReportsThen(s.e2m, ServerClosed()) && s.m2e == [] && s.exec.Stopped?)
    case WantsJob => s.e2m == [] && s.m2e == [] && (s.exec == Protocol(1) || s.exec.Stopped?)
    case Probing(_, _) => s.e2m == [] && s.m2e == [] && (s.exec == Protocol(1) || s.exec.Stopped?)
    case AwaitsAck(_, _) =>
      || (s.e2m == [] && s.m2e == [CheckExecServer()] && (s.exec == Protocol(1) || s.exec.Stopped?))
      || (s.e2m == [] && s.m2e == [] && (s.exec == Acking(1) || s.exec.Stopped?))
      || (s.e2m == [CheckExecServerAck()] && s.m2e == [] && (s.exec == Protocol(2) || s.exec.Stopped?))
    case Sending(_, _) => s.e2m == [] && s.m2e == [] && (s.exec == Protocol(2) || s.exec.Stopped?)
    case Ended =>
      !s.up &&
      (match s.exec
       case Protocol(d) => (d == 1 && s.m2e in {[], [CheckExecServer()]}) || (d == 2 && (s.m2e == [] || JobWaits(s.m2e)))
       case Acking(d) => d == 1 && s.m2e == []
       case Stopped => |s.m2e| <= 1
       case BadType => false
       case _ => s.m2e == [])
    case FailedType => false
  }

  predicate IsMainStep(step: Step) {
    step.MainRecv? || step.MainJob? || step.MainProbe? || step.MainAck? || step.MainTimeout?
    || step.MainSend? || step.MainFails?
  }

  /** Taking the first of some reports and a last message. */
  lemma ReportsTail(ms: seq<Msg>, last: Msg)
    requires ReportsThen(ms, last)
    ensures if IsReport(ms[0]) && |ms| > 1 then ReportsThen(ms[1..], last) else ms == [last]
  {
    if |ms| > 1 {
      assert ms[..|ms| - 1][0] == ms[0];
      assert ms[1..][..|ms[1..]| - 1] == ms[..|ms| - 1][1..];
    }
  }

  lemma MainRecvLockstep(s: Session)
    requires Lockstep(s) && Enabled(s, MainRecv)
    ensures Lockstep(Apply(s, MainRecv))
  {
    if ReportsThen(s.e2m, JobReq()) {
      ReportsTail(s.e2m, JobReq());
    } else if ReportsThen(s.e2m, ServerClosed()) {
      ReportsTail(s.e2m, ServerClosed());
    }
  }

  lemma MainLockstep(s: Session, step: Step)
    requires Lockstep(s) && Enabled(s, step) && IsMainStep(step)
    ensures Lockstep(Apply(s, step))
  {
    if step.MainRecv? {
      MainRecvLockstep(s);
    }
  }

  lemma PushShapes(ms: seq<Msg>, m: Msg)
    requires AllReports(ms)
    ensures ReportsThen(ms + [m], m)
    ensures IsReport(m) ==> AllReports(ms + [m])
  {
    assert (ms + [m])[..|ms|] == ms;
  }

  /** Between requests the handler listens, or has ended. */
  lemma AtRest(s: Session)
    requires Lockstep(s) && (s.exec.Command? || s.exec.Forking? || s.exec.Awaiting?)
    ensures s.m2e == []
    ensures (s.main == Listening && AllReports(s.e2m)) || (s.main == Ended && !s.up)
  {
  }

  /** The exec server speaks while the handler listens. */
  lemma SpeakLockstep(s: Session, m: Msg, exec: ExecPc)
    requires s.main == Listening && s.m2e == [] && AllReports(s.e2m)
    requires (IsReport(m) && (exec == Command || exec.Awaiting?))
          || (m == JobReq() && exec == Protocol(1)) || (m == ServerClosed() && exec == Stopped)
    ensures Lockstep(s.(exec := exec, e2m := s.e2m + [m]))
  {
    PushShapes(s.e2m, m);
    hide AllReports, ReportsThen;
  }

  /** What the exec server does between requests while the handler listens on a connection
      that is up: it says one thing. */
  lemma Speaks(s: Session, step: Step)
    requires Enabled(s, step) && s.up && (step.ExecRequest? || step.ExecStop? || step.ExecFork? || step.ExecWait?)
    ensures var s' := Apply(s, step);
            && |s'.e2m| == |s.e2m| + 1 && s'.e2m == s.e2m + [s'.e2m[|s.e2m|]]
            && s'.main == s.main && s'.m2e == s.m2e
    ensures var exec, m := Apply(s, step).exec, Apply(s, step).e2m[|s.e2m|];
            || (IsReport(m) && (exec == Command || exec.Awaiting?))
            || (m == JobReq() && exec == Protocol(1)) || (m == ServerClosed() && exec == Stopped)
  {
  }

  /** Lockstep does not depend on the logs, nor, while the handler listens, on `up`. */
  lemma SameLockstep(s: Session, s': Session)
    requires Lockstep(s) && s.main == Listening
    requires s'.main == s.main && s'.exec == s.exec && s'.m2e == s.m2e && s'.e2m == s.e2m
    ensures Lockstep(s')
  {
    hide AllReports, ReportsThen, JobWaits;
  }

  lemma TalkLockstep(s: Session, step: Step)
    requires Lockstep(s) && Enabled(s, step)
    requires step.ExecRequest? || step.ExecStop? || step.ExecFork? || step.ExecWait?
    ensures Lockstep(Apply(s, step))
  {
    AtRest(s);
    if s.main == Listening && s.up {
      hide Apply, Lockstep, AllReports;
      var s' := Apply(s, step);
      Speaks(s, step);
      SpeakLockstep(s, s'.e2m[|s.e2m|], s'.exec);
      SameLockstep(s.(exec := s'.exec, e2m := s'.e2m), s');
    } else {
      SilentLockstep(s, step);
    }
  }

  /** On a connection that is down nothing gets out. */
  lemma SilentLockstep(s: Session, step: Step)
    requires Lockstep(s) && Enabled(s, step) && !s.up
    requires step.ExecRequest? || step.ExecStop? || step.ExecFork? || step.ExecWait?
    ensures Lockstep(Apply(s, step))
  {
    AtRest(s);
    hide AllReports, ReportsThen;
  }

  lemma ExecLockstep(s: Session, step: Step)
    requires Lockstep(s) && Enabled(s, step) && !IsMainStep(step)
    ensures Lockstep(Apply(s, step))
  {
    if step.ExecRequest? || step.ExecStop? || step.ExecFork? || step.ExecWait? {
      TalkLockstep(s, step);
    }
  }

  lemma StepLockstep(s: Session, step: Step)
    requires Lockstep(s) && Enabled(s, step)
    ensures Lockstep(Apply(s, step))
  {
    if IsMainStep(step) {
      MainLockstep(s, step);
    } else {
      ExecLockstep(s, step);
    }
  }

  // ---------------------------------------------------------------- the logs

  function Reports(ms: seq<Msg>): seq<Msg> {
    if ms == [] then []
    else Reports(ms[..|ms| - 1]) + if IsReport(ms[|ms| - 1]) then [ms[|ms| - 1]] else []
  }

  function JobIds(ms: seq<Msg>): seq<uint16> {
    if ms == [] then []
    else JobIds(ms[..|ms| - 1]) + if IsJob(ms[|ms| - 1]) then [IdIn(ms[|ms| - 1])] else []
  }

  lemma PushLogs(ms: seq<Msg>, m: Msg)
    ensures Reports(ms + [m]) == Reports(ms) + if IsReport(m) then [m] else []
    ensures JobIds(ms + [m]) == JobIds(ms) + if IsJob(m) then [IdIn(m)] else []
  {
    assert (ms + [m])[..|ms|] == ms;
  }

  lemma {:induction false} PopLogs(ms: seq<Msg>)
    requires ms != []
    ensures Reports(ms) == (if IsReport(ms[0]) then [ms[0]] else []) + Reports(ms[1..])
    ensures JobIds(ms) == (if IsJob(ms[0]) then [IdIn(ms[0])] else []) + JobIds(ms[1..])
  {
    var n := |ms| - 1;
    var m := ms[n];
    if n > 0 {
      PopLogs(ms[..n]);
      var rest := ms[1..n];
      assert ms[..n][1..] == rest && ms[1..] == rest + [m] && ms == ms[..n] + [m];
      PushLogs(rest, m);
      PushLogs(ms[..n], m);
    } else {
      PushLogs([], m);
      assert ms == [] + [m] && ms[1..] == [];
    }
  }

  /** All the reports about jobs that ended as given. */
  function Story(ids: seq<uint16>, outs: seq<Scheduler.Outcome>): seq<Msg>
    requires |outs| <= |ids|
  {
    if outs == [] then []
    else Story(ids, outs[..|outs| - 1]) + Scheduler.ReportsOf(ids[|outs| - 1], outs[|outs| - 1])
  }

  lemma {:induction false} StoryPrefix(ids: seq<uint16>, more: seq<uint16>, outs: seq<Scheduler.Outcome>)
    requires |outs| <= |ids|
    ensures Story(ids + more, outs) == Story(ids, outs)
  {
    if outs != [] {
      StoryPrefix(ids, more, outs[..|outs| - 1]);
    }
  }

  lemma StoryPush(ids: seq<uint16>, outs: seq<Scheduler.Outcome>, o: Scheduler.Outcome)
    requires |outs| < |ids|
    ensures Story(ids, outs + [o]) == Story(ids, outs) + Scheduler.ReportsOf(ids[|outs|], o)
  {
    assert (outs + [o])[..|outs|] == outs;
  }

  predicate Busy(pc: ExecPc) {
    pc.Forking? || pc.Awaiting?
  }

  predicate Counts(s: Session) {
    && |s.taken| == |s.ended| + (if Busy(s.exec) then 1 else 0)
    && (Busy(s.exec) ==> s.taken[|s.taken| - 1] == s.exec.id)
    && s.given == s.taken + JobIds(s.m2e)
    && s.told == s.heard + Reports(s.e2m)
  }

  /** What the exec server has reported if nothing was cut off. */
  function Due(s: Session): seq<Msg>
    requires |s.ended| <= |s.taken|
  {
    Story(s.taken, s.ended) + if s.exec.Awaiting? then [Msg(15, StateBody(1, s.exec.id, 0))] else []
  }

  predicate LogsOk(s: Session) {
    Counts(s) && s.told <= Due(s) && (s.up ==> s.told == Due(s))
  }

  lemma MainCounts(s: Session, step: Step)
    requires Lockstep(s) && Counts(s) && Enabled(s, step) && IsMainStep(step)
    ensures Counts(Apply(s, step))
  {
    hide Lockstep, Reports, JobIds;
    match step
    case MainRecv =>
      PopLogs(s.e2m);
      if IsReport(s.e2m[0]) {
        assert s.heard + ([s.e2m[0]] + Reports(s.e2m[1..])) == (s.heard + [s.e2m[0]]) + Reports(s.e2m[1..]);
      } else {
        assert [] + Reports(s.e2m[1..]) == Reports(s.e2m[1..]);
      }
    case MainAck => MainAckCounts(s);
    case MainProbe =>
      PushLogs(s.m2e, CheckExecServer());
      assert JobIds(s.m2e) + [] == JobIds(s.m2e);
    case MainSend =>
      PushLogs(s.m2e, JobMsg(s.main.id, s.main.payload));
      assert s.taken + (JobIds(s.m2e) + [s.main.id]) == s.taken + JobIds(s.m2e) + [s.main.id];
    case _ =>
  }

  /** Adding a message on the exec server's side. */
  lemma TellCounts(heard: seq<Msg>, e2m: seq<Msg>, m: Msg)
    ensures heard + Reports(e2m + [m]) == heard + Reports(e2m) + if IsReport(m) then [m] else []
  {
    PushLogs(e2m, m);
  }

  lemma ExecCounts(s: Session, step: Step)
    requires Counts(s) && Enabled(s, step) && !IsMainStep(step)
    ensures Counts(Apply(s, step))
  {
    hide Reports, JobIds;
    match step
    case ExecRequest => TellCounts(s.heard, s.e2m, JobReq());
    case ExecStop => TellCounts(s.heard, s.e2m, ServerClosed());
    case ExecRecv =>
      PopLogs(s.m2e);
      if IsJob(s.m2e[0]) {
        var id := IdIn(s.m2e[0]);
        assert s.taken + ([id] + JobIds(s.m2e[1..])) == (s.taken + [id]) + JobIds(s.m2e[1..]);
      } else {
        assert [] + JobIds(s.m2e[1..]) == JobIds(s.m2e[1..]);
      }
    case ExecAck => TellCounts(s.heard, s.e2m, CheckExecServerAck());
    case ExecFork(ok) => TellCounts(s.heard, s.e2m, if ok then JobRun(s.exec.id) else JobDone(s.exec.id, 41));
    case ExecWait(o) =>
      TellCounts(s.heard, s.e2m, if o.Exits? then JobDone(s.exec.id, o.status) else JobSignaled(s.exec.id, o.signal));
    case _ =>
  }

  lemma StepCounts(s: Session, step: Step)
    requires Lockstep(s) && Counts(s) && Enabled(s, step)
    ensures Counts(Apply(s, step))
  {
    hide Lockstep, Counts, Apply;
    if IsMainStep(step) {
      MainCounts(s, step);
    } else {
      ExecCounts(s, step);
    }
  }

  /** Only the ACK can be in the channel when the handler waits for it. */
  lemma MainAckCounts(s: Session)
    requires Lockstep(s) && Counts(s) && Enabled(s, MainAck)
    ensures Counts(Apply(s, MainAck))
  {
    assert s.e2m == [CheckExecServerAck()];
    PopLogs(s.e2m);
  }

  /** What a step adds to the reports that are due. */
  function Said(s: Session, step: Step): seq<Msg>
    requires Enabled(s, step)
  {
    match step
    case ExecFork(ok) => [if ok then JobRun(s.exec.id) else JobDone(s.exec.id, 41)]
    case ExecWait(o) => [if o.Exits? then JobDone(s.exec.id, o.status) else JobSignaled(s.exec.id, o.signal)]
    case _ => []
  }

  lemma DueGrows(s: Session, step: Step)
    requires Counts(s) && Enabled(s, step) && Counts(Apply(s, step))
    ensures Due(Apply(s, step)) == Due(s) + Said(s, step)
  {
    hide Reports, JobIds, Story;
    match step
    case ExecRecv =>
      if IsJob(s.m2e[0]) {
        StoryPrefix(s.taken, [IdIn(s.m2e[0])], s.ended);
      }
    case ExecFork(ok) =>
      if !ok {
        StoryPush(s.taken, s.ended, Scheduler.ForkFails);
      }
    case ExecWait(o) => StoryPush(s.taken, s.ended, o);
    case _ =>
  }

  lemma ToldGrows(s: Session, step: Step)
    requires Enabled(s, step)
    ensures Apply(s, step).told == s.told + (if s.up then Said(s, step) else [])
    ensures Apply(s, step).up ==> s.up
  {
  }

  lemma StepLogs(s: Session, step: Step)
    requires Lockstep(s) && LogsOk(s) && Enabled(s, step)
    ensures LogsOk(Apply(s, step))
  {
    hide Lockstep, Counts, Apply, Said, Reports, JobIds, Story;
    StepCounts(s, step);
    assert |s.ended| <= |s.taken| by { CountsBound(s); }
    CountsBound(Apply(s, step));
    DueGrows(s, step);
    ToldGrows(s, step);
  }

  lemma CountsBound(s: Session)
    requires Counts(s)
    ensures |s.ended| <= |s.taken| <= |s.ended| + 1
  {
  }

  // ---------------------------------------------------------------- what the exec server is told to run

  /** Each message taken describes the job it was made for, and so does the one on its way. */
  predicate GotOk(s: Session) {
    && |s.payloads| == |s.given| && |s.got| == |s.taken| && |s.taken| <= |s.given|
    && (forall a :: 0 <= a < |s.got| ==> Describes(s.got[a], s.given[a], s.payloads[a]))
    && (JobWaits(s.m2e) ==> |s.given| == |s.got| + 1 && Describes(s.m2e[0], s.given[|s.got|], s.payloads[|s.got|]))
  }

  lemma PendingIsLast(s: Session)
    requires Lockstep(s) && Counts(s)
    ensures |s.m2e| <= 1
    ensures |s.given| == |s.taken| + if JobWaits(s.m2e) then 1 else 0
  {
    assert |s.m2e| <= 1;
    if s.m2e != [] {
      PopLogs(s.m2e);
      assert s.m2e[1..] == [];
    }
  }

  lemma StepGot(s: Session, step: Step)
    requires Lockstep(s) && Counts(s) && GotOk(s) && Enabled(s, step)
    ensures GotOk(Apply(s, step))
  {
    hide Describes, Counts, JobIds, Reports;
    PendingIsLast(s);
    if step.MainSend? {
      SendingIsEmpty(s);
    }
    hide Lockstep;
  }

  lemma SendingIsEmpty(s: Session)
    requires Lockstep(s) && s.main.Sending?
    ensures s.m2e == []
  {
  }

  // ---------------------------------------------------------------- runs

  ghost predicate Run(ss: seq<Session>, steps: seq<Step>) {
    && |ss| == |steps| + 1
    && ss[0] == START
    && forall i :: 0 <= i < |steps| ==> Enabled(ss[i], steps[i]) && ss[i + 1] == Apply(ss[i], steps[i])
  }

  lemma {:induction false} RunKeeps(ss: seq<Session>, steps: seq<Step>, i: nat)
    requires Run(ss, steps) && i < |ss|
    ensures Lockstep(ss[i]) && LogsOk(ss[i]) && GotOk(ss[i])
  {
    if i > 0 {
      RunKeeps(ss, steps, i - 1);
      StepLockstep(ss[i - 1], steps[i - 1]);
      StepLogs(ss[i - 1], steps[i - 1]);
      StepGot(ss[i - 1], steps[i - 1]);
      hide Lockstep, LogsOk, GotOk;
    }
  }

  /** The a-th job the exec server starts on is the a-th the main server gave it: the message it
      has it from carries id, paths, port and address of that job. */
  lemma TakenAsGiven(ss: seq<Session>, steps: seq<Step>, i: nat, a: nat)
    requires Run(ss, steps) && i < |ss| && a < |ss[i].taken|
    ensures a < |ss[i].given| && a < |ss[i].payloads| && a < |ss[i].got| && ss[i].taken[a] == ss[i].given[a]
    ensures Describes(ss[i].got[a], ss[i].given[a], ss[i].payloads[a])
  {
    RunKeeps(ss, steps, i);
    ReportsTellTheStory(ss, steps, i);
    hide Lockstep, Describes;
  }

  /** The two programs stay in step in every run of a connection: neither end ever takes its
      bad-type branch, exec_server_protocol nests at most twice per request, and at most one
      job is outstanding. */
  lemma StaysInStep(ss: seq<Session>, steps: seq<Step>, i: nat)
    requires Run(ss, steps) && i < |ss|
    ensures ss[i].main != FailedType && ss[i].exec != BadType
    ensures ss[i].exec.Protocol? || ss[i].exec.Acking? ==> 1 <= ss[i].exec.depth <= 2
    ensures |ss[i].ended| <= |ss[i].given| <= |ss[i].ended| + 1
  {
    RunKeeps(ss, steps, i);
    var s := ss[i];
    assert |s.m2e| <= 1;
    if s.m2e != [] {
      PopLogs(s.m2e);
      assert s.m2e[1..] == [];
    }
  }

  /** Every job the exec server took is reported as RUN and then exactly one end, or as the
      one failed fork, in the order the jobs were given; the main server has read a prefix
      of that. While the connection is up nothing is missing, also not the RUN of the job
      that is running. */
  lemma ReportsTellTheStory(ss: seq<Session>, steps: seq<Step>, i: nat)
    requires Run(ss, steps) && i < |ss|
    ensures |ss[i].ended| <= |ss[i].taken| && ss[i].taken <= ss[i].given
    ensures ss[i].heard <= ss[i].told <= Due(ss[i])
    ensures ss[i].up ==> ss[i].told == Due(ss[i])
  {
    RunKeeps(ss, steps, i);
  }

  // ---------------------------------------------------------------- a request from start to end

  /** The state after the steps from the i-th on, if each of them can be taken. */
  function Play(s: Session, steps: seq<Step>, i: nat): Option<Session>
    requires i <= |steps|
    decreases |steps| - i
  {
    if i == |steps| then Some(s)
    else if Enabled(s, steps[i]) then Play(Apply(s, steps[i]), steps, i + 1)
    else None
  }

  lemma PlayOne(s: Session, steps: seq<Step>, i: nat)
    requires i < |steps| && Enabled(s, steps[i])
    ensures Play(s, steps, i) == Play(Apply(s, steps[i]), steps, i + 1)
  {
  }

  lemma PlayNone(s: Session, steps: seq<Step>)
    ensures Play(s, steps, |steps|) == Some(s)
  {
  }

  function Request(id: uint16, p: Payload): seq<Step> {
    [ExecRequest, MainRecv, MainJob(id, p), MainProbe, ExecRecv, ExecAck, MainAck, MainSend, ExecRecv]
  }

  lemma RequestIsProbed(s: Session, id: uint16, p: Payload)
    requires s.main == Listening && s.exec == Command && s.up && s.m2e == [] && s.e2m == []
    ensures Play(s, Request(id, p), 0) == Play(s.(main := AwaitsAck(id, p), exec := Acking(1)), Request(id, p), 5)
  {
    hide Play;
    var steps := Request(id, p);
    var s1 := Apply(s, ExecRequest);
    assert s1.e2m == [JobReq()];
    var s2 := Apply(s1, MainRecv);
    assert s2 == s.(main := WantsJob, exec := Protocol(1));
    var s3 := Apply(s2, MainJob(id, p));
    var s4 := Apply(s3, MainProbe);
    assert s4.m2e == [CheckExecServer()];
    assert Apply(s4, ExecRecv) == s.(main := AwaitsAck(id, p), exec := Acking(1));
    PlayOne(s, steps, 0);
    PlayOne(s1, steps, 1);
    PlayOne(s2, steps, 2);
    PlayOne(s3, steps, 3);
    PlayOne(s4, steps, 4);
  }

  lemma RequestIsGiven(s: Session, id: uint16, p: Payload)
    requires s.main == AwaitsAck(id, p) && s.exec == Acking(1) && s.up && s.m2e == [] && s.e2m == []
    ensures Play(s, Request(id, p), 5) ==
            Some(s.(main := Listening, exec := Forking(id), given := s.given + [id], payloads := s.payloads + [p],
                    taken := s.taken + [id], got := s.got + [JobMsg(id, p)]))
  {
    hide Play, Describes;
    var steps := Request(id, p);
    var s1 := Apply(s, ExecAck);
    assert s1.e2m == [CheckExecServerAck()];
    var s2 := Apply(s1, MainAck);
    assert s2 == s.(main := Sending(id, p), exec := Protocol(2));
    var s3 := Apply(s2, MainSend);
    assert s3.m2e == [JobMsg(id, p)];
    assert IsJob(JobMsg(id, p)) && IdIn(JobMsg(id, p)) == id by { JobMsgId(id, p); }
    PlayOne(s, steps, 5);
    PlayOne(s1, steps, 6);
    PlayOne(s2, steps, 7);
    PlayOne(s3, steps, 8);
    PlayNone(Apply(s3, ExecRecv), steps);
  }

  lemma JobMsgId(id: uint16, p: Payload)
    ensures IsJob(JobMsg(id, p)) && IdIn(JobMsg(id, p)) == id
  {
  }

  /** A request is served: asked, checked, acknowledged and given a job, the exec server starts
      on that job. */
  lemma RequestIsServed(s: Session, id: uint16, p: Payload)
    requires s.main == Listening && s.exec == Command && s.up && s.m2e == [] && s.e2m == []
    ensures var r := Play(s, Request(id, p), 0);
            && r.Some? && r.value.main == Listening && r.value.exec == Forking(id)
            && r.value.m2e == [] && r.value.e2m == [] && r.value.up
            && r.value.taken == s.taken + [id] && |r.value.got| == |s.got| + 1 && Describes(r.value.got[|s.got|], id, p)
  {
    RequestIsProbed(s, id, p);
    RequestIsGiven(s.(main := AwaitsAck(id, p), exec := Acking(1)), id, p);
    assert Describes(JobMsg(id, p), id, p);
    hide Play, Request, Describes, JobMsg;
  }

  /** A job that was started is reported to the main server, and both ends are where they were
      before the request. */
  lemma JobIsReported(s: Session, o: Scheduler.Outcome)
    requires s.main == Listening && s.exec.Forking? && s.up && s.m2e == [] && s.e2m == []
    ensures var r := Play(s, if o.ForkFails? then [ExecFork(false), MainRecv] else [ExecFork(true), MainRecv, ExecWait(o), MainRecv], 0);
            && r.Some? && r.value.main == Listening && r.value.exec == Command
            && r.value.m2e == [] && r.value.e2m == [] && r.value.up
            && r.value.ended == s.ended + [o] && r.value.heard == s.heard + Scheduler.ReportsOf(s.exec.id, o)
  {
    hide Play;
    if o.ForkFails? {
      var s1 := Apply(s, ExecFork(false));
      assert s1.e2m == [JobDone(s.exec.id, 41)];
      var steps := [ExecFork(false), MainRecv];
      PlayOne(s, steps, 0);
      PlayOne(s1, steps, 1);
      PlayNone(Apply(s1, MainRecv), steps);
    } else {
      var s1 := Apply(s, ExecFork(true));
      assert s1.e2m == [JobRun(s.exec.id)];
      var s2 := Apply(s1, MainRecv);
      var s3 := Apply(s2, ExecWait(o));
      assert |s3.e2m| == 1 && IsReport(s3.e2m[0]);
      var steps := [ExecFork(true), MainRecv, ExecWait(o), MainRecv];
      PlayOne(s, steps, 0);
      PlayOne(s1, steps, 1);
      PlayOne(s2, steps, 2);
      PlayOne(s3, steps, 3);
      PlayNone(Apply(s3, MainRecv), steps);
    }
  }

  /** An exec server that stops tells the handler, which ends. */
  lemma StopIsHeard(s: Session)
    requires s.main == Listening && s.exec == Command && s.up && s.e2m == []
    ensures var r := Play(s, [ExecStop, MainRecv], 0); r.Some? && r.value.main == Ended && r.value.exec == Stopped
  {
    hide Play;
    var s1 := Apply(s, ExecStop);
    assert s1.e2m == [ServerClosed()];
    var steps := [ExecStop, MainRecv];
    PlayOne(s, steps, 0);
    PlayOne(s1, steps, 1);
    PlayNone(Apply(s1, MainRecv), steps);
  }

  /** Whoever does not get through closes: a check that is not answered in time, a connection
      that is found closed, and every send on one that is down end the end that notices, and
      give out no job. */
  lemma FailureEnds(s: Session, step: Step)
    requires Enabled(s, step)
    ensures step.MainTimeout? || step.MainFails? || (!s.up && (step.MainProbe? || step.MainSend?)) ==>
            Apply(s, step) == s.(main := Ended, up := false)
    ensures step.ExecFails? || (!s.up && (step.ExecRequest? || step.ExecAck?)) ==>
            Apply(s, step) == s.(exec := Stopped, up := false)
    ensures !s.up ==> Apply(s, step).given == s.given && !Apply(s, step).up
  {
  }
}
