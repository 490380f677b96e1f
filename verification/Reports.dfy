/** The reports about the jobs of one connection, as the scheduler reads them and as a session
    with an exec server produces them: both are the reports of the jobs sent, in order. */
module Reports {
  import opened Words
  import opened Jobs
  import opened Codec
  import opened Scheduler
  import S = Session

  function Ids(jobs: seq<Job>): (ids: seq<uint16>)
    ensures |ids| == |jobs|
  {
    seq(|jobs|, i requires 0 <= i < |jobs| => jobs[i].id)
  }

  /** How many of the jobs sent have their end read. */
  function Done(c: Conn): int {
    |c.sent| - |c.inbox|
  }

  /** What is unread of the reports of a job. */
  predicate BatchIs(b: Batch, job: Job, o: Outcome) {
    && b.job == job
    && if b.started then !o.ForkFails? && b.rest == ReportsOf(job.id, o)[1..] else b.rest == ReportsOf(job.id, o)
  }

  /** The RUN that was read of the first job whose end was not. */
  function Begun(inbox: seq<Batch>): seq<Msg> {
    if inbox != [] && inbox[0].started then [Msg(15, StateBody(1, inbox[0].job.id, 0))] else []
  }

  /** The inbox holds what is unread of the reports of the last jobs sent; what was read is all
      the reports of the jobs before them, and perhaps a RUN. */
  predicate InStory(c: Conn) {
    && |c.ends| == |c.sent| && |c.inbox| <= |c.sent|
    && (forall i :: 0 <= i < |c.inbox| ==>
          BatchIs(c.inbox[i], c.sent[Done(c) + i], c.ends[Done(c) + i]) && (c.inbox[i].started ==> i == 0))
    && c.heard == S.Story(Ids(c.sent), c.ends[..Done(c)]) + Begun(c.inbox)
  }

  /** The bytes on the wire do not matter to the story. */
  lemma SameInStory(c: Conn, c': Conn)
    requires InStory(c) && c'.sent == c.sent && c'.ends == c.ends && c'.inbox == c.inbox && c'.heard == c.heard
    ensures InStory(c')
  {
    hide S.Story, Ids, BatchIs, Begun;
  }

  predicate AllInStory(conns: seq<Conn>) {
    forall t :: 0 <= t < |conns| ==> InStory(conns[t])
  }

  lemma SendInStory(c: Conn, job: Job, o: Outcome)
    requires InStory(c)
    ensures var b := Batch(job, false, ReportsOf(job.id, o));
            InStory(c.(sent := c.sent + [job], ends := c.ends + [o], inbox := c.inbox + [b]))
  {
    hide ReportsOf;
    var c' := c.(sent := c.sent + [job], ends := c.ends + [o], inbox := c.inbox + [Batch(job, false, ReportsOf(job.id, o))]);
    assert Ids(c'.sent) == Ids(c.sent) + [job.id];
    S.StoryPrefix(Ids(c.sent), [job.id], c.ends[..Done(c)]);
    assert c'.ends[..Done(c')] == c.ends[..Done(c)];
    hide S.Story, Ids;
  }

  /** What reading a report does to the connection. */
  lemma ReadShape(s: State, t: nat)
    requires WF(s) && Enabled(s, Report(t))
    ensures var c, c' := s.conns[t], DoReport(s, t).conns[t];
            var b := c.inbox[0];
            && c'.sent == c.sent && c'.ends == c.ends && c'.heard == c.heard + [b.rest[0]]
            && c'.inbox == if |b.rest| == 1 then c.inbox[1..] else [Batch(b.job, true, b.rest[1..])] + c.inbox[1..]
  {
    hide ChangeState, ReportOf;
  }

  /** A batch of two reports has not begun; after the first it has. */
  lemma RunBegins(b: Batch, job: Job, o: Outcome)
    requires BatchIs(b, job, o) && |b.rest| == 2
    ensures !b.started && BatchIs(Batch(b.job, true, b.rest[1..]), job, o) && b.rest[0] == Msg(15, StateBody(1, job.id, 0))
  {
  }

  /** Reading RUN: the batch has begun. */
  lemma ReadRun(c: Conn)
    requires InStory(c) && c.inbox != [] && |c.inbox[0].rest| == 2
    ensures var b := c.inbox[0];
            InStory(c.(heard := c.heard + [b.rest[0]], inbox := [Batch(b.job, true, b.rest[1..])] + c.inbox[1..]))
  {
    hide S.Story, Ids, ReportsOf;
    var b := c.inbox[0];
    var c' := c.(heard := c.heard + [b.rest[0]], inbox := [Batch(b.job, true, b.rest[1..])] + c.inbox[1..]);
    RunBegins(b, c.sent[Done(c)], c.ends[Done(c)]);
    assert Begun(c.inbox) == [] && Begun(c'.inbox) == [b.rest[0]];
    hide BatchIs, Begun;
    forall i | 0 <= i < |c'.inbox|
      ensures BatchIs(c'.inbox[i], c'.sent[Done(c') + i], c'.ends[Done(c') + i]) && (c'.inbox[i].started ==> i == 0)
    {
      assert i > 0 ==> c'.inbox[i] == c.inbox[i];
    }
  }

  /** The reports of a job that has ended, in what was read. */
  lemma EndCompletes(b: Batch, job: Job, o: Outcome)
    requires BatchIs(b, job, o) && |b.rest| == 1
    ensures Begun([b]) + [b.rest[0]] == ReportsOf(job.id, o)
  {
  }

  /** Reading the end: the job is done. */
  lemma ReadEnd(c: Conn)
    requires InStory(c) && c.inbox != [] && |c.inbox[0].rest| == 1
    ensures InStory(c.(heard := c.heard + [c.inbox[0].rest[0]], inbox := c.inbox[1..]))
  {
    hide S.Story, Ids, ReportsOf, BatchIs;
    var b, a := c.inbox[0], Done(c);
    var job, o := c.sent[a], c.ends[a];
    var c' := c.(heard := c.heard + [b.rest[0]], inbox := c.inbox[1..]);
    EndCompletes(b, job, o);
    assert Begun(c.inbox) == Begun([b]);
    assert Ids(c.sent)[a] == job.id by { IdAt(c.sent, a); }
    S.StoryPush(Ids(c.sent), c.ends[..a], o);
    assert c.ends[..a + 1] == c.ends[..a] + [o];
    assert c'.heard == S.Story(Ids(c.sent), c.ends[..a]) + ReportsOf(job.id, o);
    TailBatches(c);
  }

  lemma IdAt(jobs: seq<Job>, a: nat)
    requires a < |jobs|
    ensures Ids(jobs)[a] == jobs[a].id
  {
  }

  lemma TailBatches(c: Conn)
    requires InStory(c) && c.inbox != []
    ensures var rest := c.inbox[1..];
            forall i :: 0 <= i < |rest| ==> BatchIs(rest[i], c.sent[Done(c) + 1 + i], c.ends[Done(c) + 1 + i]) && !rest[i].started
  {
    hide S.Story, Ids, BatchIs, Begun;
    var rest := c.inbox[1..];
    forall i | 0 <= i < |rest|
      ensures BatchIs(rest[i], c.sent[Done(c) + 1 + i], c.ends[Done(c) + 1 + i]) && !rest[i].started
    {
      assert rest[i] == c.inbox[i + 1] && Done(c) + 1 + i == Done(c) + (i + 1);
    }
  }

  lemma ReadInStory(s: State, t: nat)
    requires WF(s) && Enabled(s, Report(t)) && InStory(s.conns[t])
    ensures InStory(DoReport(s, t).conns[t])
  {
    ReadShape(s, t);
    var c, c' := s.conns[t], DoReport(s, t).conns[t];
    var b := c.inbox[0];
    assert BatchIs(b, c.sent[Done(c)], c.ends[Done(c)]);
    assert |b.rest| == 1 || |b.rest| == 2;
    hide DoReport, InStory, BatchIs;
    if |b.rest| == 1 {
      ReadEnd(c);
      SameInStory(c.(heard := c.heard + [b.rest[0]], inbox := c.inbox[1..]), c');
    } else {
      ReadRun(c);
      SameInStory(c.(heard := c.heard + [b.rest[0]], inbox := [Batch(b.job, true, b.rest[1..])] + c.inbox[1..]), c');
    }
  }

  /** Steps that send no job and read no report. */
  lemma QuietInStory(s: State, step: Step)
    requires WF(s) && Enabled(s, step) && InRing(s, step) && !step.Connect? && !step.SendJob? && !step.Report?
    ensures var c, c' := s.conns[step.t], Apply(s, step).conns[step.t];
            c'.sent == c.sent && c'.ends == c.ends && c'.inbox == c.inbox && c'.heard == c.heard
  {
  }

  lemma StepInStory(s: State, step: Step)
    requires WF(s) && Enabled(s, step) && InRing(s, step) && AllInStory(s.conns)
    ensures AllInStory(Apply(s, step).conns)
  {
    hide InStory;
    hide DoAccept, DoPut, DoGet, DoSend, DoReport, DoRemove, DoMark, DoBackMark, DoLook, DoCheck;
    if step.Connect? {
      NewInStory();
    } else {
      Others(s, step);
      assert InStory(s.conns[step.t]);
      if step.SendJob? {
        SentInStory(s, step.t, step.k, step.o);
      } else if step.Report? {
        ReadInStory(s, step.t);
      } else {
        QuietInStory(s, step);
        SameInStory(s.conns[step.t], Apply(s, step).conns[step.t]);
      }
    }
  }

  lemma SentInStory(s: State, t: nat, k: nat, o: Outcome)
    requires WF(s) && Enabled(s, SendJob(t, k, o)) && InStory(s.conns[t])
    ensures InStory(DoSend(s, t, k, o).conns[t])
  {
    hide InStory, ReportsOf, JobFrame;
    var c, job := s.conns[t], s.threads[t].job;
    SendInStory(c, job, o);
    if k < |JobFrame(job)| {
      SameInStory(c, DoSend(s, t, k, o).conns[t]);
    } else {
      var b := Batch(job, false, ReportsOf(job.id, o));
      SameInStory(c.(sent := c.sent + [job], ends := c.ends + [o], inbox := c.inbox + [b]), DoSend(s, t, k, o).conns[t]);
    }
  }

  lemma NewInStory()
    ensures InStory(NEW_CONN)
  {
  }

  lemma {:induction false} RunInStory(ss: seq<State>, steps: seq<Step>, n: nat, i: nat)
    requires Run(ss, steps, n) && i < |ss|
    ensures WF(ss[i]) && AllInStory(ss[i].conns)
  {
    hide AllInStory, Apply;
    RunWF(ss, steps, n, i);
    if i == 0 {
      NoneInStory(ss[0], n);
    } else {
      RunInStory(ss, steps, n, i - 1);
      assert Next(ss[i - 1], steps[i - 1], ss[i]);
      StepInStory(ss[i - 1], steps[i - 1]);
    }
  }

  lemma NoneInStory(s: State, n: nat)
    requires Init(s, n)
    ensures AllInStory(s.conns)
  {
  }

  /** In every run of the scheduler the reports read on a connection are a prefix of RUN and
      one end, or the one failed fork, for each job sent on it, in order. */
  lemma HeardIsStory(ss: seq<State>, steps: seq<Step>, n: nat, i: nat, t: nat)
    requires Run(ss, steps, n) && i < |ss| && t < |ss[i].conns|
    ensures var c := ss[i].conns[t]; |c.ends| == |c.sent| && c.heard <= S.Story(Ids(c.sent), c.ends)
  {
    RunInStory(ss, steps, n, i);
    var c := ss[i].conns[t];
    assert InStory(c);
    StoryToHere(c);
  }

  /** What was read is a prefix of the whole story. */
  lemma StoryToHere(c: Conn)
    requires InStory(c)
    ensures c.heard <= S.Story(Ids(c.sent), c.ends)
  {
    hide S.Story, Ids;
    var f, ids := Done(c), Ids(c.sent);
    assert c.ends[..|c.ends|] == c.ends;
    StoryGrows(ids, c.ends, f, |c.ends|);
    if c.inbox != [] && c.inbox[0].started {
      BegunNext(c);
      StoryGrows(ids, c.ends, f + 1, |c.ends|);
      hide InStory, Begun;
    }
  }

  /** A RUN that was read is the first report of the next job. */
  lemma BegunNext(c: Conn)
    requires InStory(c) && c.inbox != [] && c.inbox[0].started
    ensures c.heard <= S.Story(Ids(c.sent), c.ends[..Done(c) + 1])
  {
    var f, ids := Done(c), Ids(c.sent);
    assert BatchIs(c.inbox[0], c.sent[f], c.ends[f]);
    S.StoryPush(ids, c.ends[..f], c.ends[f]);
    assert c.ends[..f + 1] == c.ends[..f] + [c.ends[f]];
    assert Begun(c.inbox) <= ReportsOf(ids[f], c.ends[f]);
    hide S.Story, Ids, ReportsOf, BatchIs, Begun;
  }

  lemma {:induction false} StoryGrows(ids: seq<uint16>, outs: seq<Outcome>, a: nat, b: nat)
    requires a <= b <= |outs| <= |ids|
    ensures S.Story(ids, outs[..a]) <= S.Story(ids, outs[..b])
  {
    if a < b {
      StoryGrows(ids, outs, a, b - 1);
      S.StoryPush(ids, outs[..b - 1], outs[b - 1]);
      assert outs[..b] == outs[..b - 1] + [outs[b - 1]];
    }
  }

  /** A session with an exec server is such a connection: for some way in which the jobs given
      end, what the main server has heard is a prefix of their story. */
  lemma SessionIsStory(ss: seq<S.Session>, steps: seq<S.Step>, i: nat) returns (ends: seq<Outcome>)
    requires S.Run(ss, steps) && i < |ss|
    ensures |ends| == |ss[i].given| && ss[i].ended <= ends && ss[i].heard <= S.Story(ss[i].given, ends)
  {
    var s := ss[i];
    S.ReportsTellTheStory(ss, steps, i);
    S.StaysInStep(ss, steps, i);
    S.RunKeeps(ss, steps, i);
    hide S.Lockstep, S.JobIds, S.Reports, S.Run, S.Story;
    S.StoryPrefix(s.taken, s.given[|s.taken|..], s.ended);
    assert s.taken + s.given[|s.taken|..] == s.given;
    if |s.given| == |s.ended| {
      ends := s.ended;
    } else {
      ends := s.ended + [Exits(0)];
      S.StoryPush(s.given, s.ended, Exits(0));
    }
  }
}
