/** What an exec server can read from its connection: exactly the messages the main server
    wrote completely. A job that is put back has left at most a cut message behind, on a
    connection that carries nothing more. */
module Delivery {
  import opened Jobs
  import opened Codec
  import opened Scheduler
  import opened Conservation
  import F = Framing

  /** The handler may still write to its connection. */
  predicate MayWrite(pc: Pc) {
    !(pc.Returning? || (pc.Putting? && pc.back) || pc.Marking? || pc.Freeing? || pc.Closed?)
  }

  predicate IsJobFrame(f: Bytes) {
    |f| >= SZ_HEADER && f[4] in {SENDJOB_NOINTER, SENDJOB_INTER}
  }

  /** The job messages among the messages of a connection. */
  function JobFrames(fs: seq<Bytes>): seq<Bytes> {
    if fs == [] then []
    else JobFrames(fs[..|fs| - 1]) + if IsJobFrame(fs[|fs| - 1]) then [fs[|fs| - 1]] else []
  }

  lemma JobFramesPush(fs: seq<Bytes>, f: Bytes)
    ensures JobFrames(fs + [f]) == JobFrames(fs) + if IsJobFrame(f) then [f] else []
  {
    assert (fs + [f])[..|fs|] == fs;
  }

  function FramesOf(jobs: seq<Job>): (fs: seq<Bytes>)
    ensures |fs| == |jobs| && forall i :: 0 <= i < |fs| ==> fs[i] == JobFrame(jobs[i])
  {
    seq(|jobs|, i requires 0 <= i < |jobs| => JobFrame(jobs[i]))
  }

  /** What was written is the complete messages plus at most a cut one, which ends the writing. */
  predicate WireOk(c: Conn, writing: bool) {
    && F.AllFrames(c.frames)
    && F.Concat(c.frames) <= c.wire
    && !F.HasFrame(c.wire[|F.Concat(c.frames)|..])
    && (writing ==> c.wire == F.Concat(c.frames))
    && JobFrames(c.frames) == FramesOf(c.sent)
  }

  predicate WiresOk(s: State) {
    |s.conns| == |s.threads|
    && forall t :: 0 <= t < |s.conns| ==> WireOk(s.conns[t], MayWrite(s.threads[t]))
  }

  /** Writing a whole message. */
  lemma WriteFrame(c: Conn, f: Bytes)
    requires WireOk(c, true) && F.IsFrame(f)
    ensures F.AllFrames(c.frames + [f]) && F.Concat(c.frames + [f]) == c.wire + f
    ensures c.wire + f[..|f|] == c.wire + f
    ensures JobFrames(c.frames + [f]) == FramesOf(c.sent) + if IsJobFrame(f) then [f] else []
  {
    F.ConcatAppend(c.frames, f);
    JobFramesPush(c.frames, f);
    assert f[..|f|] == f;
  }

  /** Writing a part of a message. */
  lemma WriteCut(c: Conn, f: Bytes, k: nat)
    requires WireOk(c, true) && F.IsFrame(f) && k < |f|
    ensures WireOk(c.(wire := c.wire + f[..k]), false)
  {
    F.CutIsIncomplete(f, k);
    assert (c.wire + f[..k])[|F.Concat(c.frames)|..] == f[..k];
  }

  lemma CheckWire(s: State, t: nat, k: nat, acked: bool)
    requires WF(s) && t < |s.threads| && s.threads[t].Holding? && k <= |CheckFrame()| && WiresOk(s)
    requires acked ==> k == |CheckFrame()|
    ensures WireOk(DoCheck(s, t, k, acked).conns[t], acked)
    ensures MayWrite(DoCheck(s, t, k, acked).threads[t]) <==> acked
  {
    var c := s.conns[t];
    if k == |CheckFrame()| {
      WriteFrame(c, CheckFrame());
    } else {
      WriteCut(c, CheckFrame(), k);
    }
  }

  lemma SendWire(s: State, t: nat, k: nat, o: Outcome)
    requires WF(s) && Enabled(s, SendJob(t, k, o)) && WiresOk(s)
    ensures WireOk(DoSend(s, t, k, o).conns[t], k == |JobFrame(s.threads[t].job)|)
    ensures MayWrite(DoSend(s, t, k, o).threads[t]) <==> k == |JobFrame(s.threads[t].job)|
  {
    hide ReportsOf;
    var c, job := s.conns[t], s.threads[t].job;
    if k < |JobFrame(job)| {
      WriteCut(c, JobFrame(job), k);
    } else {
      WriteFrame(c, JobFrame(job));
      assert FramesOf(c.sent + [job]) == FramesOf(c.sent) + [JobFrame(job)];
    }
  }

  lemma StepWires(s: State, step: Step)
    requires WF(s) && Enabled(s, step) && InRing(s, step) && WiresOk(s)
    ensures WiresOk(Apply(s, step))
  {
    hide F.Concat, JobFrames, FramesOf;
    hide DoAccept, DoPut, DoGet, DoSend, DoReport, DoRemove, DoMark, DoBackMark, DoLook, DoCheck;
    if step.Connect? {
      NewConnOk();
    } else {
      Others(s, step);
      var t := step.t;
      assert WireOk(s.conns[t], MayWrite(s.threads[t]));
      match step
      case CheckFails(_, k) => CheckWire(s, t, k, false);
      case Acked(_) => CheckWire(s, t, |CheckFrame()|, true);
      case SendJob(_, k, o) => SendWire(s, t, k, o);
      case _ => QuietWire(s, step);
    }
  }

  lemma NewConnOk()
    ensures WireOk(NEW_CONN, true)
  {
    assert FramesOf([]) == [];
  }

  /** Every other step leaves the connection of its thread as it was written, and never lets
      a handler that is putting a job back write again. */
  lemma QuietWire(s: State, step: Step)
    requires WF(s) && Enabled(s, step) && InRing(s, step) && WiresOk(s) && !step.Connect?
    requires !step.CheckFails? && !step.Acked? && !step.SendJob?
    ensures var s' := Apply(s, step);
            && s'.conns[step.t].wire == s.conns[step.t].wire
            && s'.conns[step.t].frames == s.conns[step.t].frames
            && s'.conns[step.t].sent == s.conns[step.t].sent
            && (MayWrite(s'.threads[step.t]) ==> MayWrite(s.threads[step.t]))
  {
  }

  lemma {:induction false} RunWires(ss: seq<State>, steps: seq<Step>, n: nat, i: nat)
    requires Run(ss, steps, n) && i < |ss|
    ensures WF(ss[i]) && WiresOk(ss[i])
  {
    RunWF(ss, steps, n, i);
    if i > 0 {
      RunWires(ss, steps, n, i - 1);
      assert Next(ss[i - 1], steps[i - 1], ss[i]);
      StepWires(ss[i - 1], steps[i - 1]);
    }
  }

  /** At-most-once delivery in terms of bytes: whatever an exec server decodes from its
      connection, the job messages in it are those of the jobs counted as sent, and no job
      is sent on two connections or twice on one. */
  lemma JobMessagesAreDistinct(ss: seq<State>, steps: seq<Step>, n: nat, i: nat)
    requires Run(ss, steps, n) && i < |ss|
    ensures forall t :: 0 <= t < |ss[i].conns| ==>
              JobFrames(F.Parse(ss[i].conns[t].wire).0) == FramesOf(ss[i].conns[t].sent)
    ensures forall t, a, u, b ::
              (0 <= t < |ss[i].conns| && 0 <= u < |ss[i].conns|
               && 0 <= a < |ss[i].conns[t].sent| && 0 <= b < |ss[i].conns[u].sent|
               && ss[i].conns[t].sent[a] == ss[i].conns[u].sent[b]) ==> t == u && a == b
  {
    RunWires(ss, steps, n, i);
    forall t | 0 <= t < |ss[i].conns|
      ensures JobFrames(F.Parse(ss[i].conns[t].wire).0) == FramesOf(ss[i].conns[t].sent)
    {
      var c := ss[i].conns[t];
      assert WireOk(c, MayWrite(ss[i].threads[t]));
      var m := |F.Concat(c.frames)|;
      F.ParseConcat(c.frames, c.wire[m..]);
      assert c.wire == F.Concat(c.frames) + c.wire[m..];
    }
    forall t, a, u, b | 0 <= t < |ss[i].conns| && 0 <= u < |ss[i].conns|
              && 0 <= a < |ss[i].conns[t].sent| && 0 <= b < |ss[i].conns[u].sent|
              && ss[i].conns[t].sent[a] == ss[i].conns[u].sent[b]
      ensures t == u && a == b
    {
      DeliveredAtMostOnce(ss, steps, n, i, t, a, u, b);
    }
  }

  // ---------------------------------------------------------------- ended handlers

  lemma StepClosed(s: State, step: Step, t: nat)
    requires WF(s) && Enabled(s, step) && InRing(s, step) && t < |s.threads|
    requires s.threads[t] == Closed || step == Hangup(t)
    ensures t < |Apply(s, step).threads| && Apply(s, step).threads[t] == Closed
    ensures t < |Apply(s, step).conns| && (t < |s.conns| ==> Apply(s, step).conns[t] == s.conns[t])
  {
    StepWF(s, step);
    if !step.Connect? && step != Hangup(t) {
      Others(s, step);
      hide Apply;
    }
  }

  /** A handler whose peer has hung up is never heard of again: it stays closed, and nothing more
      is written to or read from its connection. */
  lemma {:induction false} HungUpStaysClosed(ss: seq<State>, steps: seq<Step>, n: nat, i: nat, m: nat, t: nat)
    requires Run(ss, steps, n) && i < m < |ss| && steps[i] == Hangup(t)
    ensures t < |ss[i].conns| && t < |ss[m].threads| && ss[m].threads[t] == Closed
    ensures t < |ss[m].conns| && ss[m].conns[t] == ss[i].conns[t]
  {
    hide Apply, InRing, Safe;
    RunWF(ss, steps, n, m - 1);
    RunWF(ss, steps, n, i);
    assert Next(ss[i], steps[i], ss[i + 1]);
    assert Next(ss[m - 1], steps[m - 1], ss[m]);
    if i < m - 1 {
      HungUpStaysClosed(ss, steps, n, i, m - 1, t);
    }
    StepClosed(ss[m - 1], steps[m - 1], t);
  }
}
