/** From a client's submission to the message an exec server gets: whose payload a job carries,
    what its record knows of it, and what is sent for it. */
module Submissions {
  import opened Words
  import opened Jobs
  import opened Codec
  import opened Scheduler
  import opened Conservation
  import opened Memory
  import opened Delivery
  import R = Ring
  import H = History
  import F = Framing

  // ---------------------------------------------------------------- the payload of a job

  /** A handler with a ticket took it just now or had it before. */
  lemma StepTicketed(s: State, step: Step, t: nat)
    requires WF(s) && Enabled(s, step) && InRing(s, step)
    requires t < |Apply(s, step).threads| && Apply(s, step).threads[t].Ticketed?
    ensures || (step.TakeTicket? && step.t == t && step.payload == Apply(s, step).threads[t].payload)
            || (t < |s.threads| && s.threads[t] == Apply(s, step).threads[t])
  {
    if !step.Connect? {
      Others(s, step);
      if t == step.t {
        OwnTicket(s, step);
      }
      hide Apply;
    }
  }

  lemma OwnTicket(s: State, step: Step)
    requires WF(s) && Enabled(s, step) && InRing(s, step) && !step.Connect?
    requires |Apply(s, step).threads| == |s.threads| && Apply(s, step).threads[step.t].Ticketed?
    ensures step.TakeTicket? && step.payload == Apply(s, step).threads[step.t].payload
  {
    hide H.Find, R.Put, R.Get, R.Remove, R.Victim, Matches, Wake;
  }

  /** The ticket of a handler was taken for the submission that it holds, and nothing happened to
      the handler since. */
  lemma {:induction false} TicketedSince(ss: seq<State>, steps: seq<Step>, n: nat, i: nat, t: nat) returns (i0: nat)
    requires Run(ss, steps, n) && i < |ss| && t < |ss[i].threads| && ss[i].threads[t].Ticketed?
    ensures i0 < i && steps[i0] == TakeTicket(t, ss[i].threads[t].payload)
    ensures forall m :: i0 < m <= i ==> t < |ss[m].threads| && ss[m].threads[t] == ss[i].threads[t]
  {
    hide Apply, InRing, Safe, WF, Enabled;
    assert i > 0 by { NoneTicketed(ss[0], n, t); }
    assert Next(ss[i - 1], steps[i - 1], ss[i]);
    StepTicketed(ss[i - 1], steps[i - 1], t);
    if steps[i - 1] == TakeTicket(t, ss[i].threads[t].payload) {
      i0 := i - 1;
    } else {
      i0 := TicketedSince(ss, steps, n, i - 1, t);
    }
  }

  lemma NoneTicketed(s: State, n: nat, t: nat)
    ensures Init(s, n) ==> t >= |s.threads|
  {
  }

  /** Only newJob accepts a job. */
  lemma StepAccepts(s: State, step: Step)
    requires WF(s) && Enabled(s, step) && InRing(s, step)
    ensures if step.Accept? then
              && s.threads[step.t].Ticketed?
              && Apply(s, step).accepted ==
                 s.accepted + [Job(|s.accepted|, H.IdOf(|s.accepted|), s.threads[step.t].payload)]
            else Apply(s, step).accepted == s.accepted
  {
    H.WrappedId(|s.accepted|);
    hide H.Find, R.Put, R.Get, R.Remove;
  }

  /** Every job has the payload that a client submitted: a handler took a ticket for it, and the
      next thing that happened to this handler was that the job was accepted. */
  lemma {:induction false} JobWasSubmitted(ss: seq<State>, steps: seq<Step>, n: nat, i: nat, k: nat) returns (i0: nat, i1: nat)
    requires Run(ss, steps, n) && i < |ss| && k < |ss[i].accepted|
    ensures i0 < i1 < i && steps[i0].TakeTicket? && steps[i1].Accept? && steps[i1].t == steps[i0].t
    ensures |ss[i1].accepted| == k && ss[i].accepted[k] == Job(k, H.IdOf(k), steps[i0].payload)
    ensures forall m :: i0 < m <= i1 ==> steps[i0].t < |ss[m].threads| && steps[i0].t < |ss[i1].threads|
                                         && ss[m].threads[steps[i0].t] == ss[i1].threads[steps[i0].t]
  {
    hide Apply, InRing, Safe, WF;
    assert i > 0 by { NoneAccepted(ss[0], n); }
    assert Next(ss[i - 1], steps[i - 1], ss[i]);
    StepAccepts(ss[i - 1], steps[i - 1]);
    if k < |ss[i - 1].accepted| {
      i0, i1 := JobWasSubmitted(ss, steps, n, i - 1, k);
    } else {
      i1 := i - 1;
      TicketHolder(ss[i1], steps[i1]);
      i0 := TicketedSince(ss, steps, n, i1, steps[i1].t);
    }
  }

  lemma TicketHolder(s: State, step: Step)
    requires Enabled(s, step) && step.Accept?
    ensures step.t < |s.threads| && s.threads[step.t].Ticketed?
  {
  }

  lemma NoneAccepted(s: State, n: nat)
    ensures Init(s, n) ==> s.accepted == []
  {
  }

  /** What the client is told when its job is accepted. */
  function SubmitAnswer(s: State, t: nat): (m: Msg)
    requires WF(s) && t < |s.threads| && s.threads[t].Ticketed?
    ensures WellFormed(m)
  {
    SubResp(H.NewRecord(s.hist, 0, 0, 0).id)
  }

  /** The id it is told is that of its job, and with it the client can ask at once: its job is
      waiting. */
  lemma AnswerNamesJob(s: State, t: nat, exit0: byte)
    requires WF(s) && Enabled(s, Accept(t, exit0))
    ensures var s', id := DoAccept(s, t, exit0), H.IdOf(|s.accepted|);
            && |s'.accepted| == |s.accepted| + 1 && s'.accepted[|s.accepted|].id == id && |s'.hist.slots| == 10
            && Encode(SubmitAnswer(s, t)) == [0, 7, 0x80, 1, 2, id / 256, id % 256]
            && Encode(JobAnswer(s', id)) == [0, 9, 0x80, 1, 4, 0, id / 256, id % 256, exit0]
  {
    var s', n := DoAccept(s, t, exit0), |s.accepted|;
    var id := H.IdOf(n);
    H.WrappedId(n);
    AcceptWF(s, t, exit0);
    H.RetainedStep(n, n);
    H.FindRetained(s'.hist, n + 1, n);
    ClientBytes(0, id, exit0, 0);
    hide Encode, H.Find, H.Occupant, H.Agrees, QueuesOk, ThreadsOk;
  }

  // ---------------------------------------------------------------- the messages

  lemma SentIsAccepted(s: State, t: nat, a: nat)
    requires MemOk(s) && t < |s.conns| && a < |s.conns[t].sent|
    ensures var j := s.conns[t].sent[a]; j.addr < |s.accepted| && s.accepted[j.addr] == j
  {
    var j := s.conns[t].sent[a];
    CountIn(s.conns[t].sent, j);
    SumHas(SentOn(s.conns, j), t);
    assert SentOn(s.conns, j)[t] > 0;
    assert Conserved(s, j);
    Known(s, j);
  }

  /** The a-th job message that can be read from the bytes on a connection decodes to the id and
      the paths, and for an interactive job port and address, of a submission: that of the
      a-th job sent. */
  lemma MessageIsSubmission(ss: seq<State>, steps: seq<Step>, n: nat, i: nat, t: nat, a: nat) returns (i0: nat)
    requires Run(ss, steps, n) && i < |ss| && t < |ss[i].conns|
    requires a < |JobFrames(F.Parse(ss[i].conns[t].wire).0)|
    ensures a < |ss[i].conns[t].sent| && ss[i].conns[t].sent[a] in ss[i].accepted
    ensures i0 < i && steps[i0].TakeTicket? && ss[i].conns[t].sent[a].payload == steps[i0].payload
    ensures var f := JobFrames(F.Parse(ss[i].conns[t].wire).0)[a];
            && |f| >= 5 && Decode(f).Some?
            && Describes(Decode(f).value, ss[i].conns[t].sent[a].id, steps[i0].payload)
  {
    JobMessagesAreDistinct(ss, steps, n, i);
    RunMem(ss, steps, n, i);
    hide Describes, MemOk, JobFrames;
    var job := ss[i].conns[t].sent[a];
    SentIsAccepted(ss[i], t, a);
    var k, i1 := JobWasSubmitted(ss, steps, n, i, job.addr);
    i0 := k;
    JobFrameTells(job);
  }

  // ---------------------------------------------------------------- a check before every job

  predicate IsCheck(f: Bytes) {
    f == [0, 5, 0x80, 1, 11]
  }

  /** Every job message follows a check, and a handler whose check was answered has just sent one. */
  predicate Probed(c: Conn, pc: Pc) {
    && (forall m :: 0 <= m < |c.frames| && IsJobFrame(c.frames[m]) ==> m > 0 && IsCheck(c.frames[m - 1]))
    && (pc.Checked? ==> c.frames != [] && IsCheck(c.frames[|c.frames| - 1]))
  }

  predicate AllProbed(s: State) {
    |s.conns| == |s.threads| && forall t :: 0 <= t < |s.conns| ==> Probed(s.conns[t], s.threads[t])
  }

  lemma ProbeCheck(s: State, t: nat, k: nat, acked: bool)
    requires WF(s) && t < |s.threads| && s.threads[t].Holding? && k <= |CheckFrame()| && Probed(s.conns[t], s.threads[t])
    requires acked ==> k == |CheckFrame()|
    ensures Probed(DoCheck(s, t, k, acked).conns[t], DoCheck(s, t, k, acked).threads[t])
  {
    assert !IsJobFrame(CheckFrame());
  }

  lemma ProbeSend(s: State, t: nat, k: nat, o: Outcome)
    requires WF(s) && Enabled(s, SendJob(t, k, o)) && Probed(s.conns[t], s.threads[t])
    ensures Probed(DoSend(s, t, k, o).conns[t], DoSend(s, t, k, o).threads[t])
  {
    hide JobFrame, ReportsOf;
  }

  /** Steps that write nothing come from no answered check and lead to none. */
  lemma ProbeQuiet(s: State, step: Step)
    requires WF(s) && Enabled(s, step) && InRing(s, step) && !step.Connect?
    requires !step.CheckFails? && !step.Acked? && !step.SendJob?
    ensures Apply(s, step).conns[step.t].frames == s.conns[step.t].frames && !Apply(s, step).threads[step.t].Checked?
  {
    hide H.Find, R.Put, R.Get, R.Remove, R.Victim, Matches, Wake;
  }

  lemma StepProbed(s: State, step: Step)
    requires WF(s) && AllProbed(s) && Enabled(s, step) && InRing(s, step)
    ensures AllProbed(Apply(s, step))
  {
    hide DoAccept, DoPut, DoGet, DoSend, DoReport, DoRemove, DoMark, DoBackMark, DoLook, DoCheck, IsCheck, IsJobFrame;
    if step.Connect? {
    } else {
      StepWF(s, step);
      Others(s, step);
      assert Probed(s.conns[step.t], s.threads[step.t]);
      if step.CheckFails? {
        ProbeCheck(s, step.t, step.k, false);
      } else if step.Acked? {
        ProbeCheck(s, step.t, |CheckFrame()|, true);
      } else if step.SendJob? {
        ProbeSend(s, step.t, step.k, step.o);
      } else {
        ProbeQuiet(s, step);
      }
      hide Apply;
    }
  }

  lemma {:induction false} RunProbed(ss: seq<State>, steps: seq<Step>, n: nat, i: nat)
    requires Run(ss, steps, n) && i < |ss|
    ensures AllProbed(ss[i])
  {
    hide AllProbed, Apply, InRing, Safe;
    RunWF(ss, steps, n, i);
    if i == 0 {
      NoneProbed(ss[0], n);
    } else {
      RunWF(ss, steps, n, i - 1);
      RunProbed(ss, steps, n, i - 1);
      assert Next(ss[i - 1], steps[i - 1], ss[i]);
      StepProbed(ss[i - 1], steps[i - 1]);
    }
  }

  lemma NoneProbed(s: State, n: nat)
    requires Init(s, n)
    ensures AllProbed(s)
  {
  }

  /** No exec server is sent a job unasked: in the bytes on a connection every job message comes
      right after a check. */
  lemma CheckedBeforeSent(ss: seq<State>, steps: seq<Step>, n: nat, i: nat, t: nat, m: nat)
    requires Run(ss, steps, n) && i < |ss| && t < |ss[i].conns|
    requires m < |F.Parse(ss[i].conns[t].wire).0|
    requires var f := F.Parse(ss[i].conns[t].wire).0[m]; |f| >= 5 && f[4] in {9, 10}
    ensures m > 0 && F.Parse(ss[i].conns[t].wire).0[m - 1] == [0, 5, 0x80, 1, 11]
  {
    RunProbed(ss, steps, n, i);
    RunWires(ss, steps, n, i);
    hide Run, WireOk, Probed;
    var c, pc := ss[i].conns[t], ss[i].threads[t];
    ReadsFrames(c, MayWrite(pc));
    assert Probed(c, pc);
    FollowsCheck(c, pc, m);
  }

  /** What can be read from a connection is the messages written completely. */
  lemma ReadsFrames(c: Conn, writing: bool)
    requires WireOk(c, writing)
    ensures F.Parse(c.wire).0 == c.frames
  {
    var k := |F.Concat(c.frames)|;
    F.ParseConcat(c.frames, c.wire[k..]);
    assert c.wire == F.Concat(c.frames) + c.wire[k..];
  }

  lemma FollowsCheck(c: Conn, pc: Pc, m: nat)
    requires Probed(c, pc) && m < |c.frames| && |c.frames[m]| >= 5 && c.frames[m][4] in {9, 10}
    ensures m > 0 && c.frames[m - 1] == [0, 5, 0x80, 1, 11]
  {
    assert IsJobFrame(c.frames[m]);
  }

  // ---------------------------------------------------------------- the address in a record

  /** The record of a job has the address of the client that submitted it. */
  ghost predicate AddressesOk(s: State) {
    && WF(s)
    && forall k: nat :: H.Retained(|s.accepted|, k) ==>
         s.hist.slots[H.SlotFor(k)].Some? && k < |s.accepted|
         && s.hist.slots[H.SlotFor(k)].value.ipaddr == s.accepted[k].payload.ipaddr
  }

  /** No step but newJob writes an address. */
  lemma AddressUnwritten(s: State, step: Step)
    requires WF(s) && Enabled(s, step) && InRing(s, step) && !step.Accept?
    ensures var s' := Apply(s, step);
            && s'.accepted == s.accepted && |s'.hist.slots| == 10
            && forall i :: 0 <= i < 10 && s.hist.slots[i].Some? ==>
                 s'.hist.slots[i].Some? && s'.hist.slots[i].value.ipaddr == s.hist.slots[i].value.ipaddr
  {
    hide H.Find;
  }

  lemma AcceptAddress(s: State, t: nat, exit0: byte, k: nat)
    requires AddressesOk(s) && Enabled(s, Accept(t, exit0)) && H.Retained(|s.accepted| + 1, k)
    ensures var s' := DoAccept(s, t, exit0);
            && k < |s'.accepted| && s'.hist.slots[H.SlotFor(k)].Some?
            && s'.hist.slots[H.SlotFor(k)].value.ipaddr == s'.accepted[k].payload.ipaddr
  {
    var n := |s.accepted|;
    H.WrappedId(n);
    H.RetainedStep(n, k);
  }

  lemma StepAddresses(s: State, step: Step)
    requires AddressesOk(s) && Enabled(s, step) && InRing(s, step)
    ensures AddressesOk(Apply(s, step))
  {
    StepWF(s, step);
    if step.Accept? {
      forall k: nat | H.Retained(|s.accepted| + 1, k)
        ensures var s' := DoAccept(s, step.t, step.exit0);
                && k < |s'.accepted| && s'.hist.slots[H.SlotFor(k)].Some?
                && s'.hist.slots[H.SlotFor(k)].value.ipaddr == s'.accepted[k].payload.ipaddr
      {
        AcceptAddress(s, step.t, step.exit0, k);
      }
      assert |DoAccept(s, step.t, step.exit0).accepted| == |s.accepted| + 1;
      hide H.Retained, DoAccept;
    } else {
      AddressUnwritten(s, step);
      hide H.Retained, Apply;
    }
  }

  /** In every run a retained record has the address of its job's client. */
  lemma {:induction false} RecordKnowsClient(ss: seq<State>, steps: seq<Step>, n: nat, i: nat, k: nat)
    requires Run(ss, steps, n) && i < |ss|
    ensures AddressesOk(ss[i])
    ensures H.Retained(|ss[i].accepted|, k) ==>
            k < |ss[i].accepted| && ss[i].hist.slots[H.SlotFor(k)].Some?
            && ss[i].hist.slots[H.SlotFor(k)].value.ipaddr == ss[i].accepted[k].payload.ipaddr
  {
    hide H.Retained, Apply, InRing, Safe;
    RunWF(ss, steps, n, i);
    if i == 0 {
      NoAddresses(ss[0], n);
    } else {
      RecordKnowsClient(ss, steps, n, i - 1, k);
      assert Next(ss[i - 1], steps[i - 1], ss[i]);
      StepAddresses(ss[i - 1], steps[i - 1]);
    }
  }

  lemma NoAddresses(s: State, n: nat)
    requires Init(s, n)
    ensures AddressesOk(s)
  {
    InitWF(s, n);
  }
}
