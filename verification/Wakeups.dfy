/** Every queue of the running main server behaves as the condition-variable monitor, so no
    wakeup is lost in any run, for any number of client and exec-server handlers. */
module Wakeups {
  import opened Scheduler
  import R = Ring
  import M = Monitor

  function WokenGet(threads: seq<Pc>, q: nat): set<nat> {
    set t | 0 <= t < |threads| && threads[t] == Getting(q, Woken)
  }

  function WokenPut(threads: seq<Pc>, q: nat): set<nat> {
    set t | 0 <= t < |threads| && threads[t].Putting? && threads[t].q == q && threads[t].wait == Woken
  }

  /** What the monitor of queue `q` sees of the state. */
  function View(s: State, q: nat): M.Monitor
    requires q < |s.queues|
  {
    M.Monitor(s.queues[q].Len(), ParkedGet(s.threads, q), WokenGet(s.threads, q),
              ParkedPut(s.threads, q), WokenPut(s.threads, q))
  }

  /** What a step of the server is to the monitor of queue `q`. */
  function StepOf(s: State, step: Step, q: nat): M.Step
    requires Enabled(s, step)
  {
    match step
    case Put(t, w) => if s.threads[t].q == q then M.PutBy(t, w) else M.Other
    case Get(t, w) => if s.threads[t].q == q then M.GetBy(t, w) else M.Other
    case Remove(t, w) => if s.threads[t].q == q then M.RemoveBy(w) else M.Other
    case Spurious(t) => if s.threads[t].q == q then M.Spurious(t) else M.Other
    case _ => M.Other
  }

  /** Whether a thread is in one of the four waiting sets of queue `q`. */
  predicate Involved(pc: Pc, q: nat) {
    ((pc.Getting? || pc.Putting?) && pc.q == q && pc.wait != Fresh)
  }

  /** Moving a thread that is and stays outside the waiting sets of `q`. */
  lemma Uninvolved(threads: seq<Pc>, t: nat, pc: Pc, q: nat)
    requires t < |threads| && !Involved(threads[t], q) && !Involved(pc, q)
    ensures ParkedGet(threads[t := pc], q) == ParkedGet(threads, q)
    ensures WokenGet(threads[t := pc], q) == WokenGet(threads, q)
    ensures ParkedPut(threads[t := pc], q) == ParkedPut(threads, q)
    ensures WokenPut(threads[t := pc], q) == WokenPut(threads, q)
  {
  }

  /** Signalling the getters of queue `p`, as queue `q` sees it. */
  lemma WakeGetters(threads: seq<Pc>, w: set<nat>, p: nat, q: nat)
    requires w <= ParkedGet(threads, p)
    ensures ParkedPut(Wake(threads, w), q) == ParkedPut(threads, q)
    ensures WokenPut(Wake(threads, w), q) == WokenPut(threads, q)
    ensures ParkedGet(Wake(threads, w), q) == if p == q then ParkedGet(threads, q) - w else ParkedGet(threads, q)
    ensures WokenGet(Wake(threads, w), q) == if p == q then WokenGet(threads, q) + w else WokenGet(threads, q)
  {
  }

  lemma WakePutters(threads: seq<Pc>, w: set<nat>, p: nat, q: nat)
    requires w <= ParkedPut(threads, p)
    ensures ParkedGet(Wake(threads, w), q) == ParkedGet(threads, q)
    ensures WokenGet(Wake(threads, w), q) == WokenGet(threads, q)
    ensures ParkedPut(Wake(threads, w), q) == if p == q then ParkedPut(threads, q) - w else ParkedPut(threads, q)
    ensures WokenPut(Wake(threads, w), q) == if p == q then WokenPut(threads, q) + w else WokenPut(threads, q)
  {
  }

  /** A putter of queue `q` that is not blocked moves on. */
  lemma PutterMoves(threads: seq<Pc>, t: nat, pc: Pc, q: nat)
    requires t < |threads| && threads[t].Putting? && threads[t].wait != Parked && threads[t].q == q
    requires !Involved(pc, q) || (pc.Putting? && pc.q == q && pc.wait == Parked)
    ensures ParkedGet(threads[t := pc], q) == ParkedGet(threads, q)
    ensures WokenGet(threads[t := pc], q) == WokenGet(threads, q)
    ensures ParkedPut(threads[t := pc], q) == ParkedPut(threads, q) + (if Involved(pc, q) then {t} else {})
    ensures WokenPut(threads[t := pc], q) == WokenPut(threads, q) - {t}
  {
  }

  lemma GetterMoves(threads: seq<Pc>, t: nat, pc: Pc, q: nat)
    requires t < |threads| && threads[t].Getting? && threads[t].wait != Parked && threads[t].q == q
    requires !Involved(pc, q) || pc == Getting(q, Parked)
    ensures ParkedPut(threads[t := pc], q) == ParkedPut(threads, q)
    ensures WokenPut(threads[t := pc], q) == WokenPut(threads, q)
    ensures ParkedGet(threads[t := pc], q) == ParkedGet(threads, q) + (if Involved(pc, q) then {t} else {})
    ensures WokenGet(threads[t := pc], q) == WokenGet(threads, q) - {t}
  {
  }

  lemma PutRefines(s: State, t: nat, w: set<nat>, q: nat)
    requires WF(s) && Enabled(s, Put(t, w)) && InRing(s, Put(t, w)) && q < |s.queues|
    ensures M.Next(View(s, q), View(DoPut(s, t, w), q), StepOf(s, Put(t, w), q))
  {
    hide R.Put, Wake, R.Ring.Contents;
    var Putting(p, job, back, wait) := s.threads[t];
    var s' := DoPut(s, t, w);
    var pc := s'.threads[t];
    if s.queues[p].Len() == 15 {
      if p == q { PutterMoves(s.threads, t, pc, q); } else { Uninvolved(s.threads, t, pc, q); }
    } else {
      var woken := Wake(s.threads, w);
      WakeGetters(s.threads, w, p, q);
      assert woken[t] == s.threads[t];
      R.LenSteps(s.queues[p], job);
      if p == q { PutterMoves(woken, t, pc, q); } else { Uninvolved(woken, t, pc, q); }
    }
  }

  lemma GetRefines(s: State, t: nat, w: set<nat>, q: nat)
    requires WF(s) && Enabled(s, Get(t, w)) && q < |s.queues|
    ensures M.Next(View(s, q), View(DoGet(s, t, w), q), StepOf(s, Get(t, w), q))
  {
    hide R.Get, Wake, R.Ring.Contents;
    var p := s.threads[t].q;
    var s' := DoGet(s, t, w);
    var pc := s'.threads[t];
    if s.queues[p].Len() == 0 {
      if p == q { GetterMoves(s.threads, t, pc, q); } else { Uninvolved(s.threads, t, pc, q); }
    } else {
      var woken := Wake(s.threads, w);
      WakePutters(s.threads, w, p, q);
      assert woken[t] == s.threads[t];
      R.LenSteps(s.queues[p], pc.job);
      if p == q { GetterMoves(woken, t, pc, q); } else { Uninvolved(woken, t, pc, q); }
    }
  }

  lemma RemoveRefines(s: State, t: nat, w: set<nat>, q: nat)
    requires WF(s) && Enabled(s, Remove(t, w)) && InRing(s, Remove(t, w)) && q < |s.queues|
    ensures M.Next(View(s, q), View(DoRemove(s, t, w), q), StepOf(s, Remove(t, w), q))
  {
    hide R.Remove, R.Victim, Matches, Wake, R.Ring.Contents;
    var Removing(id, p) := s.threads[t];
    var s' := DoRemove(s, t, w);
    var pc := s'.threads[t];
    if s.queues[p].Len() == 0 {
      Uninvolved(s.threads, t, pc, q);
    } else {
      var woken := Wake(s.threads, w);
      WakePutters(s.threads, w, p, q);
      assert woken[t] == s.threads[t];
      R.RemoveShape(s.queues[p], id);
      Uninvolved(woken, t, pc, q);
    }
  }

  lemma SpuriousRefines(s: State, t: nat, q: nat)
    requires WF(s) && Enabled(s, Spurious(t)) && q < |s.queues|
    ensures M.Next(View(s, q), View(Apply(s, Spurious(t)), q), StepOf(s, Spurious(t), q))
  {
    var threads, w := s.threads, {t};
    assert threads[t := WakeUp(threads[t])] == Wake(threads, w);
    var p := threads[t].q;
    if threads[t].Getting? {
      WakeGetters(threads, w, p, q);
    } else {
      WakePutters(threads, w, p, q);
    }
  }

  lemma OtherRefines(s: State, step: Step, q: nat)
    requires WF(s) && Enabled(s, step) && InRing(s, step) && q < |s.queues|
    requires !step.Put? && !step.Get? && !step.Remove? && !step.Spurious? && !step.Connect?
    ensures q < |Apply(s, step).queues| && View(s, q) == View(Apply(s, step), q)
  {
    var s' := Apply(s, step);
    assert s'.threads == s.threads[step.t := s'.threads[step.t]] && s'.queues == s.queues;
    Uninvolved(s.threads, step.t, s'.threads[step.t], q);
  }

  /** Refinement: each step of the server is a step of every queue's monitor. */
  lemma StepRefines(s: State, step: Step, q: nat)
    requires WF(s) && Enabled(s, step) && InRing(s, step) && q < |s.queues|
    ensures |Apply(s, step).queues| == |s.queues|
    ensures M.Next(View(s, q), View(Apply(s, step), q), StepOf(s, step, q))
  {
    hide DoAccept, DoPut, DoGet, DoSend, DoReport, DoRemove, DoMark, DoBackMark, DoLook, DoCheck;
    StepWF(s, step);
    match step
    case Put(t, w) => PutRefines(s, t, w, q);
    case Get(t, w) => GetRefines(s, t, w, q);
    case Remove(t, w) => RemoveRefines(s, t, w, q);
    case Spurious(t) => SpuriousRefines(s, t, q);
    case Connect => assert View(s, q) == View(Apply(s, step), q);
    case _ => OtherRefines(s, step, q);
  }

  /** In every run, at every point, no queue has lost a wakeup: while a handler is blocked
      for a job, each queued job has a woken handler to fetch it, and likewise for free
      slots; so handlers are never blocked on both sides of a queue with nobody woken. */
  lemma {:induction false} NoWakeupLost(ss: seq<State>, steps: seq<Step>, n: nat, i: nat, q: nat)
    requires Run(ss, steps, n) && i < |ss| && q < n
    ensures |ss[i].queues| == n && M.NoLostWakeup(View(ss[i], q))
    ensures !(ParkedGet(ss[i].threads, q) != {} && WokenGet(ss[i].threads, q) == {}
              && ParkedPut(ss[i].threads, q) != {} && WokenPut(ss[i].threads, q) == {})
  {
    hide View, StepOf, M.NoLostWakeup, M.Next, Apply, InRing, Safe, ParkedGet, ParkedPut, WokenGet, WokenPut;
    RunWF(ss, steps, n, i);
    if i == 0 {
      StartsAwake(ss[0], n, q);
    } else {
      NoWakeupLost(ss, steps, n, i - 1, q);
      assert Next(ss[i - 1], steps[i - 1], ss[i]);
      StepRefines(ss[i - 1], steps[i - 1], q);
      M.StepKeepsWakeups(View(ss[i - 1], q), View(ss[i], q), StepOf(ss[i - 1], steps[i - 1], q));
    }
    NeverBothStuck(ss[i], q);
  }

  lemma StartsAwake(s: State, n: nat, q: nat)
    requires Init(s, n) && q < n
    ensures M.NoLostWakeup(View(s, q))
  {
  }

  lemma NeverBothStuck(s: State, q: nat)
    requires q < |s.queues| && M.NoLostWakeup(View(s, q))
    ensures !(ParkedGet(s.threads, q) != {} && WokenGet(s.threads, q) == {}
              && ParkedPut(s.threads, q) != {} && WokenPut(s.threads, q) == {})
  {
    M.NeverBothStuck(View(s, q));
  }
}
