/** The two condition variables of one queue (put_condv and get_condv), as a step relation
    over the threads that wait on them. Every critical section is one step; a thread that
    was signalled competes for the mutex with threads that just arrived, and may also be
    woken without a signal. The behaviour of wait and signal is that of pthread_cond_wait
    and pthread_cond_signal in IEEE Std 1003.1-2017: a signal unblocks at least one of the
    threads that are blocked, if any is. */
module Monitor {

  /** `occupancy` of fifteen slots, and for each side the threads that are blocked in the
      wait and those that were woken but have not run again. */
  datatype Monitor = Monitor(
    occupancy: nat,
    parkedGet: set<nat>, wokenGet: set<nat>,
    parkedPut: set<nat>, wokenPut: set<nat>)

  /** `woken` is what one signal may unblock. */
  predicate Signal(parked: set<nat>, woken: set<nat>) {
    woken <= parked && (parked != {} ==> woken != {})
  }

  /** Any one of the blocked threads may be the one, and more than one may. */
  lemma AnyMayWake(parked: set<nat>, woken: set<nat>)
    requires woken <= parked
    ensures Signal(parked, woken) <==> parked == {} || woken != {}
  {
  }

  /** A thread takes the mutex to put: it waits if the queue is full. */
  predicate PutStep(m: Monitor, m': Monitor, t: nat, w: set<nat>) {
    && t !in m.parkedPut
    && if m.occupancy == 15 then
         m' == m.(parkedPut := m.parkedPut + {t}, wokenPut := m.wokenPut - {t})
       else
         Signal(m.parkedGet, w) &&
         m' == Monitor(m.occupancy + 1, m.parkedGet - w, m.wokenGet + w, m.parkedPut, m.wokenPut - {t})
  }

  /** A thread takes the mutex to get: it waits if the queue is empty. */
  predicate GetStep(m: Monitor, m': Monitor, t: nat, w: set<nat>) {
    && t !in m.parkedGet
    && if m.occupancy == 0 then
         m' == m.(parkedGet := m.parkedGet + {t}, wokenGet := m.wokenGet - {t})
       else
         Signal(m.parkedPut, w) &&
         m' == Monitor(m.occupancy - 1, m.parkedGet, m.wokenGet - {t}, m.parkedPut - w, m.wokenPut + w)
  }

  /** removeJob: never waits, and signals put_condv when the queue was not empty. */
  predicate RemoveStep(m: Monitor, m': Monitor, w: set<nat>) {
    if m.occupancy == 0 then m' == m
    else
      Signal(m.parkedPut, w) &&
      m' == m.(occupancy := m.occupancy - 1, parkedPut := m.parkedPut - w, wokenPut := m.wokenPut + w)
  }

  /** A wait returns without a signal. */
  predicate SpuriousStep(m: Monitor, m': Monitor, t: nat) {
    || (t in m.parkedGet && m' == m.(parkedGet := m.parkedGet - {t}, wokenGet := m.wokenGet + {t}))
    || (t in m.parkedPut && m' == m.(parkedPut := m.parkedPut - {t}, wokenPut := m.wokenPut + {t}))
  }

  datatype Step = PutBy(t: nat, w: set<nat>) | GetBy(t: nat, w: set<nat>) | RemoveBy(w: set<nat>)
                | Spurious(t: nat) | Other

  predicate Next(m: Monitor, m': Monitor, step: Step) {
    match step
    case PutBy(t, w) => PutStep(m, m', t, w)
    case GetBy(t, w) => GetStep(m, m', t, w)
    case RemoveBy(w) => RemoveStep(m, m', w)
    case Spurious(t) => SpuriousStep(m, m', t)
    case Other => m' == m
  }

  /** No wakeup is lost: while a consumer is blocked, every queued job has a woken consumer
      to fetch it, and while a producer is blocked, every free slot has a woken producer. */
  predicate NoLostWakeup(m: Monitor) {
    && m.occupancy <= 15
    && m.parkedGet !! m.wokenGet && m.parkedPut !! m.wokenPut
    && (m.parkedGet != {} ==> m.occupancy <= |m.wokenGet|)
    && (m.parkedPut != {} ==> 15 - m.occupancy <= |m.wokenPut|)
  }

  lemma Less(s: set<nat>, t: nat)
    ensures |s - {t}| >= |s| - 1
  {
    if t in s {
      assert s == (s - {t}) + {t};
    }
  }

  /** What a signal does for its own side: it unblocks everyone or adds a woken thread. */
  lemma SignalWakes(parked: set<nat>, woken: set<nat>, w: set<nat>)
    requires parked !! woken && Signal(parked, w)
    ensures (parked - w) !! (woken + w)
    ensures parked != {} ==> |woken + w| >= |woken| + 1
    ensures |woken + w| >= |woken|
  {
    assert woken !! w;
    assert |woken + w| == |woken| + |w|;
    if parked != {} {
      var t :| t in w;
      assert |w| >= 1;
    }
  }

  lemma PutKeeps(m: Monitor, m': Monitor, t: nat, w: set<nat>)
    requires NoLostWakeup(m) && PutStep(m, m', t, w)
    ensures NoLostWakeup(m')
  {
    Less(m.wokenPut, t);
    if m.occupancy < 15 {
      SignalWakes(m.parkedGet, m.wokenGet, w);
    }
  }

  lemma GetKeeps(m: Monitor, m': Monitor, t: nat, w: set<nat>)
    requires NoLostWakeup(m) && GetStep(m, m', t, w)
    ensures NoLostWakeup(m')
  {
    Less(m.wokenGet, t);
    if m.occupancy > 0 {
      SignalWakes(m.parkedPut, m.wokenPut, w);
    }
  }

  lemma RemoveKeeps(m: Monitor, m': Monitor, w: set<nat>)
    requires NoLostWakeup(m) && RemoveStep(m, m', w)
    ensures NoLostWakeup(m')
  {
    if m.occupancy > 0 {
      SignalWakes(m.parkedPut, m.wokenPut, w);
    }
  }

  lemma SpuriousKeeps(m: Monitor, m': Monitor, t: nat)
    requires NoLostWakeup(m) && SpuriousStep(m, m', t)
    ensures NoLostWakeup(m')
  {
    if m'.occupancy == m.occupancy && m'.parkedPut == m.parkedPut && m'.wokenPut == m.wokenPut {
      assert |m'.wokenGet| >= |m.wokenGet|;
    } else {
      assert |m'.wokenPut| >= |m.wokenPut|;
    }
  }

  lemma StepKeepsWakeups(m: Monitor, m': Monitor, step: Step)
    requires NoLostWakeup(m) && Next(m, m', step)
    ensures NoLostWakeup(m')
  {
    match step
    case PutBy(t, w) => PutKeeps(m, m', t, w);
    case GetBy(t, w) => GetKeeps(m, m', t, w);
    case RemoveBy(w) => RemoveKeeps(m, m', w);
    case Spurious(t) => SpuriousKeeps(m, m', t);
    case Other =>
  }

  /** The two sides are never stuck together: someone blocked on one side and nobody woken
      there, and likewise on the other, cannot both happen. */
  lemma NeverBothStuck(m: Monitor)
    requires NoLostWakeup(m)
    ensures m.parkedGet == {} || m.wokenGet != {} || m.occupancy == 0
    ensures m.parkedPut == {} || m.wokenPut != {} || m.occupancy == 15
    ensures !(m.parkedGet != {} && m.wokenGet == {} && m.parkedPut != {} && m.wokenPut == {})
  {
  }
}
