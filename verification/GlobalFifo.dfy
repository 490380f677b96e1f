/** N queues and two round-robin tickets as one queue: whoever gets with ticket k is served
    the job of whoever put with ticket k. A put or a get draws its ticket first and reaches
    its queue later, so this holds of the runs in which nobody overtakes on a queue. */
module GlobalFifo {
  import opened Words
  import opened Jobs
  import opened Scheduler
  import R = Ring
  import H = History

  /** The queue a ticket leads to: a 32-bit counter taken modulo the number of queues. */
  function QueueFor(k: nat, n: nat): nat
    requires n > 0
  {
    Wrap32(k) % n
  }

  /** The tickets below `m` that lead to queue `q`, in order. */
  function Tickets(q: nat, n: nat, m: nat): (ks: seq<nat>)
    requires n > 0
    ensures forall i :: 0 <= i < |ks| ==> ks[i] < m && QueueFor(ks[i], n) == q
    ensures forall i, j :: 0 <= i < j < |ks| ==> ks[i] < ks[j]
    ensures forall k: nat :: k < m && QueueFor(k, n) == q ==> k in ks
  {
    if m == 0 then []
    else Tickets(q, n, m - 1) + if QueueFor(m - 1, n) == q then [m - 1] else []
  }

  lemma {:induction false} TicketsPrefix(q: nat, n: nat, m: nat, m': nat)
    requires n > 0 && m <= m'
    ensures Tickets(q, n, m) <= Tickets(q, n, m')
  {
    if m < m' {
      TicketsPrefix(q, n, m, m' - 1);
    }
  }

  /** The i-th ticket of a queue does not depend on how many tickets were drawn since. */
  lemma SameTicket(q: nat, n: nat, m: nat, m': nat, i: nat)
    requires n > 0 && i < |Tickets(q, n, m)| && i < |Tickets(q, n, m')|
    ensures Tickets(q, n, m)[i] == Tickets(q, n, m')[i]
  {
    if m <= m' {
      TicketsPrefix(q, n, m, m');
    } else {
      TicketsPrefix(q, n, m', m);
    }
  }

  // ---------------------------------------------------------------- one side: the puts, or the gets

  /** The tickets of one side: how many were drawn, the last one of each thread, the job that
      went through with each completed ticket, how many went through per queue, and the jobs
      in the order in which they went through. */
  datatype Side = Side(drawn: nat, ticket: seq<nat>, job: map<nat, Job>, count: seq<nat>, order: seq<Job>)

  /** Which queue each thread has an open ticket for. */
  type Open = seq<Option<nat>>

  function Grow(a: Side): Side {
    a.(ticket := a.ticket + [0])
  }

  function Draw(a: Side, t: nat): Side
    requires t < |a.ticket|
  {
    a.(drawn := a.drawn + 1, ticket := a.ticket[t := a.drawn])
  }

  function Complete(a: Side, t: nat, q: nat, job: Job): Side
    requires t < |a.ticket| && q < |a.count|
  {
    a.(job := a.job[a.ticket[t] := job], count := a.count[q := a.count[q] + 1], order := a.order + [job])
  }

  /** Open tickets are different, not completed, and lead where their threads go. */
  predicate OpenOk(n: nat, a: Side, open: Open)
    requires n > 0
  {
    && |open| == |a.ticket|
    && (forall t :: 0 <= t < |open| && open[t].Some? ==>
          a.ticket[t] < a.drawn && QueueFor(a.ticket[t], n) == open[t].value && a.ticket[t] !in a.job)
    && (forall t, u :: 0 <= t < |open| && 0 <= u < |open| && t != u && open[t].Some? && open[u].Some? ==>
          a.ticket[t] != a.ticket[u])
  }

  ghost predicate HeldOpen(a: Side, open: Open, k: nat)
    requires |open| == |a.ticket|
  {
    exists t :: 0 <= t < |open| && open[t].Some? && a.ticket[t] == k
  }

  /** Of each queue's tickets the first `count` are completed. */
  predicate CountOk(n: nat, a: Side, q: nat)
    requires n > 0 && q < |a.count|
  {
    var ks := Tickets(q, n, a.drawn);
    a.count[q] <= |ks| && forall i :: 0 <= i < |ks| ==> (ks[i] in a.job <==> i < a.count[q])
  }

  ghost predicate SideOk(n: nat, a: Side, open: Open) {
    && n > 0 && |a.count| == n && OpenOk(n, a, open)
    && (forall k :: k in a.job ==> k < a.drawn)
    && (forall k: nat :: k < a.drawn && k !in a.job ==> HeldOpen(a, open, k))
    && (forall q :: 0 <= q < n ==> CountOk(n, a, q))
  }

  lemma GrowKeeps(n: nat, a: Side, open: Open)
    requires SideOk(n, a, open)
    ensures SideOk(n, Grow(a), open + [None])
  {
    var b, open' := Grow(a), open + [None];
    forall k: nat | k < b.drawn && k !in b.job
      ensures HeldOpen(b, open', k)
    {
      var t :| 0 <= t < |open| && open[t].Some? && a.ticket[t] == k;
      assert open'[t].Some? && b.ticket[t] == k;
    }
    forall q | 0 <= q < n
      ensures CountOk(n, b, q)
    {
      assert CountOk(n, a, q);
    }
  }

  lemma DrawKeeps(n: nat, a: Side, open: Open, t: nat)
    requires SideOk(n, a, open) && t < |open| && open[t] == None
    ensures SideOk(n, Draw(a, t), open[t := Some(QueueFor(a.drawn, n))])
  {
    hide CountOk, QueueFor;
    var b, open' := Draw(a, t), open[t := Some(QueueFor(a.drawn, n))];
    forall k: nat | k < b.drawn && k !in b.job
      ensures HeldOpen(b, open', k)
    {
      if k == a.drawn {
        assert open'[t].Some? && b.ticket[t] == k;
      } else {
        var u :| 0 <= u < |open| && open[u].Some? && a.ticket[u] == k;
        assert open'[u].Some? && b.ticket[u] == k;
      }
    }
    forall q | 0 <= q < n
      ensures CountOk(n, b, q)
    {
      DrawCount(n, a, t, q);
    }
  }

  /** The new ticket is the last of its queue's. */
  lemma DrawCount(n: nat, a: Side, t: nat, q: nat)
    requires n > 0 && t < |a.ticket| && q < |a.count| && CountOk(n, a, q) && a.drawn !in a.job
    ensures CountOk(n, Draw(a, t), q)
  {
    hide Tickets, QueueFor;
    TicketsNext(q, n, a.drawn);
    var ks, ks' := Tickets(q, n, a.drawn), Tickets(q, n, a.drawn + 1);
    assert forall i :: 0 <= i < |ks| ==> ks'[i] == ks[i];
    assert |ks'| > |ks| ==> ks'[|ks|] == a.drawn;
  }

  lemma TicketsNext(q: nat, n: nat, m: nat)
    requires n > 0
    ensures Tickets(q, n, m + 1) == Tickets(q, n, m) + if QueueFor(m, n) == q then [m] else []
  {
  }

  /** Nobody with an open ticket for the same queue drew before this thread. */
  predicate First(a: Side, open: Open, t: nat)
    requires |open| == |a.ticket| && t < |open|
  {
    forall u :: 0 <= u < |open| && open[u].Some? && open[u] == open[t] ==> a.ticket[t] <= a.ticket[u]
  }

  /** Such a thread has the next ticket of its queue. */
  lemma FirstIsNext(n: nat, a: Side, open: Open, t: nat)
    requires SideOk(n, a, open) && t < |open| && open[t].Some? && First(a, open, t)
    ensures var q := open[t].value;
            && q < n && a.count[q] < |Tickets(q, n, a.drawn)| && a.ticket[t] == Tickets(q, n, a.drawn)[a.count[q]]
            && a.ticket[t] !in a.job && QueueFor(a.ticket[t], n) == q
  {
    hide Tickets;
    var q := open[t].value;
    var ks := Tickets(q, n, a.drawn);
    assert CountOk(n, a, q);
    assert a.ticket[t] in ks;
    var i :| 0 <= i < |ks| && ks[i] == a.ticket[t];
    assert a.count[q] <= i;
    var next := ks[a.count[q]];
    assert HeldOpen(a, open, next);
    var u :| 0 <= u < |open| && open[u].Some? && a.ticket[u] == next;
    assert open[u] == open[t];
  }

  lemma CompleteKeeps(n: nat, a: Side, open: Open, t: nat, job: Job)
    requires SideOk(n, a, open) && t < |open| && open[t].Some? && First(a, open, t)
    ensures open[t].value < n && SideOk(n, Complete(a, t, open[t].value, job), open[t := None])
  {
    hide Tickets;
    FirstIsNext(n, a, open, t);
    var q := open[t].value;
    var b, open' := Complete(a, t, q, job), open[t := None];
    forall k: nat | k < b.drawn && k !in b.job
      ensures HeldOpen(b, open', k)
    {
      var u :| 0 <= u < |open| && open[u].Some? && a.ticket[u] == k;
      assert open'[u].Some? && b.ticket[u] == k;
    }
    forall p | 0 <= p < n
      ensures CountOk(n, b, p)
    {
      assert CountOk(n, a, p);
    }
  }

  // ---------------------------------------------------------------- the scheduler with its tickets

  datatype Log = Log(put: Side, get: Side)

  function PutQueue(pc: Pc): Option<nat> {
    match pc
    case Ticketed(q, _) => Some(q)
    case Putting(q, _, _, _) => Some(q)
    case _ => None
  }

  function GetQueue(pc: Pc): Option<nat> {
    if pc.Getting? then Some(pc.q) else None
  }

  function OpenPuts(threads: seq<Pc>): (o: Open)
    ensures |o| == |threads|
  {
    seq(|threads|, t requires 0 <= t < |threads| => PutQueue(threads[t]))
  }

  function OpenGets(threads: seq<Pc>): (o: Open)
    ensures |o| == |threads|
  {
    seq(|threads|, t requires 0 <= t < |threads| => GetQueue(threads[t]))
  }

  predicate Matching(s: State, l: Log) {
    && |l.put.ticket| == |l.get.ticket| == |s.threads|
    && |l.put.count| == |l.get.count| == |s.queues|
  }

  /** A put that goes through, and a get that does. */
  predicate Enters(s: State, step: Step)
    requires WF(s) && Enabled(s, step)
  {
    step.Put? && s.queues[s.threads[step.t].q].Len() < 15
  }

  predicate Leaves(s: State, step: Step)
    requires WF(s) && Enabled(s, step)
  {
    step.Get? && s.queues[s.threads[step.t].q].Len() > 0
  }

  /** What the step of the scheduler means for the tickets. */
  function Follow(s: State, l: Log, step: Step): Log
    requires WF(s) && Enabled(s, step) && Matching(s, l)
  {
    if step.Connect? then Log(Grow(l.put), Grow(l.get))
    else if step.TakeTicket? || step.BackTicket? then l.(put := Draw(l.put, step.t))
    else if step.GetTicket? then l.(get := Draw(l.get, step.t))
    else if Enters(s, step) then l.(put := Complete(l.put, step.t, s.threads[step.t].q, s.threads[step.t].job))
    else if Leaves(s, step) then
      var r := s.queues[s.threads[step.t].q];
      l.(get := Complete(l.get, step.t, s.threads[step.t].q, r.slots[r.getIdx % 15]))
    else l
  }

  /** Nobody overtakes on a queue, and nothing is unsubmitted. */
  predicate InOrder(s: State, l: Log, step: Step)
    requires WF(s) && Enabled(s, step) && Matching(s, l)
  {
    && (Enters(s, step) ==> First(l.put, OpenPuts(s.threads), step.t))
    && (Leaves(s, step) ==> First(l.get, OpenGets(s.threads), step.t))
    && (step.Remove? ==> s.queues[s.threads[step.t].q].Len() == 0)
  }

  function Pick(job: map<nat, Job>, ks: seq<nat>): (js: seq<Job>)
    requires forall i :: 0 <= i < |ks| ==> ks[i] in job
    ensures |js| == |ks| && forall i :: 0 <= i < |js| ==> js[i] == job[ks[i]]
  {
    seq(|ks|, i requires 0 <= i < |ks| => job[ks[i]])
  }

  /** A queue holds the jobs of its tickets that were put and not yet fetched. */
  predicate QueueHolds(n: nat, r: R.Ring, q: nat, l: Log)
    requires n > 0 && q < |l.put.count| && q < |l.get.count|
  {
    var ks := Tickets(q, n, l.put.drawn);
    && r.Valid()
    && l.get.count[q] <= l.put.count[q] <= |ks|
    && (forall i :: 0 <= i < l.put.count[q] ==> ks[i] in l.put.job)
    && r.Contents() == Pick(l.put.job, ks[l.get.count[q]..l.put.count[q]])
  }

  /** Every completed get was served the job of the put with the same ticket. */
  predicate Served(l: Log) {
    forall k :: k in l.get.job ==> k in l.put.job && l.get.job[k] == l.put.job[k]
  }

  ghost predicate Inv(s: State, l: Log) {
    && WF(s) && Matching(s, l)
    && SideOk(|s.queues|, l.put, OpenPuts(s.threads)) && SideOk(|s.queues|, l.get, OpenGets(s.threads))
    && s.queue2put == Wrap32(l.put.drawn) && s.queue2get == Wrap32(l.get.drawn)
    && (forall q :: 0 <= q < |s.queues| ==> QueueHolds(|s.queues|, s.queues[q], q, l))
    && Served(l)
  }

  lemma MoveOpen(threads: seq<Pc>, w: set<nat>, t: nat, pc: Pc)
    requires t < |threads|
    ensures OpenPuts(Wake(threads, w)[t := pc]) == OpenPuts(threads)[t := PutQueue(pc)]
    ensures OpenGets(Wake(threads, w)[t := pc]) == OpenGets(threads)[t := GetQueue(pc)]
    ensures OpenPuts(threads[t := pc]) == OpenPuts(threads)[t := PutQueue(pc)]
    ensures OpenGets(threads[t := pc]) == OpenGets(threads)[t := GetQueue(pc)]
  {
  }

  lemma GrowOpen(threads: seq<Pc>, pc: Pc)
    ensures OpenPuts(threads + [pc]) == OpenPuts(threads) + [PutQueue(pc)]
    ensures OpenGets(threads + [pc]) == OpenGets(threads) + [GetQueue(pc)]
  {
  }

  lemma PutOpen(s: State, t: nat, w: set<nat>)
    requires WF(s) && Enabled(s, Put(t, w))
    ensures var s', puts := DoPut(s, t, w), OpenPuts(s.threads);
            && OpenPuts(s'.threads) == (if Enters(s, Put(t, w)) then puts[t := None] else puts)
            && OpenGets(s'.threads) == OpenGets(s.threads)
  {
    hide R.Put, OpenPuts, OpenGets, Wake;
    MoveOpen(s.threads, w, t, DoPut(s, t, w).threads[t]);
    OpenAt(s.threads, t);
  }

  lemma GetOpen(s: State, t: nat, w: set<nat>)
    requires WF(s) && Enabled(s, Get(t, w))
    ensures var s', gets := DoGet(s, t, w), OpenGets(s.threads);
            && OpenGets(s'.threads) == (if Leaves(s, Get(t, w)) then gets[t := None] else gets)
            && OpenPuts(s'.threads) == OpenPuts(s.threads)
  {
    hide R.Get, OpenPuts, OpenGets, Wake;
    MoveOpen(s.threads, w, t, DoGet(s, t, w).threads[t]);
    OpenAt(s.threads, t);
  }

  lemma RemoveOpen(s: State, t: nat, w: set<nat>)
    requires WF(s) && Enabled(s, Remove(t, w)) && InRing(s, Remove(t, w))
    ensures OpenPuts(DoRemove(s, t, w).threads) == OpenPuts(s.threads)
    ensures OpenGets(DoRemove(s, t, w).threads) == OpenGets(s.threads)
  {
    hide R.Remove, R.Victim, Matches, OpenPuts, OpenGets, Wake;
    MoveOpen(s.threads, w, t, DoRemove(s, t, w).threads[t]);
    OpenAt(s.threads, t);
  }

  lemma OpenAt(threads: seq<Pc>, t: nat)
    requires t < |threads|
    ensures OpenPuts(threads)[t] == PutQueue(threads[t]) && OpenGets(threads)[t] == GetQueue(threads[t])
  {
  }

  predicate IsControl(step: Step) {
    !step.Connect? && !step.Put? && !step.Get? && !step.Remove?
  }

  /** Steps that move one thread and wake none. */
  lemma ControlMoves(s: State, step: Step)
    requires WF(s) && Enabled(s, step) && InRing(s, step) && IsControl(step)
    ensures var threads' := Apply(s, step).threads;
            |threads'| == |s.threads| && threads' == s.threads[step.t := threads'[step.t]]
  {
    hide H.Find, PutQueue, GetQueue;
  }

  lemma ControlPc(s: State, step: Step)
    requires WF(s) && Enabled(s, step) && InRing(s, step) && IsControl(step)
    ensures |Apply(s, step).threads| == |s.threads|
    ensures var pc, pc' := s.threads[step.t], Apply(s, step).threads[step.t];
            && PutQueue(pc') ==
               (if step.TakeTicket? || step.BackTicket? then Some(s.queue2put % |s.queues|) else PutQueue(pc))
            && GetQueue(pc') == (if step.GetTicket? then Some(s.queue2get % |s.queues|) else GetQueue(pc))
  {
    hide H.Find;
  }

  lemma ControlOpen(s: State, step: Step)
    requires WF(s) && Enabled(s, step) && InRing(s, step) && IsControl(step)
    ensures var s', puts, gets := Apply(s, step), OpenPuts(s.threads), OpenGets(s.threads);
            && OpenPuts(s'.threads) ==
               (if step.TakeTicket? || step.BackTicket? then puts[step.t := Some(s.queue2put % |s.queues|)] else puts)
            && OpenGets(s'.threads) ==
               (if step.GetTicket? then gets[step.t := Some(s.queue2get % |s.queues|)] else gets)
  {
    hide OpenPuts, OpenGets, PutQueue, GetQueue, Apply;
    ControlMoves(s, step);
    ControlPc(s, step);
    MoveOpen(s.threads, {}, step.t, Apply(s, step).threads[step.t]);
    OpenAt(s.threads, step.t);
  }

  /** How a step changes the open tickets. */
  lemma StepOpen(s: State, step: Step)
    requires WF(s) && Enabled(s, step) && InRing(s, step)
    ensures var s', puts, gets := Apply(s, step), OpenPuts(s.threads), OpenGets(s.threads);
            && OpenPuts(s'.threads) ==
               (if step.Connect? then puts + [None]
                else if step.TakeTicket? || step.BackTicket? then puts[step.t := Some(s.queue2put % |s.queues|)]
                else if Enters(s, step) then puts[step.t := None]
                else puts)
            && OpenGets(s'.threads) ==
               (if step.Connect? then gets + [None]
                else if step.GetTicket? then gets[step.t := Some(s.queue2get % |s.queues|)]
                else if Leaves(s, step) then gets[step.t := None]
                else gets)
  {
    hide OpenPuts, OpenGets, DoAccept, DoPut, DoGet, DoSend, DoReport, DoRemove, DoMark, DoBackMark, DoLook, DoCheck;
    match step
    case Connect => GrowOpen(s.threads, Idle);
    case Put(t, w) => PutOpen(s, t, w);
    case Get(t, w) => GetOpen(s, t, w);
    case Remove(t, w) => RemoveOpen(s, t, w);
    case _ => ControlOpen(s, step);
  }

  lemma FollowSides(s: State, l: Log, step: Step)
    requires Inv(s, l) && Enabled(s, step) && InRing(s, step) && InOrder(s, l, step)
    ensures var s', l' := Apply(s, step), Follow(s, l, step);
            && Matching(s', l')
            && SideOk(|s.queues|, l'.put, OpenPuts(s'.threads)) && SideOk(|s.queues|, l'.get, OpenGets(s'.threads))
  {
    hide SideOk, Apply, First;
    StepWF(s, step);
    StepOpen(s, step);
    var n, puts, gets := |s.queues|, OpenPuts(s.threads), OpenGets(s.threads);
    if step.Connect? {
      GrowKeeps(n, l.put, puts);
      GrowKeeps(n, l.get, gets);
    } else if step.TakeTicket? || step.BackTicket? {
      DrawKeeps(n, l.put, puts, step.t);
    } else if step.GetTicket? {
      DrawKeeps(n, l.get, gets, step.t);
    } else if Enters(s, step) {
      CompleteKeeps(n, l.put, puts, step.t, s.threads[step.t].job);
    } else if Leaves(s, step) {
      var r := s.queues[s.threads[step.t].q];
      CompleteKeeps(n, l.get, gets, step.t, r.slots[r.getIdx % 15]);
    }
  }

  /** Drawing put tickets adds none to the front. */
  lemma HoldsLater(n: nat, r: R.Ring, q: nat, l: Log, l': Log)
    requires n > 0 && q < |l.put.count| && q < |l.get.count| && QueueHolds(n, r, q, l)
    requires l'.put.count == l.put.count && l'.get.count == l.get.count && l'.put.job == l.put.job
    requires l.put.drawn <= l'.put.drawn
    ensures QueueHolds(n, r, q, l')
  {
    TicketsPrefix(q, n, l.put.drawn, l'.put.drawn);
    var ks, ks' := Tickets(q, n, l.put.drawn), Tickets(q, n, l'.put.drawn);
    assert ks'[l.get.count[q]..l.put.count[q]] == ks[l.get.count[q]..l.put.count[q]];
  }

  lemma PickPush(jobs: map<nat, Job>, ks: seq<nat>, k: nat, job: Job)
    requires k !in jobs && forall i :: 0 <= i < |ks| ==> ks[i] in jobs
    ensures Pick(jobs[k := job], ks) == Pick(jobs, ks)
    ensures Pick(jobs[k := job], ks + [k]) == Pick(jobs, ks) + [job]
  {
  }

  /** A put with the next ticket of queue `p`, seen from queue `q`. */
  lemma EnterQueue(n: nat, r: R.Ring, q: nat, l: Log, t: nat, p: nat, job: Job)
    requires n > 0 && q < |l.put.count| && q < |l.get.count| && p < |l.put.count| && QueueHolds(n, r, q, l)
    requires t < |l.put.ticket| && l.put.ticket[t] !in l.put.job && QueueFor(l.put.ticket[t], n) == p
    requires var ks, b := Tickets(q, n, l.put.drawn), l.put.count[q];
             q == p ==> b < |ks| && l.put.ticket[t] == ks[b] && QueueOk(r) && r.Len() < 15 && !R.PutCollides(r)
    ensures QueueHolds(n, if q == p then R.Put(r, job) else r, q, l.(put := Complete(l.put, t, p, job)))
  {
    hide R.Put, Tickets, QueueFor, R.PutCollides, Pick, R.Ring.Contents, R.Ring.Straddles, R.Ring.FlagFaithful;
    var ks, a, b := Tickets(q, n, l.put.drawn), l.get.count[q], l.put.count[q];
    PickPush(l.put.job, ks[a..b], l.put.ticket[t], job);
    if q == p {
      QueuePut(r, job);
      assert ks[a..b + 1] == ks[a..b] + [ks[b]];
    }
  }

  lemma EnterHolds(s: State, l: Log, t: nat, w: set<nat>, q: nat)
    requires Inv(s, l) && Enabled(s, Put(t, w)) && InRing(s, Put(t, w)) && InOrder(s, l, Put(t, w))
    requires Enters(s, Put(t, w)) && q < |s.queues|
    ensures var l' := Follow(s, l, Put(t, w));
            QueueHolds(|s.queues|, DoPut(s, t, w).queues[q], q, l') && Served(l')
  {
    hide R.Put, Tickets, Wake, SideOk, QueueFor, QueueHolds, First;
    var n, p, job := |s.queues|, s.threads[t].q, s.threads[t].job;
    OpenAt(s.threads, t);
    FirstIsNext(n, l.put, OpenPuts(s.threads), t);
    EnterQueue(n, s.queues[q], q, l, t, p, job);
  }

  /** A get with the next ticket of queue `p`, seen from queue `q`. */
  lemma LeaveQueue(n: nat, r: R.Ring, q: nat, l: Log, t: nat, p: nat, job: Job)
    requires n > 0 && q < |l.put.count| && q < |l.get.count| && p < |l.get.count| && QueueHolds(n, r, q, l)
    requires t < |l.get.ticket| && (q == p ==> QueueOk(r) && r.Len() > 0)
    ensures QueueHolds(n, if q == p then R.Get(r) else r, q, l.(get := Complete(l.get, t, p, job)))
  {
    hide R.Get, Tickets;
    var ks, a, b := Tickets(q, n, l.put.drawn), l.get.count[q], l.put.count[q];
    if q == p {
      QueueGet(r);
      assert ks[a..b][1..] == ks[a + 1..b];
      assert Pick(l.put.job, ks[a + 1..b]) == Pick(l.put.job, ks[a..b])[1..];
    }
  }

  /** The job at the head of a queue is the one put with the ticket of the next get. */
  lemma HeadMatches(n: nat, r: R.Ring, q: nat, l: Log)
    requires n > 0 && q < |l.put.count| && q < |l.get.count| && QueueHolds(n, r, q, l) && QueueOk(r) && r.Len() > 0
    requires l.get.count[q] < |Tickets(q, n, l.get.drawn)|
    ensures var k := Tickets(q, n, l.get.drawn)[l.get.count[q]];
            k in l.put.job && r.slots[r.getIdx % 15] == l.put.job[k]
  {
    hide R.Get, Tickets;
    var ks, a, b := Tickets(q, n, l.put.drawn), l.get.count[q], l.put.count[q];
    QueueGet(r);
    SameTicket(q, n, l.get.drawn, l.put.drawn, a);
    assert ks[a..b][0] == ks[a];
  }

  lemma LeaveHolds(s: State, l: Log, t: nat, w: set<nat>, q: nat)
    requires Inv(s, l) && Enabled(s, Get(t, w)) && InOrder(s, l, Get(t, w))
    requires Leaves(s, Get(t, w)) && q < |s.queues|
    ensures var l' := Follow(s, l, Get(t, w));
            QueueHolds(|s.queues|, DoGet(s, t, w).queues[q], q, l') && Served(l')
  {
    hide R.Get, Tickets, Wake, SideOk, QueueFor, QueueHolds, First;
    var n, p := |s.queues|, s.threads[t].q;
    var r := s.queues[p];
    OpenAt(s.threads, t);
    FirstIsNext(n, l.get, OpenGets(s.threads), t);
    HeadMatches(n, r, p, l);
    LeaveQueue(n, s.queues[q], q, l, t, p, r.slots[r.getIdx % 15]);
  }

  lemma StepKeeps(s: State, l: Log, step: Step)
    requires Inv(s, l) && Enabled(s, step) && InRing(s, step) && InOrder(s, l, step)
    ensures Inv(Apply(s, step), Follow(s, l, step))
  {
    assert WF(s) && Matching(s, l);
    hide Apply, Follow, QueueHolds, SideOk, Served;
    var s', l' := Apply(s, step), Follow(s, l, step);
    StepWF(s, step);
    FollowSides(s, l, step);
    StepCounters(s, l, step);
    StepHolds(s, l, step, 0);
    forall q | 0 <= q < |s.queues|
      ensures QueueHolds(|s.queues|, s'.queues[q], q, l')
    {
      StepHolds(s, l, step, q);
    }
  }

  lemma StepCounters(s: State, l: Log, step: Step)
    requires Inv(s, l) && Enabled(s, step) && InRing(s, step)
    ensures Apply(s, step).queue2put == Wrap32(Follow(s, l, step).put.drawn)
    ensures Apply(s, step).queue2get == Wrap32(Follow(s, l, step).get.drawn)
    ensures |Apply(s, step).queues| == |s.queues|
  {
    hide SideOk, QueueHolds, Served, Wrap32;
    StepWF(s, step);
    CountersStep(s, step);
    DrawnStep(s, l, step);
    IncWraps(l.put.drawn);
    IncWraps(l.get.drawn);
    hide Apply, Follow, WF, Matching;
  }

  lemma CountersStep(s: State, step: Step)
    requires WF(s) && Enabled(s, step) && InRing(s, step)
    ensures Apply(s, step).queue2put == if step.TakeTicket? || step.BackTicket? then Inc32(s.queue2put) else s.queue2put
    ensures Apply(s, step).queue2get == if step.GetTicket? then Inc32(s.queue2get) else s.queue2get
  {
    hide R.Put, R.Get, R.Remove, H.Find;
  }

  lemma DrawnStep(s: State, l: Log, step: Step)
    requires WF(s) && Matching(s, l) && Enabled(s, step)
    ensures Follow(s, l, step).put.drawn == l.put.drawn + if step.TakeTicket? || step.BackTicket? then 1 else 0
    ensures Follow(s, l, step).get.drawn == l.get.drawn + if step.GetTicket? then 1 else 0
  {
  }

  lemma StepHolds(s: State, l: Log, step: Step, q: nat)
    requires Inv(s, l) && Enabled(s, step) && InRing(s, step) && InOrder(s, l, step) && q < |s.queues|
    ensures |Apply(s, step).queues| == |s.queues|
    ensures QueueHolds(|s.queues|, Apply(s, step).queues[q], q, Follow(s, l, step)) && Served(Follow(s, l, step))
  {
    hide R.Put, R.Get, R.Remove, SideOk, QueueHolds;
    if Enters(s, step) {
      EnterHolds(s, l, step.t, step.w, q);
    } else if Leaves(s, step) {
      LeaveHolds(s, l, step.t, step.w, q);
    } else {
      assert QueueHolds(|s.queues|, s.queues[q], q, l);
      NothingMoves(s, l, step);
      hide Apply, Follow;
      HoldsLater(|s.queues|, s.queues[q], q, l, Follow(s, l, step));
    }
  }

  lemma NothingMoves(s: State, l: Log, step: Step)
    requires WF(s) && Matching(s, l) && Enabled(s, step) && InRing(s, step) && InOrder(s, l, step)
    requires !Enters(s, step) && !Leaves(s, step)
    ensures Apply(s, step).queues == s.queues
    ensures var l' := Follow(s, l, step);
            && l'.put.count == l.put.count && l'.get.count == l.get.count && l'.put.job == l.put.job
            && l'.get.job == l.get.job && l.put.drawn <= l'.put.drawn
  {
    hide R.Put, R.Get, R.Remove, First;
  }

  // ---------------------------------------------------------------- runs

  function NewSide(n: nat): Side {
    Side(0, [], map[], seq(n, _ => 0), [])
  }

  /** A run of the scheduler, with its tickets, in which nobody overtakes on a queue. */
  ghost predicate OrderedRun(ss: seq<State>, steps: seq<Step>, ls: seq<Log>, n: nat) {
    && Run(ss, steps, n) && |ls| == |ss| && ls[0] == Log(NewSide(n), NewSide(n))
    && forall i :: 0 <= i < |steps| ==>
         Next(ss[i], steps[i], ss[i + 1]) && Matching(ss[i], ls[i]) && InOrder(ss[i], ls[i], steps[i])
         && ls[i + 1] == Follow(ss[i], ls[i], steps[i])
  }

  lemma StartInv(s: State, n: nat)
    requires Init(s, n)
    ensures Inv(s, Log(NewSide(n), NewSide(n)))
  {
    var l := Log(NewSide(n), NewSide(n));
    InitWF(s, n);
    forall q | 0 <= q < n
      ensures CountOk(n, l.put, q) && QueueHolds(n, s.queues[q], q, l)
    {
      assert Pick(map[], []) == [];
    }
  }

  lemma {:induction false} RunKeeps(ss: seq<State>, steps: seq<Step>, ls: seq<Log>, n: nat, i: nat)
    requires OrderedRun(ss, steps, ls, n) && i < |ss|
    ensures Inv(ss[i], ls[i])
  {
    hide Inv;
    if i == 0 {
      StartInv(ss[0], n);
    } else {
      RunKeeps(ss, steps, ls, n, i - 1);
      assert Next(ss[i - 1], steps[i - 1], ss[i]) && InOrder(ss[i - 1], ls[i - 1], steps[i - 1]);
      StepKeeps(ss[i - 1], ls[i - 1], steps[i - 1]);
    }
  }

  /** The get with ticket k is served the job of the put with ticket k, new or put back, in
      every run in which nobody overtakes on a queue, for any number of queues and however
      often the ticket counters wrapped. */
  lemma TicketsMatch(ss: seq<State>, steps: seq<Step>, ls: seq<Log>, n: nat, i: nat, k: nat)
    requires OrderedRun(ss, steps, ls, n) && i < |ss| && k in ls[i].get.job
    ensures k in ls[i].put.job && ls[i].get.job[k] == ls[i].put.job[k]
  {
    RunKeeps(ss, steps, ls, n, i);
  }

  /** In terms of the handlers: one that fetches with ticket k goes on with the job that was
      put with ticket k. */
  lemma GetServesTicket(ss: seq<State>, steps: seq<Step>, ls: seq<Log>, n: nat, i: nat, t: nat, w: set<nat>)
    requires OrderedRun(ss, steps, ls, n) && i < |steps| && steps[i] == Get(t, w)
    requires Next(ss[i], steps[i], ss[i + 1]) && Leaves(ss[i], steps[i])
    ensures t < |ls[i].get.ticket| && t < |ss[i + 1].threads|
    ensures var k := ls[i].get.ticket[t];
            k in ls[i].put.job && ss[i + 1].threads[t] == Holding(ls[i].put.job[k])
  {
    RunKeeps(ss, steps, ls, n, i);
    assert Matching(ss[i], ls[i]) && InOrder(ss[i], ls[i], steps[i]);
    ServesTicket(ss[i], ls[i], t, w);
  }

  lemma ServesTicket(s: State, l: Log, t: nat, w: set<nat>)
    requires Inv(s, l) && Enabled(s, Get(t, w)) && InOrder(s, l, Get(t, w)) && Leaves(s, Get(t, w))
    ensures var k := l.get.ticket[t]; k in l.put.job && DoGet(s, t, w).threads[t] == Holding(l.put.job[k])
  {
    hide R.Get, Tickets, Wake, SideOk, QueueFor, QueueHolds, First;
    OpenAt(s.threads, t);
    FirstIsNext(|s.queues|, l.get, OpenGets(s.threads), t);
    HeadMatches(|s.queues|, s.queues[s.threads[t].q], s.threads[t].q, l);
  }

  // ---------------------------------------------------------------- one queue

  /** Nobody at all with an open ticket drew before this thread. */
  predicate FirstOfAll(a: Side, open: Open, t: nat)
    requires |open| == |a.ticket| && t < |open|
  {
    forall u :: 0 <= u < |open| && open[u].Some? ==> a.ticket[t] <= a.ticket[u]
  }

  /** Puts, and gets, go through in the order of their tickets. */
  predicate InTicketOrder(s: State, l: Log, step: Step)
    requires WF(s) && Enabled(s, step) && Matching(s, l)
  {
    && (Enters(s, step) ==> FirstOfAll(l.put, OpenPuts(s.threads), step.t))
    && (Leaves(s, step) ==> FirstOfAll(l.get, OpenGets(s.threads), step.t))
  }

  /** The k-th job to go through went through with ticket k. */
  ghost predicate Sequential(a: Side) {
    && (forall k :: k in a.job <==> 0 <= k < |a.order|)
    && (forall k :: 0 <= k < |a.order| ==> a.order[k] == a.job[k])
  }

  lemma CompleteSequential(n: nat, a: Side, open: Open, t: nat, q: nat, job: Job)
    requires SideOk(n, a, open) && t < |open| && open[t].Some? && q < |a.count|
    requires FirstOfAll(a, open, t) && Sequential(a)
    ensures Sequential(Complete(a, t, q, job))
  {
    var k := |a.order|;
    assert HeldOpen(a, open, k);
    assert a.ticket[t] == k;
  }

  /** A run in which puts, and gets, go through in the order of their tickets. */
  ghost predicate TicketRun(ss: seq<State>, steps: seq<Step>, ls: seq<Log>, n: nat) {
    OrderedRun(ss, steps, ls, n)
    && forall i :: 0 <= i < |steps| ==>
         Next(ss[i], steps[i], ss[i + 1]) && Matching(ss[i], ls[i]) && InTicketOrder(ss[i], ls[i], steps[i])
  }

  lemma {:induction false} RunSequential(ss: seq<State>, steps: seq<Step>, ls: seq<Log>, n: nat, i: nat)
    requires TicketRun(ss, steps, ls, n) && i < |ss|
    ensures Sequential(ls[i].put) && Sequential(ls[i].get)
  {
    hide Inv, Sequential, InOrder, InTicketOrder, Follow;
    if i == 0 {
      StartSequential(n);
    } else {
      RunSequential(ss, steps, ls, n, i - 1);
      RunKeeps(ss, steps, ls, n, i - 1);
      assert Next(ss[i - 1], steps[i - 1], ss[i]) && InTicketOrder(ss[i - 1], ls[i - 1], steps[i - 1]);
      FollowSequential(ss[i - 1], ls[i - 1], steps[i - 1]);
    }
  }

  lemma StartSequential(n: nat)
    ensures Sequential(NewSide(n))
  {
  }

  lemma FollowSequential(s: State, l: Log, step: Step)
    requires Inv(s, l) && Enabled(s, step) && InTicketOrder(s, l, step)
    requires Sequential(l.put) && Sequential(l.get)
    ensures Sequential(Follow(s, l, step).put) && Sequential(Follow(s, l, step).get)
  {
    hide SideOk, FirstOfAll, QueueHolds, CountOk;
    var n := |s.queues|;
    if Enters(s, step) {
      CompleteSequential(n, l.put, OpenPuts(s.threads), step.t, s.threads[step.t].q, s.threads[step.t].job);
    } else if Leaves(s, step) {
      var r := s.queues[s.threads[step.t].q];
      CompleteSequential(n, l.get, OpenGets(s.threads), step.t, s.threads[step.t].q, r.slots[r.getIdx % 15]);
    }
  }

  /** The queues together are one first-in-first-out queue: when operations go through in the
      order of their tickets, what was taken out is a prefix of what was put in. */
  lemma OneFifo(ss: seq<State>, steps: seq<Step>, ls: seq<Log>, n: nat, i: nat)
    requires TicketRun(ss, steps, ls, n) && i < |ss|
    ensures ls[i].get.order <= ls[i].put.order
  {
    RunSequential(ss, steps, ls, n, i);
    var put, get := ls[i].put, ls[i].get;
    if |get.order| > 0 {
      TicketsMatch(ss, steps, ls, n, i, |get.order| - 1);
    }
    forall k | 0 <= k < |get.order|
      ensures get.order[k] == put.order[k]
    {
      TicketsMatch(ss, steps, ls, n, i, k);
    }
  }
}
