/** One bounded queue of the main server: a ring of fifteen job pointers indexed by two
    free-running 32-bit counters (main_server.h, Queue_t). */
module Ring {
  import opened Words
  import opened Jobs

  const CAPACITY := 15

  /** The value of a Queue_t, without its mutex and condition variables. */
  datatype Ring = Ring(slots: seq<Job>, putIdx: uint32, getIdx: uint32, full: bool) {
    function Len(): uint32 {
      Sub32(putIdx, getIdx)
    }

    predicate Valid() {
      |slots| == 15 && Len() <= 15
    }

    /** The slot that holds the i-th oldest job. */
    function SlotOf(i: nat): nat
      requires i <= 15
    {
      (if getIdx + i < 0x1_0000_0000 then getIdx + i else getIdx + i - 0x1_0000_0000) % 15
    }

    /** The queued jobs, oldest first. */
    function Contents(): (c: seq<Job>)
      requires Valid()
      ensures |c| == Len()
    {
      seq(Len(), i requires 0 <= i < Len() => slots[SlotOf(i)])
    }

    /** The occupied window holds both the counter value 2^32 - 1 and the value 0. */
    predicate Straddles() {
      getIdx + Len() > 0x1_0000_0000
    }

    /** The stored state is the occupancy. */
    predicate FlagFaithful() {
      full <==> Len() == 15
    }
  }

  // ---------------------------------------------------------------- put and get

  /** The critical section of putJob once there is room. */
  function Put(r: Ring, job: Job): Ring
    requires r.Valid() && r.Len() < 15
  {
    Ring(r.slots[r.putIdx % 15 := job], Inc32(r.putIdx), r.getIdx, r.full || r.Len() == 14)
  }

  /** The critical section of sendJob once there is a job. */
  function Get(r: Ring): Ring
    requires r.Valid() && r.Len() > 0
  {
    r.(getIdx := Inc32(r.getIdx), full := false)
  }

  /** A put is lost on the ring exactly when the put counter has just wrapped while jobs
      are queued: 2^32 mod 15 is 1, so counter 0 falls on the slot of counter 2^32 - 1. */
  predicate PutCollides(r: Ring) {
    r.putIdx == 0 && r.Len() > 0
  }

  lemma LenSteps(r: Ring, job: Job)
    requires r.Valid()
    ensures r.Len() < 15 ==> Put(r, job).Valid() && Put(r, job).Len() == r.Len() + 1
    ensures r.Len() > 0 ==> Get(r).Valid() && Get(r).Len() == r.Len() - 1
  {
  }

  lemma PutContents(r: Ring, job: Job)
    requires r.Valid() && r.Len() < 15
    ensures Put(r, job).Valid() && Put(r, job).Len() == r.Len() + 1
    ensures Put(r, job).Contents() ==
            if PutCollides(r) then r.Contents()[..r.Len() - 1] + [job, job]
            else r.Contents() + [job]
    ensures Put(r, job).Straddles() <==> r.Straddles() || PutCollides(r)
    ensures r.FlagFaithful() ==> Put(r, job).FlagFaithful()
  {
    var p := Put(r, job);
    var want := if PutCollides(r) then r.Contents()[..r.Len() - 1] + [job, job]
                else r.Contents() + [job];
    forall i | 0 <= i < p.Len()
      ensures p.Contents()[i] == want[i]
    {
      assert r.SlotOf(r.Len()) == r.putIdx % 15;
      if i < r.Len() && !(PutCollides(r) && i == r.Len() - 1) {
        SlotsApart(r, i);
      }
    }
    assert p.Contents() == want;
  }

  /** The slot about to be written differs from every occupied slot, but for the collision. */
  lemma SlotsApart(r: Ring, i: nat)
    requires r.Valid() && i < r.Len() < 15
    requires !(PutCollides(r) && i == r.Len() - 1)
    ensures r.SlotOf(i) != r.putIdx % 15
  {
    if r.getIdx + r.Len() < 0x1_0000_0000 {
      assert r.putIdx == r.getIdx + r.Len();
    } else {
      assert r.putIdx == r.getIdx + r.Len() - 0x1_0000_0000;
    }
  }

  /** A put appends exactly when it does not collide (or rewrites the very job it collides with). */
  lemma PutAppendsIff(r: Ring, job: Job)
    requires r.Valid() && r.Len() < 15
    ensures Put(r, job).Valid()
    ensures Put(r, job).Contents() == r.Contents() + [job]
       <==> !PutCollides(r) || r.Contents()[r.Len() - 1] == job
  {
    hide Put, Ring.Contents, Ring.Straddles, Ring.FlagFaithful;
    PutContents(r, job);
    if PutCollides(r) {
      var n := r.Len();
      assert (r.Contents() + [job])[n - 1] == r.Contents()[n - 1];
      assert Put(r, job).Contents()[n - 1] == job;
      if r.Contents()[n - 1] == job {
        assert r.Contents() == r.Contents()[..n - 1] + [job];
        assert r.Contents() + [job] == r.Contents()[..n - 1] + [job, job];
      }
    }
  }

  /** The collision happens: one job queued at counter 2^32 - 1, one put, and the queued job
      is gone while the new one is queued twice. */
  lemma CollidingPut(a: Job, b: Job)
    ensures var r := Ring(seq(15, _ => a), 0, 0xFFFF_FFFF, false);
            r.Valid() && r.Contents() == [a] && Put(r, b).Valid() && Put(r, b).Contents() == [b, b]
  {
    var r := Ring(seq(15, _ => a), 0, 0xFFFF_FFFF, false);
    assert r.Contents() == [a];
    PutContents(r, b);
    assert r.Contents()[..0] + [b, b] == [b, b];
  }

  lemma GetContents(r: Ring)
    requires r.Valid() && r.Len() > 0
    ensures Get(r).Valid() && Get(r).Len() == r.Len() - 1
    ensures r.slots[r.getIdx % 15] == r.Contents()[0]
    ensures Get(r).Contents() == r.Contents()[1..]
    ensures Get(r).Straddles() ==> r.Straddles()
    ensures Get(r).FlagFaithful()
  {
    var g := Get(r);
    forall i | 0 <= i < g.Len()
      ensures g.Contents()[i] == r.Contents()[i + 1]
    {
      assert g.SlotOf(i) == r.SlotOf(i + 1);
    }
  }

  /** Occupied slots are pairwise different exactly when the window does not straddle the wrap. */
  lemma SlotsDistinctIff(r: Ring)
    requires r.Valid()
    ensures (forall i, j :: 0 <= i < j < r.Len() ==> r.SlotOf(i) != r.SlotOf(j)) <==> !r.Straddles()
  {
    if r.Straddles() {
      var i := 0xFFFF_FFFF - r.getIdx;
      assert r.SlotOf(i) == r.SlotOf(i + 1) == 0;
    }
  }

  /** With the true counts of puts and gets at hand, the unsigned difference is the occupancy. */
  lemma LengthOfCounts(r: Ring, puts: nat, gets: nat)
    requires r.Valid() && gets <= puts <= gets + 15
    requires r.putIdx == Wrap32(puts) && r.getIdx == Wrap32(gets)
    ensures r.Len() == puts - gets
  {
    SubWraps(puts, gets);
  }

  // ---------------------------------------------------------------- removeJob

  /** Where the scan of removeJob stops: at the first slot in [from, to) with the id, else at the end. */
  function Scan(slots: seq<Job>, from: nat, to: nat, id: uint16): (k: nat)
    requires to <= |slots|
    ensures k == from || from < k <= to
    ensures forall i :: from <= i < k ==> slots[i].id != id
    ensures k < to ==> slots[k].id == id
    decreases if from < to then to - from else 0
  {
    if from >= to || slots[from].id == id then from else Scan(slots, from + 1, to, id)
  }

  /** The slots after moving everything in (at, to) one place down. */
  function ShiftDown(slots: seq<Job>, at: nat, to: nat): (s: seq<Job>)
    requires to <= |slots|
    ensures |s| == |slots|
    ensures forall i :: 0 <= i < |s| ==> s[i] == if at <= i < to - 1 then slots[i + 1] else slots[i]
  {
    seq(|slots|, i requires 0 <= i < |slots| => if at <= i < to - 1 then slots[i + 1] else slots[i])
  }

  /** removeJob reads past the array: the bound `put % 15 - 1` underflows. */
  predicate RemoveFaults(r: Ring) {
    r.Len() > 0 && r.putIdx % 15 == 0
  }

  /** removeJob as a function of the queue, where it is defined. */
  function Remove(r: Ring, id: uint16): Ring
    requires r.Valid() && !RemoveFaults(r)
  {
    if r.Len() == 0 then r else
      var p := r.putIdx % 15;
      var at := Scan(r.slots, r.getIdx % 15, p, id);
      Ring(ShiftDown(r.slots, at, p), Dec32(r.putIdx), r.getIdx, false)
  }

  /** The first position in `c` of a job with the id; |c| if there is none. */
  function FirstWith(c: seq<Job>, id: uint16): (k: nat)
    ensures k <= |c|
    ensures forall i :: 0 <= i < k ==> c[i].id != id
    ensures k < |c| ==> c[k].id == id
  {
    Scan(c, 0, |c|, id)
  }

  function DeleteAt(c: seq<Job>, k: nat): (d: seq<Job>)
    requires k < |c|
    ensures |d| == |c| - 1
    ensures forall i :: 0 <= i < |d| ==> d[i] == if i < k then c[i] else c[i + 1]
  {
    c[..k] + c[k + 1..]
  }

  /** The region in which removeJob looks at every queued job: the occupied slots do not wrap. */
  predicate Unwrapped(r: Ring) {
    r.getIdx % 15 < r.putIdx % 15
  }

  /** A window that starts at counter 2^32 - 1 and continues past it; its two oldest
      entries share slot 0, so it can only follow a colliding put. */
  predicate Aliased(r: Ring) {
    r.getIdx == 0xFFFF_FFFF && r.Len() >= 2
  }

  /** The position of the job that removeJob takes out: the first match when the occupied
      slots do not wrap and one exists, the newest job in every other case. */
  function Victim(r: Ring, id: uint16): (k: nat)
    requires r.Valid() && r.Len() > 0
    ensures k < r.Len()
  {
    var k := FirstWith(r.Contents(), id);
    if Unwrapped(r) && k < r.Len() then k else r.Len() - 1
  }

  lemma RemoveContents(r: Ring, id: uint16)
    requires r.Valid() && r.Len() > 0 && !RemoveFaults(r) && !Aliased(r)
    ensures Remove(r, id).Valid() && Remove(r, id).Len() == r.Len() - 1
    ensures Remove(r, id).Contents() == DeleteAt(r.Contents(), Victim(r, id))
    ensures Remove(r, id).Straddles() ==> r.Straddles()
    ensures Remove(r, id).FlagFaithful()
  {
    RemoveShape(r, id);
    if Unwrapped(r) {
      RemoveUnwrapped(r, id);
    } else {
      RemoveWrapped(r, id);
    }
  }

  lemma RemoveShape(r: Ring, id: uint16)
    requires r.Valid() && r.Len() > 0 && !RemoveFaults(r)
    ensures Remove(r, id).Valid() && Remove(r, id).Len() == r.Len() - 1
    ensures Remove(r, id).Straddles() ==> r.Straddles()
    ensures Remove(r, id).FlagFaithful()
  {
  }

  lemma RemoveWrapped(r: Ring, id: uint16)
    requires r.Valid() && r.Len() > 0 && !RemoveFaults(r) && !Unwrapped(r)
    ensures Remove(r, id).Valid()
    ensures Remove(r, id).Contents() == DeleteAt(r.Contents(), r.Len() - 1)
  {
    RemoveShape(r, id);
    var s := Remove(r, id);
    assert s.slots == r.slots;
    assert forall i :: 0 <= i < s.Len() ==> s.SlotOf(i) == r.SlotOf(i);
  }

  lemma RemoveUnwrapped(r: Ring, id: uint16)
    requires r.Valid() && r.Len() > 0 && !RemoveFaults(r) && !Aliased(r) && Unwrapped(r)
    ensures Remove(r, id).Valid()
    ensures Remove(r, id).Contents() == DeleteAt(r.Contents(), Victim(r, id))
  {
    RemoveShape(r, id);
    var s := Remove(r, id);
    var g, p := r.getIdx % 15, r.putIdx % 15;
    var w := r.slots[g..p];
    assert r.Contents() == w by {
      WindowContents(r, g, p);
    }
    assert s.putIdx % 15 == p - 1 by {
      ModBack(r.putIdx);
    }
    assert s.Contents() == s.slots[g..p - 1] by {
      WindowContents(s, g, p - 1);
    }
    DeleteFromWindow(r.slots, g, p, id);
  }

  /** Occupied slots that do not wrap are a contiguous slice. */
  lemma WindowContents(r: Ring, g: nat, p: nat)
    requires r.Valid() && !Aliased(r) && g == r.getIdx % 15 && p == r.putIdx % 15
    requires g < p || r.Len() == 0
    ensures g <= p && r.Contents() == r.slots[g..p]
  {
    WindowLength(r);
    forall i | 0 <= i < p - g
      ensures r.SlotOf(i) == g + i
    {
      ModStep(r.getIdx, i);
    }
  }

  lemma WindowLength(r: Ring)
    requires r.Valid() && !Aliased(r) && (Unwrapped(r) || r.Len() == 0)
    ensures r.getIdx + r.Len() < 0x1_0000_0000
    ensures r.Len() == r.putIdx % 15 - r.getIdx % 15
  {
    if r.getIdx + r.Len() < 0x1_0000_0000 {
      assert r.putIdx == r.getIdx + r.Len();
    }
  }

  lemma ModStep(x: nat, i: nat)
    requires x % 15 + i < 15
    ensures (x + i) % 15 == x % 15 + i
  {
    assert x + i == 15 * (x / 15) + (x % 15 + i);
  }

  lemma ModBack(x: nat)
    requires x % 15 > 0
    ensures (x - 1) % 15 == x % 15 - 1
  {
    assert x - 1 == 15 * (x / 15) + (x % 15 - 1);
  }

  /** Scanning a slice is scanning the window it came from. */
  lemma {:induction false} ScanSlice(slots: seq<Job>, g: nat, from: nat, p: nat, id: uint16)
    requires g <= from <= p <= |slots|
    ensures Scan(slots, from, p, id) == g + Scan(slots[g..p], from - g, p - g, id)
    decreases p - from
  {
    if from < p {
      assert slots[g..p][from - g] == slots[from];
      ScanSlice(slots, g, from + 1, p, id);
    }
  }

  /** Deleting the first match from a slice, as scan-and-shift does it. */
  lemma DeleteFromWindow(slots: seq<Job>, g: nat, p: nat, id: uint16)
    requires g < p <= |slots|
    ensures var k := FirstWith(slots[g..p], id);
            ShiftDown(slots, Scan(slots, g, p, id), p)[g..p - 1] ==
            DeleteAt(slots[g..p], if k < p - g then k else p - g - 1)
  {
    ScanSlice(slots, g, g, p, id);
    ShiftWindow(slots, g, p, FirstWith(slots[g..p], id));
  }

  lemma ShiftWindow(slots: seq<Job>, g: nat, p: nat, k: nat)
    requires g < p <= |slots| && k <= p - g
    ensures ShiftDown(slots, g + k, p)[g..p - 1] ==
            DeleteAt(slots[g..p], if k < p - g then k else p - g - 1)
  {
    var left := ShiftDown(slots, g + k, p)[g..p - 1];
    var d := DeleteAt(slots[g..p], if k < p - g then k else p - g - 1);
    forall i | 0 <= i < p - 1 - g
      ensures left[i] == d[i]
    {
      assert left[i] == ShiftDown(slots, g + k, p)[g + i];
      assert d[i] == slots[g + (if i < k then i else i + 1)];
    }
  }

  /** removeJob takes out the job it was asked for exactly when the occupied slots do not
      wrap or that job is the newest; asked for an absent job it still drops the newest. */
  lemma RemovesRequestedIff(r: Ring, id: uint16)
    requires r.Valid() && r.Len() > 0 && !RemoveFaults(r) && !Aliased(r)
    requires forall i, j :: 0 <= i < j < r.Len() ==> r.Contents()[i] != r.Contents()[j]
    ensures Remove(r, id).Valid()
    ensures var k := FirstWith(r.Contents(), id);
            if k == r.Len() then Remove(r, id).Contents() == r.Contents()[..r.Len() - 1]
            else Remove(r, id).Contents() == DeleteAt(r.Contents(), k)
                 <==> Unwrapped(r) || k == r.Len() - 1
  {
    RemoveContents(r, id);
    var c := r.Contents();
    var k := FirstWith(c, id);
    if k < |c| - 1 && !Unwrapped(r) {
      assert DeleteAt(c, k)[k] == c[k + 1];
      assert DeleteAt(c, |c| - 1)[k] == c[k];
    }
  }

  /** Without repetitions, what is deleted is what is missing. */
  lemma OnlyVictimLeaves(c: seq<Job>, v: nat)
    requires v < |c| && forall i, j :: 0 <= i < j < |c| ==> c[i] != c[j]
    ensures forall j :: j in c && j !in DeleteAt(c, v) <==> j == c[v]
  {
    var d := DeleteAt(c, v);
    forall i | 0 <= i < |c| && i != v
      ensures c[i] in d
    {
      assert d[if i < v then i else i - 1] == c[i];
    }
  }

  /** Whatever removeJob takes out has the id it was asked for exactly when the newest job has
      it, or some job has it and the occupied slots do not wrap; otherwise removeJob drops a
      job that nobody named. */
  lemma TakesNoOtherIff(r: Ring, id: uint16)
    requires r.Valid() && r.Len() > 0 && !RemoveFaults(r) && !Aliased(r)
    requires forall i, j :: 0 <= i < j < r.Len() ==> r.Contents()[i] != r.Contents()[j]
    ensures Remove(r, id).Valid()
    ensures var c, c' := r.Contents(), Remove(r, id).Contents();
            (forall j :: j in c && j !in c' ==> j.id == id) <==>
            c[|c| - 1].id == id || (Unwrapped(r) && exists i :: 0 <= i < |c| && c[i].id == id)
  {
    var c := r.Contents();
    RemoveContents(r, id);
    hide Remove, Ring.Contents, Scan, RemoveFaults, Aliased;
    OnlyVictimLeaves(c, Victim(r, id));
    assert c[Victim(r, id)] in c;
  }

  /** Two jobs in slots 14 and 0: asked for the older one, removeJob drops the newer one. */
  lemma WrongJobRemoved(a: Job, b: Job)
    requires a.id != b.id
    ensures var r := Ring(seq(15, i => if i == 0 then b else a), 16, 14, false);
            && r.Valid() && !RemoveFaults(r) && r.Contents() == [a, b]
            && Remove(r, a.id).Valid() && Remove(r, a.id).Contents() == [a]
  {
    var r := Ring(seq(15, i => if i == 0 then b else a), 16, 14, false);
    assert r.Contents() == [a, b];
    RemoveWrapped(r, a.id);
    assert DeleteAt([a, b], 1) == [a];
  }

  /** Fifteen jobs put into a new queue, none taken: removeJob leaves its array. */
  lemma FaultingRemove(a: Job)
    ensures var r := Ring(seq(15, _ => a), 15, 0, true);
            r.Valid() && r.FlagFaithful() && |r.Contents()| == 15 && RemoveFaults(r)
  {
  }

  lemma AliasedSlots(r: Ring)
    requires r.Valid() && Aliased(r)
    ensures r.putIdx == r.Len() - 1 && !RemoveFaults(r)
    ensures r.SlotOf(0) == 0 && forall i :: 1 <= i < r.Len() ==> r.SlotOf(i) == i - 1
  {
  }

  lemma AliasedWindow(r: Ring)
    requires r.Valid() && Aliased(r)
    ensures r.putIdx == r.Len() - 1 && !RemoveFaults(r)
    ensures r.Contents() == [r.slots[0]] + r.slots[..r.Len() - 1]
  {
    AliasedSlots(r);
    hide Ring.SlotOf, Ring.Len, Aliased;
    forall i | 0 <= i < r.Len()
      ensures r.Contents()[i] == ([r.slots[0]] + r.slots[..r.Len() - 1])[i]
    {
      assert r.Contents()[i] == r.slots[r.SlotOf(i)];
    }
  }

  /** What removeJob leaves of an aliased window, in terms of the slots it leaves. */
  lemma AliasedLeft(r: Ring, id: uint16)
    requires r.Valid() && Aliased(r)
    ensures !RemoveFaults(r) && Remove(r, id).Valid()
    ensures var n := r.Len();
            var left := ShiftDown(r.slots, Scan(r.slots, 0, n - 1, id), n - 1);
            Remove(r, id).Contents() == [left[0]] + left[..n - 2]
  {
    AliasedWindow(r);
    RemoveShape(r, id);
    var s := Remove(r, id);
    assert r.getIdx % 15 == 0 && r.putIdx % 15 == r.Len() - 1;
    assert s.slots == ShiftDown(r.slots, Scan(r.slots, 0, r.Len() - 1, id), r.Len() - 1);
    if r.Len() > 2 {
      AliasedWindow(s);
    }
    hide Remove, Scan, RemoveFaults;
  }

  /** The same slots in terms of those before. */
  lemma ShiftedPrefix(slots: seq<Job>, n: nat, id: uint16)
    requires 2 <= n <= |slots|
    ensures var left, w := ShiftDown(slots, Scan(slots, 0, n - 1, id), n - 1), slots[..n - 1];
            var k := FirstWith(w, id);
            [left[0]] + left[..n - 2] ==
            if n == 2 || k == n - 1 then ([slots[0]] + w)[..n - 1] else [DeleteAt(w, k)[0]] + DeleteAt(w, k)
  {
    var left := ShiftDown(slots, Scan(slots, 0, n - 1, id), n - 1);
    DeleteFromWindow(slots, 0, n - 1, id);
    assert slots[..n - 1] == slots[0..n - 1] && left[..n - 2] == left[0..n - 2];
    hide Scan;
  }

  /** In the aliased window the scan sees every slot, and each slot but the first is one
      position: removeJob deletes the first match among them, and the first slot left is
      seen twice again. Without a match, and with two positions for one slot, the last
      position goes. */
  lemma RemoveAliased(r: Ring, id: uint16)
    requires r.Valid() && Aliased(r)
    ensures !RemoveFaults(r) && Remove(r, id).Valid()
    ensures var c, n := r.Contents(), r.Len();
            var k := FirstWith(c[1..], id);
            Remove(r, id).Contents() ==
            if n == 2 || k == n - 1 then c[..n - 1] else [DeleteAt(c[1..], k)[0]] + DeleteAt(c[1..], k)
  {
    hide Remove, Scan, ShiftDown, DeleteAt, FirstWith, RemoveFaults, Ring.Contents;
    var w := r.slots[..r.Len() - 1];
    AliasedWindow(r);
    assert r.Contents()[1..] == w;
    AliasedLeft(r, id);
    ShiftedPrefix(r.slots, r.Len(), id);
  }

  // ---------------------------------------------------------------- any interleaving

  /** The operations of all threads on one queue, in the order in which they take its mutex. */
  datatype Op = PutOp(job: Job) | GetOp | RemoveOp(id: uint16)

  /** One pass through the mutex; a put into a full queue and a get from an empty one wait. */
  function Do(r: Ring, op: Op): Ring
    requires r.Valid() && (op.RemoveOp? ==> !RemoveFaults(r))
  {
    match op
    case PutOp(job) => if r.Len() == 15 then r else Put(r, job)
    case GetOp => if r.Len() == 0 then r else Get(r)
    case RemoveOp(id) => Remove(r, id)
  }

  /** What a counter that never wraps would say after the operations. */
  function Occupancy(ops: seq<Op>): (n: nat)
    ensures n <= 15
  {
    if ops == [] then 0
    else
      var n := Occupancy(ops[..|ops| - 1]);
      if ops[|ops| - 1].PutOp? then if n == 15 then n else n + 1
      else if n == 0 then n else n - 1
  }

  ghost predicate Interleaving(rs: seq<Ring>, ops: seq<Op>) {
    && |rs| == |ops| + 1
    && |rs[0].slots| == 15 && rs[0].putIdx == rs[0].getIdx && !rs[0].full
    && forall i :: 0 <= i < |ops| ==>
         rs[i].Valid() && (ops[i].RemoveOp? ==> !RemoveFaults(rs[i])) && rs[i + 1] == Do(rs[i], ops[i])
  }

  /** In every interleaving of puts, gets and removals, from any value of the counters and
      through every wrap of them, collisions included: the unsigned difference of the counters
      is the number of jobs queued, and the stored state is FULL exactly at fifteen. */
  lemma {:induction false} FullIffFifteen(rs: seq<Ring>, ops: seq<Op>, i: nat)
    requires Interleaving(rs, ops) && i < |rs|
    ensures rs[i].Valid() && rs[i].Len() == Occupancy(ops[..i])
    ensures rs[i].full <==> Occupancy(ops[..i]) == 15
  {
    if i > 0 {
      FullIffFifteen(rs, ops, i - 1);
      assert ops[..i][..i - 1] == ops[..i - 1];
      StepShape(rs[i - 1], ops[i - 1]);
    }
  }

  lemma StepShape(r: Ring, op: Op)
    requires r.Valid() && r.FlagFaithful() && (op.RemoveOp? ==> !RemoveFaults(r))
    ensures Do(r, op).Valid() && Do(r, op).FlagFaithful()
    ensures Do(r, op).Len() == match op
                               case PutOp(_) => (if r.Len() == 15 then 15 else r.Len() + 1)
                               case _ => (if r.Len() == 0 then 0 else r.Len() - 1)
  {
    match op
    case PutOp(job) => if r.Len() < 15 { PutContents(r, job); }
    case GetOp => if r.Len() > 0 { GetContents(r); }
    case RemoveOp(id) => if r.Len() > 0 { RemoveShape(r, id); }
  }

  // ---------------------------------------------------------------- the object

  /** Queue_t. Each method is one pass through the queue mutex. */
  class Queue {
    var jobs: array<Job>
    var putIdx: uint32
    var getIdx: uint32
    var full: bool

    ghost predicate Valid()
      reads this, jobs
    {
      jobs.Length == 15 && View().Valid()
    }

    function View(): Ring
      reads this, jobs
    {
      Ring(jobs[..], putIdx, getIdx, full)
    }

    /** QueueInit. The slots start with whatever the allocation held. */
    constructor ()
      ensures Valid() && fresh(jobs)
      ensures View().Contents() == [] && View().FlagFaithful() && !View().Straddles()
    {
      jobs := new Job[15];
      putIdx, getIdx, full := 0, 0, false;
    }

    /** putJob from taking the mutex to waiting on put_condv or to the end. */
    method PutJob(job: Job) returns (mustWait: bool)
      requires Valid()
      modifies this, jobs
      ensures Valid() && jobs == old(jobs)
      ensures mustWait <==> old(View().Len()) == 15
      ensures View() == if mustWait then old(View()) else Put(old(View()), job)
      ensures !mustWait && !old(PutCollides(View())) ==>
              View().Contents() == old(View().Contents()) + [job]
    {
      ghost var before := View();
      if Sub32(putIdx, getIdx) == CAPACITY {
        return true;
      }
      PutContents(before, job);
      if Sub32(putIdx, getIdx) == CAPACITY - 1 {
        full := true;
      }
      jobs[putIdx % CAPACITY] := job;
      putIdx := Inc32(putIdx);
      mustWait := false;
      assert View() == Put(before, job);
    }

    /** sendJob from taking the queue mutex to waiting on get_condv or to releasing it. */
    method GetJob() returns (job: Option<Job>)
      requires Valid()
      modifies this
      ensures Valid() && jobs == old(jobs)
      ensures job.None? <==> old(View().Len()) == 0
      ensures View() == if job.None? then old(View()) else Get(old(View()))
      ensures job.Some? ==> old(View().Contents()) == [job.value] + View().Contents()
    {
      ghost var before := View();
      if Sub32(putIdx, getIdx) == 0 {
        return None;
      }
      GetContents(before);
      if full {
        full := false;
      }
      job := Some(jobs[getIdx % CAPACITY]);
      getIdx := Inc32(getIdx);
      assert View() == Get(before);
    }

    /** The scan of removeJob: the slot it stops at. */
    method ScanFor(jobid: uint16) returns (idx: nat)
      requires Valid()
      ensures idx == Scan(View().slots, getIdx % 15, putIdx % 15, jobid)
    {
      idx := getIdx % CAPACITY;
      while idx < putIdx % CAPACITY
        invariant Scan(jobs[..], idx, putIdx % 15, jobid) == Scan(jobs[..], getIdx % 15, putIdx % 15, jobid)
      {
        if jobs[idx].id == jobid {
          break;
        }
        idx := idx + 1;
      }
    }

    /** The shift of removeJob: moves the slots after `at` one place down, up to `bound`. */
    method ShiftFrom(at: nat, bound: uint32) returns (fault: bool)
      requires Valid() && at < 15 && (bound < 14 || bound == 0xFFFF_FFFF)
      modifies jobs
      ensures fault <==> bound == 0xFFFF_FFFF
      ensures !fault ==> jobs[..] == ShiftDown(old(jobs[..]), at, bound + 1)
    {
      var idx := at;
      while idx < bound
        invariant at <= idx < 15 && (idx <= bound || idx == at)
        invariant forall i :: 0 <= i < at || idx <= i < 15 ==> jobs[i] == old(jobs[i])
        invariant forall i :: at <= i < idx ==> jobs[i] == old(jobs[i + 1])
      {
        if idx + 1 >= jobs.Length {
          return true;
        }
        jobs[idx] := jobs[idx + 1];
        idx := idx + 1;
      }
      return false;
    }

    /** removeJob. `fault` reports an access outside the array; nothing is said of the
        queue after it. */
    method RemoveJob(jobid: uint16) returns (fault: bool)
      requires Valid()
      modifies this, jobs
      ensures jobs == old(jobs)
      ensures fault <==> old(RemoveFaults(View()))
      ensures !fault ==> View() == Remove(old(View()), jobid)
      ensures !fault ==> Valid()
      ensures !fault && !old(Aliased(View())) && old(View().Len()) > 0 ==>
              View().Contents() == DeleteAt(old(View().Contents()), old(Victim(View(), jobid)))
    {
      ghost var before := View();
      fault := false;
      if Sub32(putIdx, getIdx) != 0 {
        if !RemoveFaults(before) {
          RemoveShape(before, jobid);
          if !Aliased(before) {
            RemoveContents(before, jobid);
          }
        }
        var at := ScanFor(jobid);
        fault := ShiftFrom(at, Sub32(putIdx % CAPACITY, 1));
        if fault {
          return;
        }
        putIdx := Dec32(putIdx);
        if full {
          full := false;
        }
        assert View() == Remove(before, jobid);
      }
    }
  }
}
