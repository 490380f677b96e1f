/** The ten-slot job history of the main server and its lookup by 16-bit job id
    (main_server.h, JobHistory_t and job_array). */
module History {
  import opened Words

  datatype JobState = Wait | Run | Finished | Unsubmitted | Signaled | Error

  /** JobHistory_t without its time stamps. */
  datatype Record = Record(id: uint16, ipaddr: uint32, state: JobState, exitStatus: byte, queueIdx: byte)

  datatype History = History(slots: seq<Option<Record>>, putIdx: uint32)

  const EMPTY := History([None, None, None, None, None, None, None, None, None, None], 0)

  /** The job id of the n-th submission, counting from zero. */
  function IdOf(n: nat): uint16 {
    n % 0x1_0000
  }

  function SlotFor(n: nat): nat {
    IdOf(n) % 10
  }

  /** The submission whose record is in slot `i` after `n` submissions: the latest one for that slot. */
  function Occupant(n: nat, i: nat): (k: Option<nat>)
    requires i < 10
    ensures k.Some? ==> k.value < n && SlotFor(k.value) == i
    ensures k.Some? ==> forall m :: k.value < m < n ==> SlotFor(m) != i
    ensures k.None? ==> forall m :: 0 <= m < n ==> SlotFor(m) != i
  {
    if n == 0 then None
    else if SlotFor(n - 1) == i then Some(n - 1)
    else Occupant(n - 1, i)
  }

  /** The record of submission `k` is still in the table after `n` submissions. */
  predicate Retained(n: nat, k: nat) {
    Occupant(n, SlotFor(k)) == Some(k)
  }

  lemma OccupiedIff(n: nat, i: nat)
    requires i < 10
    ensures Occupant(n, i).Some? <==> i < n
  {
    assert SlotFor(i) == i;
    assert forall k :: 0 <= k < i ==> SlotFor(k) == k;
  }

  /** The table after `n` submissions. */
  predicate Agrees(h: History, n: nat) {
    && |h.slots| == 10
    && h.putIdx == Wrap32(n)
    && forall i :: 0 <= i < 10 ==>
         match Occupant(n, i)
         case None => h.slots[i] == None
         case Some(k) => h.slots[i].Some? && h.slots[i].value.id == IdOf(k)
  }

  // ---------------------------------------------------------------- adding a record

  /** The record newJob builds for a submission; `exit0` is whatever the allocation held. */
  function NewRecord(h: History, ipaddr: uint32, queueIdx: byte, exit0: byte): Record {
    Record(h.putIdx % 0x1_0000, ipaddr, Wait, exit0, queueIdx)
  }

  function Append(h: History, rec: Record): History
    requires |h.slots| == 10
  {
    History(h.slots[rec.id % 10 := Some(rec)], Inc32(h.putIdx))
  }

  lemma WrappedId(n: nat)
    ensures Wrap32(n) % 0x1_0000 == IdOf(n)
  {
  }

  lemma AppendAgrees(h: History, n: nat, ipaddr: uint32, queueIdx: byte, exit0: byte)
    requires Agrees(h, n)
    ensures NewRecord(h, ipaddr, queueIdx, exit0).id == IdOf(n)
    ensures Agrees(Append(h, NewRecord(h, ipaddr, queueIdx, exit0)), n + 1)
  {
    WrappedId(n);
    IncWraps(n);
  }

  lemma RetainedStep(n: nat, k: nat)
    requires k <= n
    ensures Retained(n + 1, k) <==> k == n || (Retained(n, k) && SlotFor(k) != SlotFor(n))
  {
  }

  /** A record that is in the table now was there ever since its submission. */
  lemma {:induction false} RetainedEarlier(n: nat, m: nat, k: nat)
    requires k < m <= n && Retained(n, k)
    ensures Retained(m, k)
  {
    if m < n {
      RetainedStep(n - 1, k);
      RetainedEarlier(n - 1, m, k);
    }
  }

  // ---------------------------------------------------------------- lookup

  /** findJob from slot `i` on. */
  function FindFrom(slots: seq<Option<Record>>, i: nat, id: uint16): (k: int)
    requires |slots| == 10 && i <= 10
    ensures k == -1 || (i <= k < 10 && slots[k].Some? && slots[k].value.id == id)
    decreases 10 - i
  {
    if i == 10 || slots[i].None? then -1
    else if slots[i].value.id == id then i
    else FindFrom(slots, i + 1, id)
  }

  function Find(h: History, id: uint16): int
    requires |h.slots| == 10
  {
    FindFrom(h.slots, 0, id)
  }

  lemma {:induction false} FindReaches(slots: seq<Option<Record>>, i: nat, id: uint16, goal: nat)
    requires |slots| == 10 && i <= goal < 10
    requires forall j :: i <= j <= goal ==> slots[j].Some?
    requires slots[goal].value.id == id
    requires forall j :: 0 <= j < 10 && slots[j].Some? && slots[j].value.id == id ==> j == goal
    ensures FindFrom(slots, i, id) == goal
    decreases goal - i
  {
    if i < goal {
      FindReaches(slots, i + 1, id, goal);
    }
  }

  /** In every reachable table, also after ids wrapped, the scan of findJob is the direct
      lookup of slot id % 10, and it never leaves the array. */
  lemma FindIsDirect(h: History, n: nat, id: uint16)
    requires Agrees(h, n)
    ensures Find(h, id) ==
            if h.slots[id % 10].Some? && h.slots[id % 10].value.id == id then id % 10 else -1
  {
    forall i | 0 <= i < 10
      ensures h.slots[i].Some? <==> i < n
      ensures h.slots[i].Some? ==> h.slots[i].value.id % 10 == i
    {
      OccupiedIff(n, i);
    }
    if h.slots[id % 10].Some? && h.slots[id % 10].value.id == id {
      FindReaches(h.slots, 0, id, id % 10);
    }
  }

  /** findJob finds every retained record by its id. */
  lemma FindRetained(h: History, n: nat, k: nat)
    requires Agrees(h, n) && Retained(n, k)
    ensures Find(h, IdOf(k)) == SlotFor(k)
  {
    FindIsDirect(h, n, IdOf(k));
  }

  /** A record that findJob finds is retained, and belongs to the latest submission with that id. */
  lemma FoundIsLatest(h: History, n: nat, id: uint16)
    requires Agrees(h, n) && Find(h, id) >= 0
    ensures Find(h, id) == id % 10 && Occupant(n, id % 10).Some?
    ensures var k := Occupant(n, id % 10).value;
            Retained(n, k) && IdOf(k) == id && forall m :: k < m < n ==> IdOf(m) != id
  {
    FindIsDirect(h, n, id);
    var k := Occupant(n, id % 10).value;
    forall m | k < m < n
      ensures IdOf(m) != id
    {
      assert SlotFor(m) != id % 10;
    }
  }

  /** While fewer than 65536 submissions separate them, an id names one submission. */
  lemma IdsNameOne(n: nat, k: nat, m: nat)
    requires k <= m < n <= k + 0x1_0000 && IdOf(k) == IdOf(m)
    ensures k == m
  {
    assert m - k < 0x1_0000 && (m - k) % 0x1_0000 == 0;
  }

  /** The lookup of a recent submission: found exactly when its own record is retained. */
  lemma FindRecent(h: History, n: nat, k: nat)
    requires Agrees(h, n) && k < n <= k + 0x1_0000
    ensures Find(h, IdOf(k)) == if Retained(n, k) then SlotFor(k) else -1
  {
    if Retained(n, k) {
      FindRetained(h, n, k);
    } else if Find(h, IdOf(k)) >= 0 {
      FoundIsLatest(h, n, IdOf(k));
      IdsNameOne(n, k, Occupant(n, SlotFor(k)).value);
    }
  }

  /** The submission whose record findJob finds for an id, if it finds one. */
  function Owner(n: nat, id: uint16): (k: Option<nat>)
    ensures k.Some? ==> k.value < n && Retained(n, k.value) && IdOf(k.value) == id
  {
    var k := Occupant(n, id % 10);
    if k.Some? && IdOf(k.value) == id then k else None
  }

  lemma FindIsOwner(h: History, n: nat, id: uint16)
    requires Agrees(h, n)
    ensures Find(h, id) >= 0 <==> Owner(n, id).Some?
    ensures Find(h, id) >= 0 ==> Find(h, id) == SlotFor(Owner(n, id).value)
  {
    FindIsDirect(h, n, id);
  }

  lemma RetainedIsOwner(n: nat, k: nat)
    requires Retained(n, k)
    ensures Owner(n, IdOf(k)) == Some(k)
  {
  }

  /** While fewer than 65536 jobs were submitted after it, an id finds no other submission. */
  lemma RecentIsOwner(n: nat, k: nat)
    requires k < n <= k + 0x1_0000
    ensures Owner(n, IdOf(k)) in {None, Some(k)}
  {
    var o := Owner(n, IdOf(k));
    if o.Some? {
      var m := o.value;
      assert SlotFor(k) == SlotFor(m);
      IdsNameOne(n, k, m);
    }
  }

  // ---------------------------------------------------------------- what is kept and what is freed

  /** Retention without the table: no later submission went to the same slot. */
  lemma RetainedIff(n: nat, k: nat)
    ensures Retained(n, k) <==> k < n && forall m :: k < m < n ==> SlotFor(m) != SlotFor(k)
  {
    var o := Occupant(n, SlotFor(k));
    if k < n && o.Some? && o.value != k {
      assert SlotFor(o.value) == SlotFor(k);
    }
  }

  /** The first ids of an id cycle visit every slot. */
  predicate JustWrapped(n: nat) {
    n >= 0x1_0000 && 0 < n % 0x1_0000 < 10
  }

  /** The table holds exactly the last ten submissions, except just after the ids wrap,
      where 65535 and 0 do not fall on neighbouring slots. */
  lemma LastTenIff(n: nat)
    ensures (forall k: nat :: Retained(n, k) <==> n - 10 <= k < n) <==> !JustWrapped(n)
  {
    if JustWrapped(n) {
      var k := EarlyEviction(n);
      assert !(Retained(n, k) <==> n - 10 <= k < n);
    } else {
      forall k: nat
        ensures Retained(n, k) <==> n - 10 <= k < n
      {
        LastTen(n, k);
      }
    }
  }

  lemma EarlyEviction(n: nat) returns (k: nat)
    requires JustWrapped(n)
    ensures n - 10 <= k < n && !Retained(n, k)
  {
    var q, r := n / 0x1_0000, n % 0x1_0000;
    var m: nat;
    if r <= 4 {
      k, m := n - r - 6, n - r;
      assert k == (q - 1) * 0x1_0000 + 65530 && m == q * 0x1_0000;
      assert IdOf(k) == 65530 && IdOf(m) == 0;
    } else {
      k, m := n - 10, n - 4;
      assert k == (q - 1) * 0x1_0000 + (65526 + r) && m == q * 0x1_0000 + (r - 4);
      assert IdOf(k) == 65526 + r && IdOf(m) == r - 4;
    }
    assert SlotFor(m) == SlotFor(k);
    RetainedIff(n, k);
  }

  lemma LastTen(n: nat, k: nat)
    requires !JustWrapped(n)
    ensures Retained(n, k) <==> n - 10 <= k < n
  {
    RetainedIff(n, k);
    if k < n - 10 {
      var m := NextInSlot(n, k);
      assert SlotFor(m) == SlotFor(k);
    } else if k < n {
      forall m | k < m < n
        ensures SlotFor(m) != SlotFor(k)
      {
        NearSlots(n, k, m);
      }
    }
  }

  /** Two of the last ten submissions use different slots. */
  lemma NearSlots(n: nat, k: nat, m: nat)
    requires !JustWrapped(n) && n - 10 <= k < m < n
    ensures SlotFor(m) != SlotFor(k)
  {
    assert IdOf(m) == IdOf(k) + (m - k);
  }

  lemma NextInSlot(n: nat, k: nat) returns (m: nat)
    requires k < n - 10 && !JustWrapped(n)
    ensures k < m < n && SlotFor(m) == SlotFor(k)
  {
    var q: nat, r: nat := k / 0x1_0000, IdOf(k);
    if r + 10 < 0x1_0000 {
      m := k + 10;
      assert IdOf(m) == r + 10;
    } else {
      var epoch := (q + 1) * 0x1_0000;
      m := epoch + SlotFor(k);
      assert IdOf(m) == SlotFor(k);
      assert n % 0x1_0000 == n - epoch || n >= epoch + 10;
    }
  }

  /** Loops that run over min(history_putidx, 10) slots never meet a null record. */
  lemma NoNullInRange(h: History, n: nat, i: nat)
    requires Agrees(h, n) && i < 10 && i < h.putIdx
    ensures h.slots[i].Some?
  {
    OccupiedIff(n, i);
  }

  /** The submissions whose records newJob has freed during the first `n` submissions, in order. */
  function Freed(n: nat): (f: seq<nat>)
  {
    if n == 0 then []
    else Freed(n - 1) + FreedBy(n - 1)
  }

  /** What the submission with number `k` frees: nothing while its id is below ten. */
  function FreedBy(k: nat): (f: seq<nat>)
    ensures |f| == if IdOf(k) >= 10 then 1 else 0
    ensures |f| == 1 ==> f[0] < k && Retained(k, f[0]) && !Retained(k + 1, f[0])
  {
    OccupiedIff(k, SlotFor(k));
    if IdOf(k) >= 10 then [Occupant(k, SlotFor(k)).value] else []
  }

  /** How many records a history of `n` submissions leaves allocated: every full cycle of
      ids leaks ten, and the running cycle holds at most ten. */
  function LiveAfter(n: nat): nat {
    10 * (n / 0x1_0000) + if IdOf(n) < 10 then IdOf(n) else 10
  }

  lemma LiveStep(n: nat)
    ensures LiveAfter(n + 1) == LiveAfter(n) + if IdOf(n) < 10 then 1 else 0
  {
    var q, r := n / 0x1_0000, n % 0x1_0000;
    assert n + 1 == q * 0x1_0000 + (r + 1);
    if r == 0xFFFF {
      assert (n + 1) / 0x1_0000 == q + 1 && IdOf(n + 1) == 0;
    } else {
      assert (n + 1) / 0x1_0000 == q && IdOf(n + 1) == r + 1;
    }
  }

  /** Records allocated minus records freed. */
  lemma {:induction false} LiveRecords(n: nat)
    ensures n - |Freed(n)| == LiveAfter(n)
  {
    if n > 0 {
      LiveRecords(n - 1);
      LiveStep(n - 1);
    }
  }

  /** No record is freed twice, and no freed record is in the table. */
  lemma {:induction false} FreedOnce(n: nat)
    ensures forall i, j :: 0 <= i < j < |Freed(n)| ==> Freed(n)[i] != Freed(n)[j]
    ensures forall i :: 0 <= i < |Freed(n)| ==> Freed(n)[i] < n && !Retained(n, Freed(n)[i])
  {
    if n > 0 {
      FreedOnce(n - 1);
      var before := Freed(n - 1);
      forall i | 0 <= i < |before|
        ensures !Retained(n, before[i])
      {
        RetainedStep(n - 1, before[i]);
      }
    }
  }

  // ---------------------------------------------------------------- updating a record

  /** `job_array[findJob(id)]->state = state; ->exit_status = exit` when the record exists. */
  function SetState(h: History, id: uint16, state: JobState, exit: byte): (h': History)
    requires |h.slots| == 10
    ensures |h'.slots| == 10 && h'.putIdx == h.putIdx
  {
    var i := Find(h, id);
    if i < 0 then h
    else h.(slots := h.slots[i := Some(h.slots[i].value.(state := state, exitStatus := exit))])
  }

  /** `job_array[findJob(id)]` is an access outside the array: unsubmit does not check. */
  predicate MarkFaults(h: History, id: uint16)
    requires |h.slots| == 10
  {
    Find(h, id) < 0
  }

  /** `job_array[findJob(id)]->state = STATE_UNSUBMITED` when the record exists. */
  function MarkUnsubmitted(h: History, id: uint16): (h': History)
    requires |h.slots| == 10
    ensures |h'.slots| == 10 && h'.putIdx == h.putIdx
  {
    var i := Find(h, id);
    if i < 0 then h
    else h.(slots := h.slots[i := Some(h.slots[i].value.(state := Unsubmitted))])
  }

  function SetQueue(h: History, id: uint16, queueIdx: byte): (h': History)
    requires |h.slots| == 10
    ensures |h'.slots| == 10 && h'.putIdx == h.putIdx
  {
    var i := Find(h, id);
    if i < 0 then h
    else h.(slots := h.slots[i := Some(h.slots[i].value.(queueIdx := queueIdx))])
  }

  lemma UpdatesAgree(h: History, n: nat, id: uint16, state: JobState, exit: byte, queueIdx: byte)
    requires Agrees(h, n)
    ensures Agrees(SetState(h, id, state, exit), n)
    ensures Agrees(MarkUnsubmitted(h, id), n)
    ensures Agrees(SetQueue(h, id, queueIdx), n)
  {
  }

  /** Each of the three updates touches the record of the owner of the id and no other. */
  lemma UpdateOwner(h: History, n: nat, id: uint16, st: JobState, exit: byte, q: byte, m: nat)
    requires Agrees(h, n) && Retained(n, m)
    ensures h.slots[SlotFor(m)].Some?
    ensures var rec, own := h.slots[SlotFor(m)].value, Owner(n, id) == Some(m);
            && SetState(h, id, st, exit).slots[SlotFor(m)] == Some(if own then rec.(state := st, exitStatus := exit) else rec)
            && MarkUnsubmitted(h, id).slots[SlotFor(m)] == Some(if own then rec.(state := Unsubmitted) else rec)
            && SetQueue(h, id, q).slots[SlotFor(m)] == Some(if own then rec.(queueIdx := q) else rec)
  {
    FindIsOwner(h, n, id);
    assert h.slots[SlotFor(m)].Some?;
    hide Find, Agrees;
  }

  // ---------------------------------------------------------------- the object

  /** The history part of MainServer_t. Each method is one pass through job_hist_mtx. */
  class Table {
    var jobArray: array<Option<Record>>
    var historyPutIdx: uint32

    ghost predicate Valid()
      reads this
    {
      jobArray.Length == 10
    }

    function View(): History
      reads this, jobArray
    {
      History(jobArray[..], historyPutIdx)
    }

    constructor ()
      ensures Valid() && fresh(jobArray) && View() == EMPTY && Agrees(View(), 0)
    {
      jobArray := new Option<Record>[10](i => None);
      historyPutIdx := 0;
    }

    /** The history section of newJob; `freed` is the record handed to free(). */
    method NewJob(ipaddr: uint32, queueIdx: byte, exit0: byte, ghost n: nat) returns (id: uint16, freed: Option<Record>)
      requires Valid() && Agrees(View(), n)
      modifies this, jobArray
      ensures Valid() && jobArray == old(jobArray) && Agrees(View(), n + 1)
      ensures View() == Append(old(View()), old(NewRecord(View(), ipaddr, queueIdx, exit0)))
      ensures id == IdOf(n)
      ensures freed == if FreedBy(n) == [] then None else old(View().slots[SlotFor(n)])
      ensures freed.Some? ==> freed.value.id == IdOf(FreedBy(n)[0])
    {
      AppendAgrees(View(), n, ipaddr, queueIdx, exit0);
      OccupiedIff(n, SlotFor(n));
      id := historyPutIdx % 0x1_0000;
      var rec := Record(id, ipaddr, Wait, exit0, queueIdx);
      historyPutIdx := Inc32(historyPutIdx);
      freed := None;
      if id >= 10 {
        freed := jobArray[id % 10];
      }
      jobArray[id % 10] := Some(rec);
    }

    /** findJob. */
    method FindJob(jobid: uint16) returns (idx: int)
      requires Valid()
      ensures idx == Find(View(), jobid)
    {
      var i := 0;
      while jobArray[i].Some?
        invariant 0 <= i < 10
        invariant Find(View(), jobid) == FindFrom(jobArray[..], i, jobid)
        decreases 10 - i
      {
        if jobArray[i].value.id == jobid {
          return i;
        }
        i := i + 1;
        if i == 10 {
          break;
        }
      }
      return -1;
    }

    /** The critical section of changeStateJob. */
    method ChangeState(jobid: uint16, state: JobState, exit: byte)
      requires Valid()
      modifies jobArray
      ensures View() == SetState(old(View()), jobid, state, exit)
    {
      var i := FindJob(jobid);
      if i >= 0 {
        jobArray[i] := Some(jobArray[i].value.(state := state, exitStatus := exit));
      }
    }

    /** The last critical section of unsubmit; `fault` reports the access to job_array[-1]. */
    method Withdraw(jobid: uint16) returns (fault: bool)
      requires Valid()
      modifies jobArray
      ensures fault <==> old(MarkFaults(View(), jobid))
      ensures View() == MarkUnsubmitted(old(View()), jobid)
    {
      var i := FindJob(jobid);
      fault := i < 0;
      if !fault {
        jobArray[i] := Some(jobArray[i].value.(state := Unsubmitted));
      }
    }

    /** The last critical section of putJobBack; `found` is false when the job is then freed. */
    method ChangeQueue(jobid: uint16, queueIdx: byte) returns (found: bool)
      requires Valid()
      modifies jobArray
      ensures View() == SetQueue(old(View()), jobid, queueIdx)
      ensures found <==> old(Find(View(), jobid)) >= 0
    {
      var i := FindJob(jobid);
      found := i >= 0;
      if found {
        jobArray[i] := Some(jobArray[i].value.(queueIdx := queueIdx));
      }
    }
  }
}
