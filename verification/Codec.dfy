/** The packed message layouts, their setters and their getters (PROTO_DIST_QUEUE.h). */
module Codec {
  import opened Words
  import opened Jobs

  type Bytes = seq<byte>

  const SZ_PATH := 256
  const SZ_HEADER := 5
  const VER_1: uint16 := 0x8001

  // The values of the Type enumeration.
  const SUB_NO_INTER: byte := 0
  const SUB_INTERACTIVE: byte := 1
  const SUB_RESP: byte := 2
  const JOBSTATE: byte := 3
  const JOBSTATE_RESP: byte := 4
  const QUESTATE: byte := 5
  const QUESTATE_RESP: byte := 6
  const UNSUB: byte := 7
  const UNSUB_RESP: byte := 8
  const SENDJOB_NOINTER: byte := 9
  const SENDJOB_INTER: byte := 10
  const CH_EXEC_SER: byte := 11
  const CH_EXEC_SER_ACK: byte := 12
  const JOB_REQ: byte := 13
  const JOB_DONE: byte := 14
  const JOB_RUN: byte := 15
  const JOB_SIG: byte := 16
  const CLIENT_CLOSED: byte := 17
  const SERVER_CLOSED: byte := 18
  const BAD_PARAMS: byte := 19

  // The message types that use the same member of the payload union.
  const BARE_KINDS := {CH_EXEC_SER, CH_EXEC_SER_ACK, JOB_REQ, CLIENT_CLOSED, SERVER_CLOSED, BAD_PARAMS}
  const ID_KINDS := {SUB_RESP, JOBSTATE, UNSUB, UNSUB_RESP}
  const STATE_KINDS := {JOBSTATE_RESP, JOB_DONE, JOB_RUN, JOB_SIG}
  const EXEC_KINDS := {SUB_NO_INTER, SENDJOB_NOINTER}
  const EXEC_ADDR_KINDS := {SUB_INTERACTIVE, SENDJOB_INTER}

  // The values of the JOB_STATE enumeration that travel in a Job_State.
  const STATE_WAIT: byte := 0
  const STATE_RUN: byte := 1
  const STATE_FINISHED: byte := 2
  const STATE_UNSUBMITED: byte := 3
  const STATE_SIGNALED: byte := 4
  const STATE_ERROR: byte := 5

  // The values of the QUEUE_STATE enumeration.
  const STATE_AVAIL: byte := 0
  const STATE_FULL: byte := 1

  /** The members of the payload union. */
  datatype Body =
    | NoBody
    | IdBody(id: uint16)
    | QueueBody(queue: byte)
    | StateBody(state: byte, id: uint16, exit: byte)
    | QueueStateBody(state: byte, queue: byte)
    | ExecBody(id: uint16, file: Bytes, dir: Bytes)
    | ExecAddrBody(id: uint16, port: uint16, ipaddr: uint32, file: Bytes, dir: Bytes)

  datatype Msg = Msg(kind: byte, body: Body)

  /** The union member that a message type uses. */
  predicate WellFormed(m: Msg) {
    match m.body
    case NoBody => m.kind in BARE_KINDS
    case IdBody(_) => m.kind in ID_KINDS
    case QueueBody(_) => m.kind == QUESTATE
    case StateBody(_, _, _) => m.kind in STATE_KINDS
    case QueueStateBody(_, _) => m.kind == QUESTATE_RESP
    case ExecBody(_, file, dir) => m.kind in EXEC_KINDS && |file| == SZ_PATH && |dir| == SZ_PATH
    case ExecAddrBody(_, _, _, file, dir) => m.kind in EXEC_ADDR_KINDS && |file| == SZ_PATH && |dir| == SZ_PATH
  }

  // ---------------------------------------------------------------- layouts

  /** htons, as two bytes in memory. */
  function Net16(x: uint16): (b: Bytes)
    ensures |b| == 2 && GetNet16(b, 0) == x
  {
    var hi: nat, lo: nat := x / 0x100, x % 0x100;
    [hi, lo]
  }

  function GetNet16(b: Bytes, at: nat): uint16
    requires at + 2 <= |b|
  {
    b[at] as int * 0x100 + b[at + 1]
  }

  /** A 16-bit field stored as it is, least significant byte first. */
  function Raw16(x: uint16): (b: Bytes)
    ensures |b| == 2 && GetRaw16(b, 0) == x
  {
    var hi: nat, lo: nat := x / 0x100, x % 0x100;
    [lo, hi]
  }

  function GetRaw16(b: Bytes, at: nat): uint16
    requires at + 2 <= |b|
  {
    b[at] + b[at + 1] as int * 0x100
  }

  function Raw32(x: uint32): (b: Bytes)
    ensures |b| == 4 && GetRaw32(b, 0) == x
  {
    Raw16(x % 0x1_0000) + Raw16(x / 0x1_0000)
  }

  function GetRaw32(b: Bytes, at: nat): uint32
    requires at + 4 <= |b|
  {
    GetRaw16(b, at) + GetRaw16(b, at + 2) * 0x1_0000
  }

  function EncodeBody(body: Body): Bytes {
    match body
    case NoBody => []
    case IdBody(id) => Net16(id)
    case QueueBody(q) => [q]
    case StateBody(state, id, exit) => [state] + Net16(id) + [exit]
    case QueueStateBody(state, q) => [state, q]
    case ExecBody(id, file, dir) => Net16(id) + file + dir
    case ExecAddrBody(id, port, ipaddr, file, dir) => Net16(id) + Raw16(port) + Raw32(ipaddr) + file + dir
  }

  lemma BodySize(m: Msg)
    requires WellFormed(m)
    ensures |EncodeBody(m.body)| <= 520
  {
  }

  /** The first sz8 bytes of a Msg: sz8, version, type, then the payload in use. */
  function Encode(m: Msg): (b: Bytes)
    requires WellFormed(m)
    ensures SZ_HEADER <= |b| <= 525 && |b| == SZ_HEADER + |EncodeBody(m.body)|
    ensures GetNet16(b, 0) == |b| && b[4] == m.kind
  {
    BodySize(m);
    var body := EncodeBody(m.body);
    Net16(SZ_HEADER + |body|) + Net16(VER_1) + [m.kind] + body
  }

  /** The getters, applied to the payload bytes of a message of the given type. */
  function DecodeBody(kind: byte, b: Bytes): Option<Body> {
    if kind in BARE_KINDS && |b| == 0 then Some(NoBody)
    else if kind in ID_KINDS && |b| == 2 then Some(IdBody(GetNet16(b, 0)))
    else if kind == QUESTATE && |b| == 1 then Some(QueueBody(b[0]))
    else if kind in STATE_KINDS && |b| == 4 then Some(StateBody(b[0], GetNet16(b, 1), b[3]))
    else if kind == QUESTATE_RESP && |b| == 2 then Some(QueueStateBody(b[0], b[1]))
    else if kind in EXEC_KINDS && |b| == 514 then Some(ExecBody(GetNet16(b, 0), b[2..258], b[258..514]))
    else if kind in EXEC_ADDR_KINDS && |b| == 520 then
      Some(ExecAddrBody(GetNet16(b, 0), GetRaw16(b, 2), GetRaw32(b, 4), b[8..264], b[264..520]))
    else None
  }

  function Decode(b: Bytes): Option<Msg>
    requires |b| >= SZ_HEADER
  {
    match DecodeBody(b[4], b[SZ_HEADER..])
    case None => None
    case Some(body) => Some(Msg(b[4], body))
  }

  lemma DecodeEncodeBody(m: Msg)
    requires WellFormed(m)
    ensures DecodeBody(m.kind, EncodeBody(m.body)) == Some(m.body)
  {
    var b := EncodeBody(m.body);
    match m.body
    case StateBody(state, id, exit) =>
      assert b == [state] + Net16(id) + [exit];
    case ExecBody(id, file, dir) =>
      assert b[2..258] == file && b[258..514] == dir;
    case ExecAddrBody(id, port, ipaddr, file, dir) =>
      assert b[..8] == Net16(id) + Raw16(port) + Raw32(ipaddr);
      assert b[8..264] == file && b[264..520] == dir;
    case _ =>
  }

  /** What the setters write, the getters read back, for every message type. */
  lemma RoundTrip(m: Msg)
    requires WellFormed(m)
    ensures Decode(Encode(m)) == Some(m)
  {
    DecodeEncodeBody(m);
    assert Encode(m)[SZ_HEADER..] == EncodeBody(m.body);
  }

  function Word(hi: byte, lo: byte): nat {
    hi as int * 256 + lo
  }

  /** Where each field is in the bytes that travel. */
  lemma WireLayout(m: Msg)
    requires WellFormed(m)
    ensures var b := Encode(m);
            && |b| >= 5 && Word(b[0], b[1]) == |b| && b[2] == 0x80 && b[3] == 0x01 && b[4] == m.kind
            && match m.body
               case NoBody => |b| == 5
               case IdBody(id) => |b| == 7 && Word(b[5], b[6]) == id
               case QueueBody(q) => |b| == 6 && b[5] == q
               case StateBody(state, id, exit) => |b| == 9 && b[5] == state && Word(b[6], b[7]) == id && b[8] == exit
               case QueueStateBody(state, q) => |b| == 7 && b[5] == state && b[6] == q
               case ExecBody(id, file, dir) =>
                 |b| == 519 && Word(b[5], b[6]) == id && b[7..263] == file && b[263..519] == dir
               case ExecAddrBody(id, port, ipaddr, file, dir) =>
                 && |b| == 525 && Word(b[5], b[6]) == id && Word(b[8], b[7]) == port
                 && Word(b[10], b[9]) + 65536 * Word(b[12], b[11]) == ipaddr
                 && b[13..269] == file && b[269..525] == dir
  {
    HeaderLayout(m);
    match m.body
    case ExecBody(id, file, dir) => ExecLayout(m);
    case ExecAddrBody(id, port, ipaddr, file, dir) => ExecAddrLayout(m);
    case _ => ShortLayout(m);
  }

  function HeaderOf(size: uint16, kind: byte): (h: Bytes)
    ensures |h| == 5 && Word(h[0], h[1]) == size && h[2] == 0x80 && h[3] == 0x01 && h[4] == kind
  {
    Net16(size) + Net16(VER_1) + [kind]
  }

  lemma HeaderLayout(m: Msg)
    requires WellFormed(m)
    ensures var b := Encode(m);
            && b == HeaderOf(|b|, m.kind) + EncodeBody(m.body)
            && Word(b[0], b[1]) == |b| && b[2] == 0x80 && b[3] == 0x01 && b[4] == m.kind
  {
    BodySize(m);
    hide EncodeBody;
  }

  lemma ShortLayout(m: Msg)
    requires WellFormed(m) && !m.body.ExecBody? && !m.body.ExecAddrBody?
    ensures var b := Encode(m);
            match m.body
            case NoBody => |b| == 5
            case IdBody(id) => |b| == 7 && Word(b[5], b[6]) == id
            case QueueBody(q) => |b| == 6 && b[5] == q
            case StateBody(state, id, exit) => |b| == 9 && b[5] == state && Word(b[6], b[7]) == id && b[8] == exit
            case QueueStateBody(state, q) => |b| == 7 && b[5] == state && b[6] == q
  {
  }

  lemma Piece(a: Bytes, b: Bytes, c: Bytes)
    ensures (a + b + c)[|a|..|a| + |b|] == b
  {
  }

  lemma ExecLayout(m: Msg)
    requires WellFormed(m) && m.body.ExecBody?
    ensures var b, body := Encode(m), m.body;
            |b| == 519 && Word(b[5], b[6]) == body.id && b[7..263] == body.file && b[263..519] == body.dir
  {
    var b, body := Encode(m), m.body;
    HeaderLayout(m);
    var h := HeaderOf(|b|, m.kind);
    var front := h + Net16(body.id);
    assert b == front + body.file + body.dir;
    hide Encode, HeaderOf;
    Piece(front, body.file, body.dir);
    Piece(front + body.file, body.dir, []);
    assert front + body.file + body.dir + [] == b;
    assert b[5] == front[5] && b[6] == front[6];
  }

  lemma ExecAddrLayout(m: Msg)
    requires WellFormed(m) && m.body.ExecAddrBody?
    ensures var b, body := Encode(m), m.body;
            && |b| == 525 && Word(b[5], b[6]) == body.id && Word(b[8], b[7]) == body.port
            && Word(b[10], b[9]) + 65536 * Word(b[12], b[11]) == body.ipaddr
            && b[13..269] == body.file && b[269..525] == body.dir
  {
    var b, body := Encode(m), m.body;
    HeaderLayout(m);
    var h := HeaderOf(|b|, m.kind);
    var front := h + (Net16(body.id) + Raw16(body.port) + Raw32(body.ipaddr));
    assert b == front + body.file + body.dir;
    hide Encode, HeaderOf;
    Piece(front, body.file, body.dir);
    Piece(front + body.file, body.dir, []);
    assert front + body.file + body.dir + [] == b;
    assert b[..13] == front;
    FrontLayout(h, body.id, body.port, body.ipaddr);
    assert forall i :: 5 <= i < 13 ==> b[i] == front[i];
  }

  lemma FrontLayout(h: Bytes, id: uint16, port: uint16, ipaddr: uint32)
    requires |h| == 5
    ensures var f := h + (Net16(id) + Raw16(port) + Raw32(ipaddr));
            && |f| == 13 && Word(f[5], f[6]) == id && Word(f[8], f[7]) == port
            && Word(f[10], f[9]) + 65536 * Word(f[12], f[11]) == ipaddr
  {
  }

  // ---------------------------------------------------------------- strncpy

  /** No zero byte up to and including position `i`. */
  predicate NoZero(src: Bytes, i: nat)
    requires i < |src|
  {
    forall j :: 0 <= j <= i ==> src[j] != 0
  }

  /** `dst` is a buffer of `n` bytes that holds the bytes of `src` before its terminator, as
      many as fit, and zeros after them. */
  predicate Copied(src: Bytes, n: nat, dst: Bytes) {
    |dst| == n && forall i :: 0 <= i < n ==> dst[i] == if i < |src| && NoZero(src, i) then src[i] else 0
  }

  /** A copy of a copy is a copy. */
  lemma CopiedTwice(src: Bytes, n: nat, mid: Bytes, dst: Bytes)
    requires Copied(src, n, mid) && Copied(mid, n, dst)
    ensures Copied(src, n, dst)
  {
    forall i | 0 <= i < n
      ensures dst[i] == if i < |src| && NoZero(src, i) then src[i] else 0
    {
      if i < |src| && NoZero(src, i) {
        assert forall j :: 0 <= j <= i ==> NoZero(src, j) && mid[j] == src[j];
      }
    }
  }

  /** The length of the C string at the start of `s`. */
  function StrLen(s: Bytes): (n: nat)
    ensures n <= |s| && (forall i :: 0 <= i < n ==> s[i] != 0) && (n < |s| ==> s[n] == 0)
  {
    if s == [] || s[0] == 0 then 0 else 1 + StrLen(s[1..])
  }

  /** strncpy into a buffer of `n` bytes (section 7.24.2.4 of ISO/IEC 9899:2011): copies at
      most `n` bytes, stops at the terminator, fills up with zeros. */
  function StrNCpy(s: Bytes, n: nat): (b: Bytes)
    ensures Copied(s, n, b)
  {
    var len := StrLen(s);
    var b := seq(n, i requires 0 <= i < n => if i < len then s[i] else 0);
    StrLenCuts(s);
    assert forall i :: 0 <= i < n ==> b[i] == if i < |s| && NoZero(s, i) then s[i] else 0;
    b
  }

  lemma StrLenCuts(s: Bytes)
    ensures forall i :: 0 <= i < |s| ==> (i < StrLen(s) <==> NoZero(s, i))
  {
  }

  /** Copying a copy changes nothing. */
  lemma CopyTwice(s: Bytes, n: nat)
    ensures StrNCpy(StrNCpy(s, n), n) == StrNCpy(s, n)
  {
    var b := StrNCpy(s, n);
    forall i | 0 <= i < n
      ensures StrNCpy(b, n)[i] == b[i]
    {
      var k := StrLen(b);
      if k <= i {
        assert b[k] == 0 && (k < StrLen(s) ==> s[k] != 0);
      }
    }
  }

  // ---------------------------------------------------------------- setters

  function ClientNoInter(file: Bytes, dir: Bytes, id: uint16): (m: Msg)
    ensures WellFormed(m)
  {
    Msg(SUB_NO_INTER, ExecBody(id, StrNCpy(file, SZ_PATH), StrNCpy(dir, SZ_PATH)))
  }

  function ClientInter(file: Bytes, dir: Bytes, addr: uint32, port: uint16, id: uint16): (m: Msg)
    ensures WellFormed(m)
  {
    Msg(SUB_INTERACTIVE, ExecAddrBody(id, port, addr, StrNCpy(file, SZ_PATH), StrNCpy(dir, SZ_PATH)))
  }

  function FileExecNoInter(file: Bytes, dir: Bytes, id: uint16): (m: Msg)
    ensures WellFormed(m)
  {
    Msg(SENDJOB_NOINTER, ExecBody(id, StrNCpy(file, SZ_PATH), StrNCpy(dir, SZ_PATH)))
  }

  function FileExecInter(file: Bytes, dir: Bytes, addr: uint32, port: uint16, id: uint16): (m: Msg)
    ensures WellFormed(m)
  {
    Msg(SENDJOB_INTER, ExecAddrBody(id, port, addr, StrNCpy(file, SZ_PATH), StrNCpy(dir, SZ_PATH)))
  }

  function CheckExecServer(): (m: Msg)
    ensures WellFormed(m)
  {
    Msg(CH_EXEC_SER, NoBody)
  }

  function CheckExecServerAck(): (m: Msg)
    ensures WellFormed(m)
  {
    Msg(CH_EXEC_SER_ACK, NoBody)
  }

  function JobReq(): (m: Msg)
    ensures WellFormed(m)
  {
    Msg(JOB_REQ, NoBody)
  }

  function ServerClosed(): (m: Msg)
    ensures WellFormed(m)
  {
    Msg(SERVER_CLOSED, NoBody)
  }

  function JobRun(id: uint16): (m: Msg)
    ensures WellFormed(m)
  {
    Msg(JOB_RUN, StateBody(STATE_RUN, id, 0))
  }

  /** setJobDone: exit statuses 40 and 41 report that the job could not be started. */
  function JobDone(id: uint16, exit: byte): (m: Msg)
    ensures WellFormed(m)
  {
    Msg(JOB_DONE, StateBody(if exit == 40 || exit == 41 then STATE_ERROR else STATE_FINISHED, id, exit))
  }

  function JobSignaled(id: uint16, signal: byte): (m: Msg)
    ensures WellFormed(m)
  {
    Msg(JOB_SIG, StateBody(STATE_SIGNALED, id, signal))
  }

  function SubResp(id: uint16): (m: Msg)
    ensures WellFormed(m)
  {
    Msg(SUB_RESP, IdBody(id))
  }

  function AskJobState(id: uint16): (m: Msg)
    ensures WellFormed(m)
  {
    Msg(JOBSTATE, IdBody(id))
  }

  function JobStateResp(state: byte, id: uint16, exit: byte): (m: Msg)
    ensures WellFormed(m)
  {
    Msg(JOBSTATE_RESP, StateBody(state, id, exit))
  }

  function AskQueueState(q: byte): (m: Msg)
    ensures WellFormed(m)
  {
    Msg(QUESTATE, QueueBody(q))
  }

  function QueueStateResp(state: byte, q: byte): (m: Msg)
    ensures WellFormed(m)
  {
    Msg(QUESTATE_RESP, QueueStateBody(state, q))
  }

  function AskUnsubmit(id: uint16): (m: Msg)
    ensures WellFormed(m)
  {
    Msg(UNSUB, IdBody(id))
  }

  function UnsubResp(id: uint16): (m: Msg)
    ensures WellFormed(m)
  {
    Msg(UNSUB_RESP, IdBody(id))
  }

  function ClientClosed(): (m: Msg)
    ensures WellFormed(m)
  {
    Msg(CLIENT_CLOSED, NoBody)
  }

  function BadParams(): (m: Msg)
    ensures WellFormed(m)
  {
    Msg(BAD_PARAMS, NoBody)
  }

  /** The bytes of the messages without a body. */
  lemma BareBytes()
    ensures Encode(CheckExecServer()) == [0, 5, 0x80, 1, 11] && Encode(CheckExecServerAck()) == [0, 5, 0x80, 1, 12]
    ensures Encode(JobReq()) == [0, 5, 0x80, 1, 13] && Encode(ClientClosed()) == [0, 5, 0x80, 1, 17]
    ensures Encode(ServerClosed()) == [0, 5, 0x80, 1, 18] && Encode(BadParams()) == [0, 5, 0x80, 1, 19]
  {
  }

  /** The bytes of the short messages between clients and the main server. */
  lemma ClientBytes(state: byte, id: uint16, exit: byte, q: byte)
    ensures var hi: byte, lo: byte := id / 256, id % 256;
            && Encode(SubResp(id)) == [0, 7, 0x80, 1, 2, hi, lo] && Encode(AskJobState(id)) == [0, 7, 0x80, 1, 3, hi, lo]
            && Encode(AskUnsubmit(id)) == [0, 7, 0x80, 1, 7, hi, lo] && Encode(UnsubResp(id)) == [0, 7, 0x80, 1, 8, hi, lo]
            && Encode(JobStateResp(state, id, exit)) == [0, 9, 0x80, 1, 4, state, hi, lo, exit]
            && Encode(AskQueueState(q)) == [0, 6, 0x80, 1, 5, q] && Encode(QueueStateResp(state, q)) == [0, 7, 0x80, 1, 6, state, q]
  {
  }

  /** The bytes of the reports: exit statuses 40 and 41 are errors, all others an end. */
  lemma ReportBytes(id: uint16, exit: byte)
    ensures var hi: byte, lo: byte := id / 256, id % 256;
            && Encode(JobRun(id)) == [0, 9, 0x80, 1, 15, 1, hi, lo, 0]
            && Encode(JobDone(id, exit)) == [0, 9, 0x80, 1, 14, if exit == 40 || exit == 41 then 5 else 2, hi, lo, exit]
            && Encode(JobSignaled(id, exit)) == [0, 9, 0x80, 1, 16, 4, hi, lo, exit]
  {
  }

  // ---------------------------------------------------------------- the path of a job

  /** The message tells an exec server to run this job: as type 9 without an address, as type 10
      with one. */
  predicate Describes(m: Msg, id: uint16, p: Payload) {
    if p.ipaddr == 0 then
      && m.kind == 9 && m.body.ExecBody? && m.body.id == id
      && Copied(p.execFile, 256, m.body.file) && Copied(p.workingDir, 256, m.body.dir)
    else
      && m.kind == 10 && m.body.ExecAddrBody? && m.body.id == id && m.body.port == p.port && m.body.ipaddr == p.ipaddr
      && Copied(p.execFile, 256, m.body.file) && Copied(p.workingDir, 256, m.body.dir)
  }

  /** submitNoInter and submitInter: the job the main server stores for a client message. */
  function StoredPayload(m: Msg): Option<Payload> {
    match m
    case Msg(kind, ExecBody(_, file, dir)) =>
      if kind == SUB_NO_INTER then Some(Payload(0, 0, StrNCpy(file, SZ_PATH), StrNCpy(dir, SZ_PATH))) else None
    case Msg(kind, ExecAddrBody(_, port, addr, file, dir)) =>
      if kind == SUB_INTERACTIVE then Some(Payload(port, addr, StrNCpy(file, SZ_PATH), StrNCpy(dir, SZ_PATH))) else None
    case _ => None
  }

  /** The message sendJob builds for a job: its kind depends on the stored address. */
  function JobMsg(id: uint16, p: Payload): (m: Msg)
    ensures WellFormed(m) && Describes(m, id, p)
  {
    if p.ipaddr == 0 then FileExecNoInter(p.execFile, p.workingDir, id)
    else FileExecInter(p.execFile, p.workingDir, p.ipaddr, p.port, id)
  }

  /** The message an exec server decodes for a job, given the bytes the client sent for it. */
  function Relay(sent: Bytes, id: uint16): Option<Msg>
    requires |sent| >= SZ_HEADER
  {
    match Decode(sent)
    case None => None
    case Some(m) =>
      match StoredPayload(m)
      case None => None
      case Some(p) => Decode(Encode(JobMsg(id, p)))
  }

  /** A batch submission arrives at the exec server as one, with the assigned id; of both paths
      the bytes before the terminator, at most 256, then zeros. */
  lemma RelayNoInter(file: Bytes, dir: Bytes, id: uint16)
    ensures var r := Relay(Encode(ClientNoInter(file, dir, 0)), id);
            r.Some? && Describes(r.value, id, Payload(0, 0, file, dir))
  {
    var stored := Payload(0, 0, StrNCpy(file, SZ_PATH), StrNCpy(dir, SZ_PATH));
    RoundTrip(ClientNoInter(file, dir, 0));
    CopyTwice(file, SZ_PATH);
    CopyTwice(dir, SZ_PATH);
    RoundTrip(JobMsg(id, stored));
    DescribesTwice(JobMsg(id, stored), id, stored, Payload(0, 0, file, dir));
    hide Decode, Encode, Describes, Copied, StrNCpy;
  }

  /** An interactive submission keeps id, port, address and paths, and stays interactive
      exactly when its address is not zero. */
  lemma RelayInter(file: Bytes, dir: Bytes, addr: uint32, port: uint16, id: uint16)
    ensures var r := Relay(Encode(ClientInter(file, dir, addr, port, 0)), id);
            r.Some? && Describes(r.value, id, Payload(port, addr, file, dir))
  {
    var stored := Payload(port, addr, StrNCpy(file, SZ_PATH), StrNCpy(dir, SZ_PATH));
    RoundTrip(ClientInter(file, dir, addr, port, 0));
    CopyTwice(file, SZ_PATH);
    CopyTwice(dir, SZ_PATH);
    RoundTrip(JobMsg(id, stored));
    DescribesTwice(JobMsg(id, stored), id, stored, Payload(port, addr, file, dir));
    hide Decode, Encode, Describes, Copied, StrNCpy;
  }

  /** A message that describes a stored job describes the one it was stored from. */
  lemma DescribesTwice(m: Msg, id: uint16, stored: Payload, p: Payload)
    requires Describes(m, id, stored) && stored.port == p.port && stored.ipaddr == p.ipaddr
    requires Copied(p.execFile, 256, stored.execFile) && Copied(p.workingDir, 256, stored.workingDir)
    ensures Describes(m, id, p)
  {
    CopiedTwice(p.execFile, 256, stored.execFile, m.body.file);
    CopiedTwice(p.workingDir, 256, stored.workingDir, m.body.dir);
    hide Copied;
  }

  // ---------------------------------------------------------------- the Msg struct

  /** A Msg in memory. Setters overwrite the fields of one message in place and leave the
      rest of the union as it was. */
  class MsgBuffer {
    const bytes: array<byte>

    constructor ()
      ensures fresh(bytes) && bytes.Length == 525
    {
      bytes := new byte[525];
    }

    method Store(at: nat, data: Bytes)
      requires at + |data| <= bytes.Length
      modifies bytes
      ensures bytes[..] == old(bytes[..])[..at] + data + old(bytes[..])[at + |data|..]
    {
      forall i | 0 <= i < |data| {
        bytes[at + i] := data[i];
      }
    }

    /** Writing a message: header fields first, then the payload. */
    method Set(m: Msg)
      requires bytes.Length == 525 && WellFormed(m)
      modifies bytes
      ensures bytes[..|Encode(m)|] == Encode(m)
      ensures bytes[|Encode(m)|..] == old(bytes[|Encode(m)|..])
      ensures Decode(bytes[..GetNet16(bytes[..], 0)]) == Some(m)
    {
      BodySize(m);
      RoundTrip(m);
      hide Decode, EncodeBody;
      var body := EncodeBody(m.body);
      ghost var was := bytes[..];
      var size := SZ_HEADER + |body|;
      var header := Net16(size) + Net16(VER_1) + [m.kind];
      Store(0, header);
      ghost var mid := bytes[..];
      assert mid[..5] == header && mid[size..] == was[size..];
      Store(5, body);
      assert bytes[..] == mid[..5] + body + mid[size..];
      assert bytes[..size] == header + body && bytes[size..] == was[size..];
      assert Encode(m) == header + body;
      assert GetNet16(bytes[..], 0) == GetNet16(bytes[..size], 0) == size;
    }
  }
}
