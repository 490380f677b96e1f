/** Length-prefixed framing over a byte stream that moves arbitrary pieces: sendMsg and
    recvMsg (PROTO_DIST_QUEUE.c). Interrupted system calls are not modelled. */
module Framing {
  import opened Words
  import opened Codec

  /** A complete message: its first field is its own length. */
  predicate IsFrame(f: Bytes) {
    |f| >= SZ_HEADER && GetNet16(f, 0) == |f|
  }

  predicate AllFrames(fs: seq<Bytes>) {
    forall i :: 0 <= i < |fs| ==> IsFrame(fs[i])
  }

  function Concat(fs: seq<Bytes>): Bytes {
    if fs == [] then [] else fs[0] + Concat(fs[1..])
  }

  /** The stream starts with a complete frame. */
  predicate HasFrame(s: Bytes) {
    |s| >= SZ_HEADER && SZ_HEADER <= GetNet16(s, 0) <= |s|
  }

  /** What a receiver that calls recvMsg until the stream runs dry gets, and what is left over. */
  function Parse(s: Bytes): (r: (seq<Bytes>, Bytes))
    ensures AllFrames(r.0) && !HasFrame(r.1)
    decreases |s|
  {
    if HasFrame(s) then
      var n := GetNet16(s, 0);
      var rest := Parse(s[n..]);
      ([s[..n]] + rest.0, rest.1)
    else
      ([], s)
  }

  lemma ParseStep(s: Bytes)
    ensures if HasFrame(s) then
              var n := GetNet16(s, 0);
              var rest := Parse(s[n..]);
              Parse(s) == ([s[..n]] + rest.0, rest.1)
            else Parse(s) == ([], s)
  {
  }

  lemma ConcatCons(f: Bytes, fs: seq<Bytes>)
    ensures Concat([f] + fs) == f + Concat(fs)
  {
    assert ([f] + fs)[1..] == fs;
  }

  /** Nothing of the stream is skipped or read twice. */
  lemma {:induction false} ParseIsAll(s: Bytes)
    ensures Concat(Parse(s).0) + Parse(s).1 == s
    decreases |s|
  {
    ParseStep(s);
    if HasFrame(s) {
      var n := GetNet16(s, 0);
      var rest := Parse(s[n..]);
      ParseIsAll(s[n..]);
      ConcatCons(s[..n], rest.0);
      Join(s[..n], Concat(rest.0), rest.1, s[n..]);
      assert s[..n] + s[n..] == s;
    } else {
      assert Concat([]) + s == s;
    }
    hide Parse, Concat, HasFrame;
  }

  lemma Join(a: Bytes, b: Bytes, c: Bytes, rest: Bytes)
    requires b + c == rest
    ensures (a + b) + c == a + rest
  {
  }

  lemma {:induction false} ConcatAppend(fs: seq<Bytes>, f: Bytes)
    ensures Concat(fs + [f]) == Concat(fs) + f
  {
    if fs == [] {
    } else {
      ConcatAppend(fs[1..], f);
      assert (fs + [f])[1..] == fs[1..] + [f];
    }
  }

  lemma ConcatHasFrame(fs: seq<Bytes>)
    requires AllFrames(fs)
    ensures fs != [] <==> HasFrame(Concat(fs))
  {
    if fs != [] {
      assert Concat(fs) == fs[0] + Concat(fs[1..]);
      assert GetNet16(Concat(fs), 0) == GetNet16(fs[0], 0);
    }
  }

  /** Frames are recovered at their own boundaries, whatever incomplete piece follows them. */
  lemma {:induction false} ParseConcat(fs: seq<Bytes>, tail: Bytes)
    requires AllFrames(fs) && !HasFrame(tail)
    ensures Parse(Concat(fs) + tail) == (fs, tail)
  {
    var s := Concat(fs) + tail;
    if fs == [] {
      assert s == tail;
      assert Parse(tail) == ([], tail);
    } else {
      var n := |fs[0]|;
      assert s[..n] == fs[0] && s[n..] == Concat(fs[1..]) + tail;
      assert GetNet16(s, 0) == GetNet16(fs[0], 0);
      ParseConcat(fs[1..], tail);
      assert fs == [fs[0]] + fs[1..];
    }
  }

  /** A message that was cut short is not received. */
  lemma CutIsIncomplete(f: Bytes, k: nat)
    requires IsFrame(f) && k < |f|
    ensures !HasFrame(f[..k])
  {
  }

  /** Two frame sequences with a common concatenation prefix agree frame by frame. */
  lemma {:induction false} PrefixFrames(done: seq<Bytes>, rest: Bytes, all: seq<Bytes>)
    requires AllFrames(done) && AllFrames(all) && Concat(done) + rest == Concat(all)
    ensures done <= all && rest == Concat(all[|done|..])
  {
    if done == [] {
      assert Concat(done) + rest == rest;
    } else {
      var s := Concat(all);
      var d, a := done[0], all[0];
      assert s == d + (Concat(done[1..]) + rest);
      assert s == a + Concat(all[1..]);
      assert GetNet16(s, 0) == GetNet16(d, 0) == GetNet16(a, 0);
      assert s[..|d|] == d && s[..|a|] == a;
      assert s[|d|..] == Concat(done[1..]) + rest && s[|a|..] == Concat(all[1..]);
      PrefixFrames(done[1..], rest, all[1..]);
      assert all[1..][|done| - 1..] == all[|done|..];
    }
  }

  // ---------------------------------------------------------------- sender and receiver together

  /** One direction of a connection. `sending` is what the running sendMsg has not yet handed
      to the socket, `flight` what the socket holds, `got` what the running recvMsg has. */
  datatype Pipe = Pipe(todo: seq<Bytes>, sending: Bytes, flight: Bytes, got: Bytes, done: seq<Bytes>)

  datatype Move = Begin | Send(k: nat) | Recv(k: nat)

  /** How many bytes the running recvMsg asks for: the rest of the header, then of the payload. */
  function Wanted(got: Bytes): int {
    if |got| < SZ_HEADER then SZ_HEADER - |got| else GetNet16(got, 0) - |got|
  }

  predicate CanMove(p: Pipe, m: Move) {
    match m
    case Begin => p.sending == [] && p.todo != []
    case Send(k) => 0 < k <= |p.sending|
    case Recv(k) => 0 < k <= |p.flight| && k <= Wanted(p.got)
  }

  function DoMove(p: Pipe, m: Move): Pipe
    requires CanMove(p, m)
  {
    match m
    case Begin => p.(sending := p.todo[0], todo := p.todo[1..])
    case Send(k) => p.(sending := p.sending[k..], flight := p.flight + p.sending[..k])
    case Recv(k) =>
      var got := p.got + p.flight[..k];
      if |got| >= SZ_HEADER && Wanted(got) == 0 then
        p.(flight := p.flight[k..], got := [], done := p.done + [got])
      else
        p.(flight := p.flight[k..], got := got)
  }

  /** Nothing restricts the pieces: a send may take any part of what is left of the message, a
      receive any part of what has arrived, up to the end of the header or of the message. */
  lemma AnyPiece(p: Pipe, k: nat)
    requires k > 0
    ensures k <= |p.sending| ==> CanMove(p, Send(k))
    ensures k <= |p.flight| && |p.got| + k <= 5 ==> CanMove(p, Recv(k))
    ensures k <= |p.flight| && 5 <= |p.got| && |p.got| + k <= GetNet16(p.got, 0) ==> CanMove(p, Recv(k))
    ensures p.sending == [] && p.todo != [] ==> CanMove(p, Begin)
  {
  }

  ghost predicate PipeInv(p: Pipe, all: seq<Bytes>) {
    && AllFrames(p.done) && AllFrames(all) && AllFrames(p.todo)
    && !HasFrame(p.got)
    && Concat(p.done) + p.got + p.flight + p.sending + Concat(p.todo) == Concat(all)
  }

  /** A receiver in the middle of a message has a prefix of the next frame of the sender. */
  lemma GotIsCut(p: Pipe, all: seq<Bytes>)
    requires PipeInv(p, all)
    ensures p.done <= all
    ensures p.got + p.flight + p.sending + Concat(p.todo) == Concat(all[|p.done|..])
    ensures |p.got| >= SZ_HEADER ==> Wanted(p.got) > 0
  {
    var rest := p.got + p.flight + p.sending + Concat(p.todo);
    assert Concat(p.done) + rest == Concat(all);
    PrefixFrames(p.done, rest, all);
    if |p.got| >= SZ_HEADER {
      var next := all[|p.done|..];
      assert next != [];
      assert GetNet16(rest, 0) == GetNet16(p.got, 0) == GetNet16(next[0], 0);
    }
  }

  lemma MoveKeeps(p: Pipe, all: seq<Bytes>, m: Move)
    requires PipeInv(p, all) && CanMove(p, m)
    ensures PipeInv(DoMove(p, m), all)
  {
    match m
    case Begin => BeginKeeps(p, all);
    case Send(k) => SendKeeps(p, all, k);
    case Recv(k) => RecvKeeps(p, all, k);
  }

  lemma BeginKeeps(p: Pipe, all: seq<Bytes>)
    requires PipeInv(p, all) && CanMove(p, Begin)
    ensures PipeInv(DoMove(p, Begin), all)
  {
    var left := Concat(p.done) + p.got + p.flight;
    assert left + p.sending == left;
    assert left + Concat(p.todo) == left + p.todo[0] + Concat(p.todo[1..]);
  }

  lemma SendKeeps(p: Pipe, all: seq<Bytes>, k: nat)
    requires PipeInv(p, all) && CanMove(p, Send(k))
    ensures PipeInv(DoMove(p, Send(k)), all)
  {
    var left := Concat(p.done) + p.got;
    assert left + p.flight + p.sending == left + (p.flight + p.sending[..k]) + p.sending[k..];
  }

  lemma RecvKeeps(p: Pipe, all: seq<Bytes>, k: nat)
    requires PipeInv(p, all) && CanMove(p, Recv(k))
    ensures PipeInv(DoMove(p, Recv(k)), all)
  {
    var q := DoMove(p, Recv(k));
    var got := p.got + p.flight[..k];
    if |got| >= SZ_HEADER {
      RecvHeader(p, all, k);
    }
    ConcatAppend(p.done, got);
    assert Concat(p.done) + p.got + p.flight == Concat(p.done) + got + q.flight;
    assert Concat(q.done) + q.got == Concat(p.done) + got;
  }

  /** Once the header is in, the length it announces is the length of the sender's frame. */
  lemma RecvHeader(p: Pipe, all: seq<Bytes>, k: nat)
    requires PipeInv(p, all) && CanMove(p, Recv(k)) && |p.got + p.flight[..k]| >= SZ_HEADER
    ensures GetNet16(p.got + p.flight[..k], 0) >= SZ_HEADER
    ensures |p.got + p.flight[..k]| <= GetNet16(p.got + p.flight[..k], 0)
  {
    GotIsCut(p, all);
    var got := p.got + p.flight[..k];
    var next := all[|p.done|..];
    var s := Concat(next);
    assert s == got + (p.flight[k..] + p.sending + Concat(p.todo));
    assert next != [];
    assert s == next[0] + Concat(next[1..]);
    assert GetNet16(got, 0) == GetNet16(s, 0) == GetNet16(next[0], 0);
    if |p.got| >= SZ_HEADER {
      assert GetNet16(p.got, 0) == GetNet16(got, 0);
    }
  }

  ghost predicate PipeRun(ps: seq<Pipe>, moves: seq<Move>, all: seq<Bytes>) {
    && |ps| == |moves| + 1
    && AllFrames(all)
    && ps[0] == Pipe(all, [], [], [], [])
    && forall i :: 0 <= i < |moves| ==> CanMove(ps[i], moves[i]) && ps[i + 1] == DoMove(ps[i], moves[i])
  }

  lemma {:induction false} PipeRunKeeps(ps: seq<Pipe>, moves: seq<Move>, all: seq<Bytes>, i: nat)
    requires PipeRun(ps, moves, all) && i < |ps|
    ensures PipeInv(ps[i], all)
  {
    if i > 0 {
      PipeRunKeeps(ps, moves, all, i - 1);
      MoveKeeps(ps[i - 1], all, moves[i - 1]);
    }
  }

  /** Under every interleaving and every chunking, the messages received so far are the first
      messages sent, at the same boundaries; once nothing is left to move they are all of them. */
  lemma TransferIsFaithful(ps: seq<Pipe>, moves: seq<Move>, all: seq<Bytes>, i: nat)
    requires PipeRun(ps, moves, all) && i < |ps|
    ensures ps[i].done <= all
    ensures (forall m :: !CanMove(ps[i], m)) ==> ps[i].done == all && ps[i].got == []
  {
    PipeRunKeeps(ps, moves, all, i);
    var p := ps[i];
    GotIsCut(p, all);
    if forall m :: !CanMove(p, m) {
      assert !CanMove(p, Begin) && !CanMove(p, Send(|p.sending|));
      assert p.sending == [] && p.todo == [];
      assert !CanMove(p, Recv(1));
      assert p.flight == [];
      var next := all[|p.done|..];
      assert p.got == Concat(next);
      ConcatHasFrame(next);
    }
  }

  /** In terms of messages: what the getters read from the k-th frame received is the k-th
      message the setters wrote. */
  lemma MessagesArrive(ps: seq<Pipe>, moves: seq<Move>, msgs: seq<Msg>, i: nat, k: nat)
    requires forall m :: m in msgs ==> WellFormed(m)
    requires var all := seq(|msgs|, j requires 0 <= j < |msgs| => assert msgs[j] in msgs; Encode(msgs[j]));
             PipeRun(ps, moves, all) && i < |ps| && k < |ps[i].done|
    ensures k < |msgs| && |ps[i].done[k]| >= SZ_HEADER && Decode(ps[i].done[k]) == Some(msgs[k])
  {
    var all := seq(|msgs|, j requires 0 <= j < |msgs| => assert msgs[j] in msgs; Encode(msgs[j]));
    TransferIsFaithful(ps, moves, all, i);
    assert msgs[k] in msgs;
    RoundTrip(msgs[k]);
  }

  // ---------------------------------------------------------------- the two loops

  /** A connected socket pair, one direction: `stream` is everything written so far, `pos` how
      much of it was read, and `failed` the results of the calls that returned 0 or -1. */
  class Socket {
    var stream: Bytes
    var pos: nat
    ghost var failed: seq<int>

    ghost predicate Valid()
      reads this
    {
      pos <= |stream|
    }

    constructor ()
      ensures Valid() && stream == [] && pos == 0 && failed == []
    {
      stream, pos, failed := [], 0, [];
    }

    /** send(): takes some of the bytes, or fails with 0 or -1. */
    method Write(data: Bytes) returns (sent: int)
      requires Valid() && data != []
      modifies this`stream, this`failed
      ensures Valid() && -1 <= sent <= |data|
      ensures stream == old(stream) + if sent > 0 then data[..sent] else []
      ensures failed == old(failed) + if sent > 0 then [] else [sent]
    {
      sent :| -1 <= sent <= |data|;
      if sent > 0 {
        stream := stream + data[..sent];
      } else {
        failed := failed + [sent];
      }
    }

    /** recv(): hands over some of the bytes that are there, or fails with 0 or -1. */
    method Read(max: nat) returns (recvd: int, data: Bytes)
      requires Valid() && max > 0
      modifies this`pos, this`failed
      ensures Valid() && -1 <= recvd <= max
      ensures recvd > 0 ==> pos == old(pos) + recvd && data == stream[old(pos)..pos]
      ensures recvd <= 0 ==> pos == old(pos)
      ensures failed == old(failed) + if recvd > 0 then [] else [recvd]
    {
      data := [];
      recvd :| -1 <= recvd <= max && recvd <= |stream| - pos;
      if recvd > 0 {
        data := stream[pos..pos + recvd];
        pos := pos + recvd;
      } else {
        failed := failed + [recvd];
      }
    }

    /** sendMsg. It goes on until the whole message is out or a send fails, and returns 1 or the
        result of the send that failed. A result other than 1 leaves a proper prefix of the
        message on the stream. */
    method SendMsg(msg: Bytes) returns (result: int)
      requires Valid() && IsFrame(msg)
      modifies this`stream, this`failed
      ensures Valid() && result in {-1, 0, 1}
      ensures |old(stream)| <= |stream| <= |old(stream)| + |msg|
      ensures stream == old(stream) + msg[..|stream| - |old(stream)|]
      ensures result == 1 <==> |stream| == |old(stream)| + |msg|
      ensures failed == old(failed) + if result == 1 then [] else [result]
    {
      var toSend: nat := GetNet16(msg, 0);
      var ptr: nat := 0;
      while toSend > 0
        invariant ptr + toSend == |msg|
        invariant stream == old(stream) + msg[..ptr]
        invariant failed == old(failed)
      {
        var sent := Write(msg[ptr..]);
        if sent == -1 || sent == 0 {
          return sent;
        }
        assert msg[..ptr] + msg[ptr..][..sent] == msg[..ptr + sent];
        toSend := toSend - sent;
        ptr := ptr + sent;
      }
      return 1;
    }

    /** recv() into the buffer, from `ptr` on. */
    method ReadInto(msg: MsgBuffer, ptr: nat, max: nat) returns (recvd: int)
      requires Valid() && max > 0 && ptr + max <= msg.bytes.Length
      modifies this`pos, this`failed, msg.bytes
      ensures Valid() && -1 <= recvd <= max && pos == old(pos) + if recvd > 0 then recvd else 0
      ensures failed == old(failed) + if recvd > 0 then [] else [recvd]
      ensures msg.bytes[..ptr + (pos - old(pos))] == old(msg.bytes[..ptr]) + stream[old(pos)..pos]
    {
      var data;
      recvd, data := Read(max);
      if recvd > 0 {
        ghost var was := msg.bytes[..];
        msg.Store(ptr, data);
        assert msg.bytes[..] == was[..ptr] + data + was[ptr + recvd..];
        assert msg.bytes[..ptr + recvd] == was[..ptr] + data;
      }
    }

    /** recvMsg. It goes on until a complete frame is in or a recv fails, and returns 1 or the
        result of the recv that failed. It succeeds only on a complete frame, consumes exactly
        that frame, and leaves it in the buffer; otherwise it has consumed less than one. `fault`
        reports a header that announces fewer bytes than the header has or more than a Msg
        holds: the unsigned number of bytes to receive is then larger than the room for
        them, and nothing is said of what follows. */
    method RecvMsg(msg: MsgBuffer) returns (result: int, fault: bool)
      requires Valid() && msg.bytes.Length == 525
      modifies this`pos, this`failed, msg.bytes
      ensures Valid() && result in {-1, 0, 1}
      ensures failed == old(failed) + if result == 1 then [] else [result]
      ensures old(pos) <= pos <= old(pos) + 525 && msg.bytes[..pos - old(pos)] == stream[old(pos)..pos]
      ensures fault <==> pos - old(pos) >= SZ_HEADER && !(SZ_HEADER <= GetNet16(stream[old(pos)..], 0) <= 525)
      ensures !fault && result == 1 ==> HasFrame(old(stream[pos..]))
      ensures !fault && result == 1 ==> pos == old(pos) + GetNet16(old(stream[pos..]), 0)
      ensures result != 1 ==> !HasFrame(stream[old(pos)..pos])
    {
      var toRecv: nat, ptr: nat, headerRecvd := SZ_HEADER, 0, false;
      ghost var start := pos;
      fault := false;
      while toRecv > 0
        invariant Valid() && pos == start + ptr && ptr + toRecv <= 525
        invariant failed == old(failed)
        invariant msg.bytes[..ptr] == stream[start..pos]
        invariant !headerRecvd ==> ptr + toRecv == SZ_HEADER && toRecv > 0
        invariant headerRecvd ==> SZ_HEADER <= ptr && ptr + toRecv == GetNet16(stream[start..], 0)
        decreases !headerRecvd, toRecv
      {
        ghost var mid := pos;
        var recvd := ReadInto(msg, ptr, toRecv);
        if recvd == -1 || recvd == 0 {
          return recvd, false;
        }
        assert stream[start..mid] + stream[mid..pos] == stream[start..pos];
        toRecv := toRecv - recvd;
        ptr := ptr + recvd;
        if toRecv == 0 && !headerRecvd {
          headerRecvd := true;
          var size := GetNet16(msg.bytes[..ptr], 0);
          SameHeader(stream, start, pos);
          if size < SZ_HEADER || size > msg.bytes.Length {
            return 1, true;
          }
          toRecv := size - SZ_HEADER;
        }
      }
      return 1, false;
    }
  }

  /** The size is in the part that was read. */
  lemma SameHeader(stream: Bytes, start: nat, pos: nat)
    requires start + SZ_HEADER <= pos <= |stream|
    ensures GetNet16(stream[start..pos], 0) == GetNet16(stream[start..], 0)
  {
  }
}
