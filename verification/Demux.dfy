/**
 The host's stream demultiplexer (session.py, protocol.py): fixed packets, stream headers, directory
 frames, raw stream payload and an in-band stop marker, separated from one TCP byte stream that arrives
 in arbitrary pieces. `Settle` is the meaning of a buffer, a byte, a frame or a verified piece at a time; the receive
 loop of class BoardSession, which works on whole slices of its buffer, computes it.
 */
module Demux {
  import opened Bytes

  const PACKET_LEN: nat := 128
  const LIST_HEADER_LEN: nat := 24
  const STREAM_HEADER_LEN: nat := 18
  const DAQ_FRAME_LEN: nat := 36
  const STOP_COMMAND: Byte := 12
  const DAQ_STREAM: Byte := 13
  const LIST_COMMAND: Byte := 4

  datatype Option<T> = None | Some(value: T)

  /** Big-endian reading of octets, as `int.from_bytes(..., "big")`. */
  function Be(bs: seq<Byte>): nat {
    if bs == [] then 0 else 256 * Be(bs[..|bs| - 1]) + bs[|bs| - 1] as int
  }

  /**
   The dictionary of an active stream: what the caller asked for (`capture` the bytes, `save` them to a
   file, decode `rows`, `verify` the test pattern), what the header said, and what has arrived.
   */
  datatype Stream = Stream(
    command: Byte, capture: bool, save: bool, rows: bool, verify: bool,
    serverId: nat, epoch: nat, total: nat, received: nat,
    data: seq<Byte>, saved: seq<Byte>, remainder: seq<Byte>, frames: seq<seq<Byte>>,
    pending: set<Byte>)

  /** `BadPattern` tells the first byte of the piece of payload that differs from the pattern. */
  datatype Failure = UnexpectedCommand | StartFailed | BadPattern(index: nat, expected: Byte, actual: Byte)

  datatype Event =
    | Packet(bytes: seq<Byte>)                                 // a fixed packet passed on
    | Finished(stream: Stream)                                 // the handle resolved with a result
    | Failed(stream: Stream, why: Failure)                     // the handle resolved with an error
    | Orphan(header: seq<Byte>)                                // a stream header nobody waits for
    | FileList(total: nat, data: seq<Byte>)

  /** What the marker test compares with: the session's server id and the latest acceptable time. */
  datatype Host = Host(serverId: nat, horizon: nat)

  datatype Session = Session(
    buf: seq<Byte>, active: Option<Stream>, list: Option<seq<Byte>>, log: seq<Event>)

  predicate Streaming(s: Session) {
    s.active.Some? && s.active.value.total > 0
  }

  /** A payload in which a control packet may be embedded. */
  predicate Watching(s: Session) {
    Streaming(s) && s.active.value.command == DAQ_STREAM && s.active.value.pending != {}
  }

  /** A payload whose pieces are compared with the test pattern; never a sample stream. */
  predicate Verifying(s: Session) {
    Streaming(s) && s.active.value.verify && s.active.value.command != DAQ_STREAM
  }

  /** The marker test of `_find_stream_control_marker` at one index. */
  predicate MarkerAt(host: Host, pending: set<Byte>, buf: seq<Byte>, i: nat)
    requires i + PACKET_LEN <= |buf|
  {
    && buf[i] in pending
    && Be(buf[i + 1..i + 5]) == host.serverId
    && Be(buf[i + 5..i + 13]) <= host.horizon
  }

  function ChunkLength(frame: seq<Byte>): nat
    requires |frame| >= LIST_HEADER_LEN
  {
    Be(frame[22..24])
  }

  /** Whether the buffer holds enough for the next thing to be taken from it. */
  predicate Enabled(s: Session) {
    s.buf != [] &&
    if Watching(s) then |s.buf| >= PACKET_LEN
    else if Streaming(s) then true
    else if s.buf[0] in {8, 9, 13} then |s.buf| >= STREAM_HEADER_LEN
    else if s.buf[0] == LIST_COMMAND then
      |s.buf| >= LIST_HEADER_LEN && |s.buf| >= LIST_HEADER_LEN + ChunkLength(s.buf)
    else |s.buf| >= PACKET_LEN
  }

  // ----- what the handlers do -----

  function PatternByte(i: nat): Byte {
    ((i * 37 + 11) % 256) as Byte
  }

  predicate PatternOk(offset: nat, chunk: seq<Byte>) {
    forall i: nat :: i < |chunk| ==> chunk[i] == PatternByte(offset + i)
  }

  /** The first byte that differs from the pattern. */
  function FirstBad(offset: nat, chunk: seq<Byte>): (index: nat)
    requires !PatternOk(offset, chunk)
    ensures index < |chunk| && PatternOk(offset, chunk[..index]) && chunk[index] != PatternByte(offset + index)
  {
    var n := |chunk| - 1;
    if PatternOk(offset, chunk[..n]) then n
    else
      var k := FirstBad(offset, chunk[..n]);
      assert chunk[..n][..k] == chunk[..k];
      k
  }

  lemma PatternAppend(offset: nat, a: seq<Byte>, b: seq<Byte>)
    ensures PatternOk(offset, a + b) <==> PatternOk(offset, a) && PatternOk(offset + |a|, b)
  {
    hide PatternByte;
    if PatternOk(offset, a + b) {
      forall i: nat | i < |a| ensures a[i] == PatternByte(offset + i) { assert (a + b)[i] == a[i]; }
      forall i: nat | i < |b| ensures b[i] == PatternByte(offset + |a| + i) {
        assert (a + b)[|a| + i] == b[i] && offset + |a| + i == offset + (|a| + i);
      }
    }
  }

  /** There is only one such byte. */
  lemma FirstBadIs(offset: nat, chunk: seq<Byte>, index: nat)
    requires index < |chunk| && PatternOk(offset, chunk[..index]) && chunk[index] != PatternByte(offset + index)
    ensures !PatternOk(offset, chunk) && FirstBad(offset, chunk) == index
  {
    hide PatternByte, FirstBad;
    var k := FirstBad(offset, chunk);
    assert forall i: nat :: i < index ==> chunk[..index][i] == chunk[i] == PatternByte(offset + i);
    assert forall i: nat :: i < k ==> chunk[..k][i] == chunk[i] == PatternByte(offset + i);
  }

  /** `_consume_stream_payload` once the payload is accepted. */
  function Take(st: Stream, payload: seq<Byte>): Stream {
    var counted := st.(received := st.received + |payload|);
    if st.capture then
      counted.(data := st.data + payload, saved := if st.save then st.saved + payload else st.saved)
    else if st.command == DAQ_STREAM then
      counted.(saved := if st.save then st.saved + payload else st.saved,
               frames := if st.rows then st.frames + Records(st.remainder + payload, DAQ_FRAME_LEN) else st.frames,
               remainder := if st.rows then Rest(st.remainder + payload, DAQ_FRAME_LEN) else st.remainder)
    else counted
  }

  /** `_finish_stream` with a result. */
  function Finish(s: Session): Session
    requires s.active.Some?
  {
    s.(active := None, log := s.log + [Finished(s.active.value)])
  }

  function Abandon(s: Session, st: Stream, why: Failure): Session {
    s.(active := None, log := s.log + [Failed(st, why)])
  }

  /** The first `n` buffered bytes taken as payload. */
  function Consume(s: Session, n: nat): Session
    requires s.active.Some? && n <= |s.buf|
  {
    s.(buf := s.buf[n..], active := Some(Take(s.active.value, s.buf[..n])))
  }

  /** `_finish_stream` with the verification error of a piece of payload, which is dropped. */
  function Reject(s: Session, payload: seq<Byte>): Session
    requires s.active.Some? && !PatternOk(s.active.value.received, payload)
  {
    var st := s.active.value;
    var k := FirstBad(st.received, payload);
    Abandon(s, st, BadPattern(k, PatternByte(st.received + k), payload[k]))
  }

  /** `_consume_stream_payload`. */
  function Swallow(s: Session, payload: seq<Byte>): Session
    requires s.active.Some?
  {
    var st := s.active.value;
    if st.verify && !PatternOk(st.received, payload) then Reject(s, payload)
    else s.(active := Some(Take(st, payload)))
  }

  /** How much of the buffer is taken as one piece of payload. */
  function PieceLength(s: Session): (n: nat)
    requires s.active.Some?
    ensures n <= |s.buf|
  {
    var st := s.active.value;
    if st.received >= st.total then 0
    else if |s.buf| <= st.total - st.received then |s.buf| else st.total - st.received
  }

  /** The piece of payload at the head of the buffer does not match the pattern. */
  predicate Mismatch(s: Session) {
    Verifying(s) && !PatternOk(s.active.value.received, s.buf[..PieceLength(s)])
  }

  function FinishIfFull(s: Session): Session
    requires s.active.Some?
  {
    if s.active.value.received >= s.active.value.total then Finish(s) else s
  }

  /** The control packet at the head of the buffer. */
  function Control(s: Session): Session
    requires s.active.Some? && |s.buf| >= PACKET_LEN
  {
    var command := s.buf[0];
    var stopped := if command == STOP_COMMAND then Finish(s) else s;
    var passed := stopped.(buf := s.buf[PACKET_LEN..], log := stopped.log + [Packet(s.buf[..PACKET_LEN])]);
    if passed.active.None? then passed
    else passed.(active := Some(passed.active.value.(pending := passed.active.value.pending - {command})))
  }

  /** `_handle_stream_header`. */
  function Header(s: Session, h: seq<Byte>): Session
    requires |h| == STREAM_HEADER_LEN
  {
    if s.active.None? then s.(log := s.log + [Orphan(h)])
    else if s.active.value.command != h[0] then Abandon(s, s.active.value, UnexpectedCommand)
    else
      var st := s.active.value.(serverId := Be(h[2..6]), epoch := Be(h[6..14]), total := Be(h[14..18]),
                                received := 0, data := [], remainder := [], frames := []);
      if h[1] != 0 || st.total == 0 then Abandon(s, st, StartFailed) else s.(active := Some(st))
  }

  function Overwrite(buffer: seq<Byte>, offset: nat, chunk: seq<Byte>): (r: seq<Byte>)
    ensures |r| == |buffer|
  {
    if |chunk| > 0 && offset + |chunk| <= |buffer| then buffer[..offset] + chunk + buffer[offset + |chunk|..]
    else buffer
  }

  function Zeros(n: nat): (z: seq<Byte>)
    ensures |z| == n
  {
    seq(n, _ => 0)
  }

  /** `_handle_file_list_packet`. */
  function ListFrame(s: Session, p: seq<Byte>): Session
    requires |p| >= LIST_HEADER_LEN && |p| == LIST_HEADER_LEN + ChunkLength(p)
  {
    var total, offset, chunk := Be(p[14..18]), Be(p[18..22]), p[24..];
    if total == 0 then s.(list := Some([]), log := s.log + [FileList(0, [])])
    else
      var buffer := if s.list.Some? && |s.list.value| == total then s.list.value else Zeros(total);
      var filled := Overwrite(buffer, offset, chunk);
      if offset + |chunk| >= total then s.(list := Some(filled), log := s.log + [FileList(total, filled)])
      else s.(list := Some(filled))
  }

  // ----- the meaning of a buffer -----

  function Once(host: Host, s: Session): Session
    requires Enabled(s)
  {
    if Watching(s) then
      if MarkerAt(host, s.active.value.pending, s.buf, 0) then Control(s) else Consume(s, 1)
    else if Streaming(s) then
      if s.active.value.received >= s.active.value.total then Finish(s)
      else if Mismatch(s) then Reject(s.(buf := s.buf[PieceLength(s)..]), s.buf[..PieceLength(s)])
      else FinishIfFull(Consume(s, if Verifying(s) then PieceLength(s) else 1))
    else if s.buf[0] in {8, 9, 13} then
      Header(s.(buf := s.buf[STREAM_HEADER_LEN..]), s.buf[..STREAM_HEADER_LEN])
    else if s.buf[0] == LIST_COMMAND then
      var n := LIST_HEADER_LEN + ChunkLength(s.buf);
      PrefixKeepsLength(s.buf, n);
      ListFrame(s.(buf := s.buf[n..]), s.buf[..n])
    else s.(buf := s.buf[PACKET_LEN..], log := s.log + [Packet(s.buf[..PACKET_LEN])])
  }

  lemma PrefixKeepsLength(buf: seq<Byte>, n: nat)
    requires LIST_HEADER_LEN <= n <= |buf|
    ensures ChunkLength(buf[..n]) == ChunkLength(buf)
  {
    assert buf[..n][22..24] == buf[22..24];
  }

  lemma OnceShrinks(host: Host, s: Session)
    requires Enabled(s)
    ensures var t := Once(host, s);
            |t.buf| < |s.buf| || (t.buf == s.buf && s.active.Some? && t.active.None?)
  {}

  /** Everything that can be taken from the buffer is taken. */
  function Settle(host: Host, s: Session): Session
    decreases |s.buf|, s.active.Some?
  {
    if !Enabled(s) then s
    else
      OnceShrinks(host, s);
      Settle(host, Once(host, s))
  }

  function Feed(s: Session, bytes: seq<Byte>): Session {
    s.(buf := s.buf + bytes)
  }

  lemma SettleQuiescent(host: Host, s: Session)
    ensures !Enabled(Settle(host, s))
    decreases |s.buf|, s.active.Some?
  {
    if Enabled(s) {
      OnceShrinks(host, s);
      SettleQuiescent(host, Once(host, s));
    }
  }

  // ----- chunking does not matter -----

  lemma SliceOfLonger(a: seq<Byte>, b: seq<Byte>, i: nat, j: nat)
    requires i <= j <= |a|
    ensures (a + b)[i..j] == a[i..j] && (a + b)[j..] == a[j..] + b
  {}

  lemma PayloadMonotone(host: Host, s: Session, more: seq<Byte>)
    requires Enabled(s) && Streaming(s) && !Watching(s)
    requires Verifying(s) ==> PieceLength(Feed(s, more)) == PieceLength(s)
    ensures Once(host, Feed(s, more)) == Feed(Once(host, s), more)
  {
    hide FirstBad, PatternOk, Take;
    SliceOfLonger(s.buf, more, 0, 1);
    SliceOfLonger(s.buf, more, 0, PieceLength(s));
  }

  /**
   A step that is possible stays possible, and means the same, when more bytes arrive; with verification on
   only if the piece of payload at hand does not grow with them.
   */
  lemma OnceMonotone(host: Host, s: Session, more: seq<Byte>)
    requires Enabled(s) && (Verifying(s) ==> PieceLength(Feed(s, more)) == PieceLength(s))
    ensures Enabled(Feed(s, more)) && Once(host, Feed(s, more)) == Feed(Once(host, s), more)
  {
    var b := s.buf;
    hide FirstBad, PatternOk, Be, Take, Overwrite;
    if Watching(s) {
      SliceOfLonger(b, more, 1, 5);
      SliceOfLonger(b, more, 5, 13);
      SliceOfLonger(b, more, 0, PACKET_LEN);
      SliceOfLonger(b, more, 0, 1);
    } else if Streaming(s) {
      PayloadMonotone(host, s, more);
    } else if b[0] in {8, 9, 13} {
      SliceOfLonger(b, more, 0, STREAM_HEADER_LEN);
    } else if b[0] == LIST_COMMAND {
      SliceOfLonger(b, more, 22, 24);
      SliceOfLonger(b, more, 0, LIST_HEADER_LEN + ChunkLength(b));
    } else {
      SliceOfLonger(b, more, 0, PACKET_LEN);
    }
  }

  /** No piece of payload on the way fails its verification. */
  predicate Clean(host: Host, s: Session)
    decreases |s.buf|, s.active.Some?
  {
    if !Enabled(s) then true
    else
      OnceShrinks(host, s);
      !Mismatch(s) && Clean(host, Once(host, s))
  }

  /** Nothing can fail where nothing is verified. */
  lemma {:induction false} UnverifiedIsClean(host: Host, s: Session)
    requires s.active.Some? ==> !(s.active.value.verify && s.active.value.command != DAQ_STREAM)
    ensures Clean(host, s)
    decreases |s.buf|, s.active.Some?
  {
    if Enabled(s) {
      OnceShrinks(host, s);
      OnceKeepsSetup(host, s);
      UnverifiedIsClean(host, Once(host, s));
    }
  }

  lemma OnceKeepsSetup(host: Host, s: Session)
    requires Enabled(s)
    ensures var t := Once(host, s);
            t.active.Some? ==>
              && s.active.Some? && t.active.value.command == s.active.value.command
              && t.active.value.verify == s.active.value.verify
  {
    hide MarkerAt, PatternOk, Be, Overwrite, FirstBad;
  }

  /** Verified payload that arrives in two parts and matches is taken as if it had arrived at once. */
  lemma VerifyTwice(host: Host, s: Session, more: seq<Byte>)
    requires Enabled(s) && Verifying(s) && !Mismatch(Feed(s, more)) && PieceLength(Feed(s, more)) > PieceLength(s)
    ensures !Mismatch(s)
    ensures var t := Once(host, s);
            && !Enabled(t) && Enabled(Feed(t, more)) && !Mismatch(Feed(t, more))
            && Once(host, Feed(t, more)) == Once(host, Feed(s, more))
  {
    hide Take, PatternOk, FirstBad;
    var st, n, m := s.active.value, PieceLength(Feed(s, more)), |s.buf|;
    var whole := Feed(s, more);
    assert PieceLength(s) == m && m < n;
    var a, b := s.buf[..m], more[..n - m];
    assert s.buf == a && whole.buf[..n] == a + b && whole.buf[n..] == more[n - m..];
    PatternAppend(st.received, a, b);
    TakeKeepsSetup(st, a);
    TakeKeepsSetup(st, a + b);
    TakeTwice(st, a, b);
    TakeKeepsSetup(Take(st, a), b);
    var t := Once(host, s);
    assert t == s.(buf := [], active := Some(Take(st, a)));
    var later := Feed(t, more);
    assert later.buf == more && PieceLength(later) == n - m;
    assert Consume(later, n - m) == Consume(whole, n);
    assert Once(host, whole) == FinishIfFull(Consume(whole, n));
    assert Once(host, later) == FinishIfFull(Consume(later, n - m));
  }

  /** Settling early changes nothing, as long as no verification fails. */
  lemma {:induction false} SettleEarly(host: Host, s: Session, more: seq<Byte>)
    requires Clean(host, Feed(s, more))
    ensures Settle(host, Feed(Settle(host, s), more)) == Settle(host, Feed(s, more))
    ensures Clean(host, s) && Clean(host, Feed(Settle(host, s), more))
    decreases |s.buf|, s.active.Some?
  {
    hide MarkerAt, Mismatch, Once, PieceLength;
    if Enabled(s) {
      OnceShrinks(host, s);
      EnabledLater(s, more);
      if Verifying(s) && PieceLength(Feed(s, more)) != PieceLength(s) {
        PieceGrows(s, more);
        VerifyTwice(host, s, more);
        var t := Once(host, s);
        assert Settle(host, s) == t;
      } else {
        OnceMonotone(host, s, more);
        MismatchSame(s, more);
        SettleEarly(host, Once(host, s), more);
      }
    }
  }

  lemma EnabledLater(s: Session, more: seq<Byte>)
    requires Enabled(s)
    ensures Enabled(Feed(s, more))
  {
    if !Streaming(s) && s.buf[0] == LIST_COMMAND { SliceOfLonger(s.buf, more, 22, 24); }
  }

  lemma PieceGrows(s: Session, more: seq<Byte>)
    requires s.active.Some? && PieceLength(Feed(s, more)) != PieceLength(s)
    ensures PieceLength(Feed(s, more)) > PieceLength(s)
  {}

  lemma MismatchSame(s: Session, more: seq<Byte>)
    requires Verifying(s) ==> PieceLength(Feed(s, more)) == PieceLength(s)
    ensures Mismatch(Feed(s, more)) == Mismatch(s)
  {
    hide PatternOk;
    if Verifying(s) { SliceOfLonger(s.buf, more, 0, PieceLength(s)); }
  }

  lemma FeedTwice(s: Session, a: seq<Byte>, b: seq<Byte>)
    ensures Feed(Feed(s, a), b) == Feed(s, a + b)
  {
    Associative(s.buf, a, b);
  }

  /** The pieces received one after the other. */
  function Receive(host: Host, s: Session, chunks: seq<seq<Byte>>): Session {
    if chunks == [] then s
    else Settle(host, Feed(Receive(host, s, chunks[..|chunks| - 1]), chunks[|chunks| - 1]))
  }

  /**
   However the bytes are cut into pieces, receiving them gives the same packets, payload, frames and
   residual state as receiving them at once, as long as no verification fails.
   */
  lemma {:induction false} ChunkingIsIrrelevant(host: Host, s: Session, chunks: seq<seq<Byte>>)
    requires !Enabled(s) && Clean(host, Feed(s, Flatten(chunks)))
    ensures Receive(host, s, chunks) == Settle(host, Feed(s, Flatten(chunks)))
  {
    if chunks == [] {
      assert Feed(s, []) == s;
    } else {
      hide Settle, Enabled, Feed, Clean;
      var n := |chunks| - 1;
      FeedTwice(s, Flatten(chunks[..n]), chunks[n]);
      SettleEarly(host, Feed(s, Flatten(chunks[..n])), chunks[n]);
      ChunkingIsIrrelevant(host, s, chunks[..n]);
    }
  }

  lemma SameBytesSameMeaning(host: Host, s: Session, xs: seq<seq<Byte>>, ys: seq<seq<Byte>>)
    requires !Enabled(s) && Flatten(xs) == Flatten(ys) && Clean(host, Feed(s, Flatten(xs)))
    ensures Receive(host, s, xs) == Receive(host, s, ys)
  {
    ChunkingIsIrrelevant(host, s, xs);
    ChunkingIsIrrelevant(host, s, ys);
  }

  // ----- taking many bytes at once -----

  lemma RowsTwice(frames: seq<seq<Byte>>, remainder: seq<Byte>, a: seq<Byte>, b: seq<Byte>)
    ensures Rest(Rest(remainder + a, DAQ_FRAME_LEN) + b, DAQ_FRAME_LEN) == Rest(remainder + (a + b), DAQ_FRAME_LEN)
    ensures frames + Records(remainder + a, DAQ_FRAME_LEN)
            + Records(Rest(remainder + a, DAQ_FRAME_LEN) + b, DAQ_FRAME_LEN)
         == frames + Records(remainder + (a + b), DAQ_FRAME_LEN)
  {
    RecordsSplit(remainder + a, b, DAQ_FRAME_LEN);
    hide Records, Rest;
    Associative(remainder, a, b);
    var first, rest := Records(remainder + a, DAQ_FRAME_LEN), Rest(remainder + a, DAQ_FRAME_LEN);
    Associative(frames, first, Records(rest + b, DAQ_FRAME_LEN));
  }

  lemma CapturedTwice(st: Stream, a: seq<Byte>, b: seq<Byte>)
    requires st.capture
    ensures Take(Take(st, a), b) == Take(st, a + b)
  {
    hide Records, Rest;
    Associative(st.data, a, b);
    Associative(st.saved, a, b);
  }

  lemma SampledTwice(st: Stream, a: seq<Byte>, b: seq<Byte>)
    requires !st.capture
    ensures Take(Take(st, a), b) == Take(st, a + b)
  {
    hide Records, Rest;
    if st.command == DAQ_STREAM {
      Associative(st.saved, a, b);
      RowsTwice(st.frames, st.remainder, a, b);
    }
  }

  /** Payload taken in two parts is payload taken at once. */
  lemma {:induction false} TakeTwice(st: Stream, a: seq<Byte>, b: seq<Byte>)
    ensures Take(Take(st, a), b) == Take(st, a + b)
  {
    hide Take;
    if st.capture { CapturedTwice(st, a, b); } else { SampledTwice(st, a, b); }
  }

  lemma ConsumeTwice(s: Session, m: nat, n: nat)
    requires s.active.Some? && m + n <= |s.buf|
    ensures Consume(Consume(s, m), n) == Consume(s, m + n)
  {
    TakeTwice(s.active.value, s.buf[..m], s.buf[m..][..n]);
    assert s.buf[..m] + s.buf[m..][..n] == s.buf[..m + n];
    assert s.buf[m..][n..] == s.buf[m + n..];
  }

  lemma TakeKeepsSetup(st: Stream, payload: seq<Byte>)
    ensures var t := Take(st, payload);
            && t.command == st.command && t.pending == st.pending && t.total == st.total && t.verify == st.verify
            && t.received == st.received + |payload|
  {}

  predicate NoMarkerBefore(host: Host, pending: set<Byte>, buf: seq<Byte>, n: nat) {
    forall i: nat :: i < n && i + PACKET_LEN <= |buf| ==> !MarkerAt(host, pending, buf, i)
  }

  lemma MarkerShift(host: Host, pending: set<Byte>, buf: seq<Byte>, k: nat, i: nat)
    requires k + i + PACKET_LEN <= |buf|
    ensures MarkerAt(host, pending, buf[k..], i) == MarkerAt(host, pending, buf, k + i)
  {
    assert buf[k..][i + 1..i + 5] == buf[k + i + 1..k + i + 5];
    assert buf[k..][i + 5..i + 13] == buf[k + i + 5..k + i + 13];
  }

  lemma NoMarkerShift(host: Host, pending: set<Byte>, buf: seq<Byte>, n: nat)
    requires 1 <= n <= |buf| && NoMarkerBefore(host, pending, buf, n)
    ensures NoMarkerBefore(host, pending, buf[1..], n - 1)
  {
    hide MarkerAt;
    forall i: nat | i < n - 1 && i + PACKET_LEN <= |buf[1..]| ensures !MarkerAt(host, pending, buf[1..], i) {
      MarkerShift(host, pending, buf, 1, i);
    }
  }

  /** While a control packet is awaited, bytes before the first marker are payload. */
  lemma {:induction false} ConsumeWatched(host: Host, s: Session, n: nat)
    requires Watching(s) && 1 <= n && n + PACKET_LEN - 1 <= |s.buf|
    requires NoMarkerBefore(host, s.active.value.pending, s.buf, n)
    ensures Settle(host, s) == Settle(host, Consume(s, n)) && Watching(Consume(s, n))
    decreases n
  {
    hide MarkerAt, Take;
    TakeKeepsSetup(s.active.value, s.buf[..n]);
    var t := Consume(s, 1);
    TakeKeepsSetup(s.active.value, s.buf[..1]);
    assert Once(host, s) == t;
    if n > 1 {
      NoMarkerShift(host, s.active.value.pending, s.buf, n);
      ConsumeWatched(host, t, n - 1);
      ConsumeTwice(s, 1, n - 1);
    }
  }

  /** Otherwise the payload runs up to the announced size. */
  lemma {:induction false} ConsumeToSize(host: Host, s: Session, n: nat)
    requires Streaming(s) && !Watching(s) && !Verifying(s) && 1 <= n <= |s.buf|
    requires s.active.value.received + n <= s.active.value.total
    ensures Settle(host, s) == Settle(host, FinishIfFull(Consume(s, n)))
    decreases n
  {
    hide Take;
    TakeKeepsSetup(s.active.value, s.buf[..n]);
    var t := Consume(s, 1);
    TakeKeepsSetup(s.active.value, s.buf[..1]);
    assert Once(host, s) == FinishIfFull(t);
    if n > 1 {
      ConsumeToSize(host, t, n - 1);
      ConsumeTwice(s, 1, n - 1);
    }
  }

  // ----- the in-band stop -----

  ghost predicate FirstMarker(host: Host, pending: set<Byte>, buf: seq<Byte>, m: nat) {
    m + PACKET_LEN <= |buf| && MarkerAt(host, pending, buf, m) && NoMarkerBefore(host, pending, buf, m)
  }

  lemma {:induction false} FirstMarkerExists(host: Host, pending: set<Byte>, buf: seq<Byte>, k: nat) returns (m: nat)
    requires k + PACKET_LEN <= |buf| && MarkerAt(host, pending, buf, k)
    ensures m <= k && FirstMarker(host, pending, buf, m)
    decreases k
  {
    if NoMarkerBefore(host, pending, buf, k) {
      m := k;
    } else {
      var i: nat :| i < k && i + PACKET_LEN <= |buf| && MarkerAt(host, pending, buf, i);
      m := FirstMarkerExists(host, pending, buf, i);
    }
  }

  lemma MarkerLonger(host: Host, pending: set<Byte>, buf: seq<Byte>, more: seq<Byte>, i: nat)
    requires i + PACKET_LEN <= |buf|
    ensures MarkerAt(host, pending, buf + more, i) == MarkerAt(host, pending, buf, i)
  {
    SliceOfLonger(buf, more, i + 1, i + 5);
    SliceOfLonger(buf, more, i + 5, i + 13);
  }

  lemma FirstMarkerLonger(host: Host, pending: set<Byte>, buf: seq<Byte>, more: seq<Byte>, m: nat)
    requires FirstMarker(host, pending, buf, m)
    ensures FirstMarker(host, pending, buf + more, m)
  {
    hide MarkerAt;
    MarkerLonger(host, pending, buf, more, m);
    forall i: nat | i < m ensures !MarkerAt(host, pending, buf + more, i) {
      MarkerLonger(host, pending, buf, more, i);
    }
  }

  /** The payload up to the first marker is consumed, then the control packet is taken. */
  lemma SettleAtMarker(host: Host, s: Session, m: nat)
    requires Watching(s) && FirstMarker(host, s.active.value.pending, s.buf, m)
    ensures Settle(host, s) == Settle(host, Control(if m == 0 then s else Consume(s, m)))
  {
    hide MarkerAt, Take;
    if m > 0 {
      ConsumeWatched(host, s, m);
      MarkerShift(host, s.active.value.pending, s.buf, m, 0);
      TakeKeepsSetup(s.active.value, s.buf[..m]);
    }
    var t := if m == 0 then s else Consume(s, m);
    assert Enabled(t) && Once(host, t) == Control(t);
  }

  lemma {:induction false} LogGrows(host: Host, s: Session)
    ensures s.log <= Settle(host, s).log
    decreases |s.buf|, s.active.Some?
  {
    if Enabled(s) {
      OnceShrinks(host, s);
      OnceLogs(host, s);
      LogGrows(host, Once(host, s));
    }
  }

  lemma OnceLogs(host: Host, s: Session)
    requires Enabled(s)
    ensures s.log <= Once(host, s).log
  {
    hide Take, MarkerAt, Overwrite;
  }

  /** A stream whose stop command was sent and not yet answered, between two pieces. */
  predicate AwaitingStop(s: Session) {
    Watching(s) && s.active.value.pending == {STOP_COMMAND} && s.buf == []
  }

  /** What a session is once the stop acknowledgement has been taken. */
  function Stopped(s: Session, payload: seq<Byte>, ack: seq<Byte>): Session
    requires s.active.Some?
  {
    var st := if payload == [] then s.active.value else Take(s.active.value, payload);
    s.(active := None, log := s.log + [Finished(st), Packet(ack)])
  }

  /** Where the demultiplexer finds the end of the payload: at the first index that passes the marker test. */
  lemma StopAtFirstMarker(host: Host, s: Session, bytes: seq<Byte>, m: nat)
    requires AwaitingStop(s) && FirstMarker(host, {STOP_COMMAND}, bytes, m)
    ensures Settle(host, Feed(s, bytes))
         == Settle(host, Feed(Stopped(s, bytes[..m], bytes[m..m + PACKET_LEN]), bytes[m + PACKET_LEN..]))
  {
    hide Settle, MarkerAt, Take;
    var f := Feed(s, bytes);
    assert f.buf == bytes;
    SettleAtMarker(host, f, m);
    if m == 0 {
      assert bytes[..0] == [] && bytes[0..PACKET_LEN] == bytes[..PACKET_LEN];
    } else {
      assert bytes[m..][..PACKET_LEN] == bytes[m..m + PACKET_LEN];
      assert bytes[m..][PACKET_LEN..] == bytes[m + PACKET_LEN..];
    }
    assert bytes[m] == STOP_COMMAND by { MarkerIsStop(host, bytes, m); }
    var st, ack := if m == 0 then s.active.value else Take(s.active.value, bytes[..m]), bytes[m..m + PACKET_LEN];
    assert s.log + [Finished(st)] + [Packet(ack)] == s.log + [Finished(st), Packet(ack)];
    assert Control(if m == 0 then f else Consume(f, m)) == Feed(Stopped(s, bytes[..m], ack), bytes[m + PACKET_LEN..]);
  }

  lemma MarkerIsStop(host: Host, bytes: seq<Byte>, m: nat)
    requires FirstMarker(host, {STOP_COMMAND}, bytes, m)
    ensures bytes[m] == STOP_COMMAND
  {}

  /**
   The in-band stop. Payload, a stop acknowledgement and anything after it, in any pieces: the stream
   delivers exactly the payload, its handle is resolved once, the acknowledgement is passed on, and the
   rest is framed as usual, provided no earlier index looks like a stop acknowledgement.
   */
  lemma StopRoundTrip(host: Host, s: Session, payload: seq<Byte>, ack: seq<Byte>, rest: seq<Byte>,
      chunks: seq<seq<Byte>>)
    requires AwaitingStop(s) && |ack| == PACKET_LEN && MarkerAt(host, {STOP_COMMAND}, ack, 0)
    requires NoMarkerBefore(host, {STOP_COMMAND}, payload + ack, |payload|)
    requires Flatten(chunks) == payload + ack + rest
    ensures Receive(host, s, chunks) == Settle(host, Feed(Stopped(s, payload, ack), rest))
  {
    UnverifiedIsClean(host, Feed(s, Flatten(chunks)));
    hide Settle, MarkerAt;
    ChunkingIsIrrelevant(host, s, chunks);
    AckIsMarker(host, payload, ack);
    FirstMarkerLonger(host, {STOP_COMMAND}, payload + ack, rest, |payload|);
    var bytes := payload + ack + rest;
    StopAtFirstMarker(host, s, bytes, |payload|);
    assert bytes[..|payload|] == payload && bytes[|payload|..|payload| + PACKET_LEN] == ack;
    assert bytes[|payload| + PACKET_LEN..] == rest;
  }

  lemma AckIsMarker(host: Host, payload: seq<Byte>, ack: seq<Byte>)
    requires |ack| == PACKET_LEN
    ensures MarkerAt(host, {STOP_COMMAND}, payload + ack, |payload|) == MarkerAt(host, {STOP_COMMAND}, ack, 0)
  {
    assert (payload + ack)[|payload|..] == ack;
    MarkerShift(host, {STOP_COMMAND}, payload + ack, |payload|, 0);
  }

  /** And exactly then: an earlier look-alike always cuts the payload short. */
  lemma StopDeliversIff(host: Host, s: Session, payload: seq<Byte>, ack: seq<Byte>, rest: seq<Byte>)
    requires AwaitingStop(s) && |ack| == PACKET_LEN && MarkerAt(host, {STOP_COMMAND}, ack, 0)
    ensures Stopped(s, payload, ack).log <= Settle(host, Feed(s, payload + ack + rest)).log
       <==> NoMarkerBefore(host, {STOP_COMMAND}, payload + ack, |payload|)
  {
    hide Settle, MarkerAt, NoMarkerBefore, Enabled;
    var bytes := payload + ack + rest;
    AckIsMarker(host, payload, ack);
    var m := FirstMarkerExists(host, {STOP_COMMAND}, payload + ack, |payload|);
    FirstMarkerLonger(host, {STOP_COMMAND}, payload + ack, rest, m);
    StopAtFirstMarker(host, s, bytes, m);
    var t := Stopped(s, bytes[..m], bytes[m..m + PACKET_LEN]);
    LogGrows(host, Feed(t, bytes[m + PACKET_LEN..]));
    if m == |payload| {
      assert bytes[..m] == payload && bytes[m..m + PACKET_LEN] == ack;
    } else {
      EarlierIsShorter(s, payload, ack, bytes[..m], bytes[m..m + PACKET_LEN], Settle(host, Feed(s, bytes)).log);
      MarkerBefore(host, payload + ack, m, |payload|);
    }
  }

  lemma MarkerBefore(host: Host, bytes: seq<Byte>, m: nat, n: nat)
    requires FirstMarker(host, {STOP_COMMAND}, bytes, m) && m < n
    ensures !NoMarkerBefore(host, {STOP_COMMAND}, bytes, n)
  {}

  lemma EarlierIsShorter(s: Session, p: seq<Byte>, a: seq<Byte>, q: seq<Byte>, b: seq<Byte>, log: seq<Event>)
    requires s.active.Some? && |q| < |p| && Stopped(s, q, b).log <= log
    ensures !(Stopped(s, p, a).log <= log)
  {
    TakeKeepsSetup(s.active.value, p);
    TakeKeepsSetup(s.active.value, q);
    var n := |s.log|;
    hide Take;
    assert log[n] == Stopped(s, q, b).log[n];
    assert Stopped(s, p, a).log[n] != Stopped(s, q, b).log[n];
  }
}
