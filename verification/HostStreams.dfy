/**
 A stream from its first byte on: the header the board sends, the payload and what follows, in any pieces, as
 the host's session receives them.
 */
module HostStreams {
  import opened Bytes
  import opened Packing
  import opened Demux
  import opened HostTheorems
  import HostSession

  /** A stream header as the board sends it: command, status, server, time, size. */
  function StreamHeader(command: Byte, status: Byte, server: nat, epoch: nat, total: nat): (h: seq<Byte>)
    ensures |h| == STREAM_HEADER_LEN
  {
    [command, status] + ToBe(server, 4) + ToBe(epoch, 8) + ToBe(total, 4)
  }

  predicate HeaderFits(server: nat, epoch: nat, total: nat) {
    server < 0x1_0000_0000 && epoch < 0x1_0000_0000_0000_0000 && total < 0x1_0000_0000
  }

  lemma StreamHeaderFields(command: Byte, status: Byte, server: nat, epoch: nat, total: nat)
    requires HeaderFits(server, epoch, total)
    ensures var h := StreamHeader(command, status, server, epoch, total);
            && h[0] == command && h[1] == status
            && Be(h[2..6]) == server && Be(h[6..14]) == epoch && Be(h[14..18]) == total
  {
    var h := StreamHeader(command, status, server, epoch, total);
    PowersOf256();
    hide ToBe, Pow256;
    assert h[2..6] == ToBe(server, 4) && h[6..14] == ToBe(epoch, 8) && h[14..18] == ToBe(total, 4);
    BeRoundTrip(server, 4);
    BeRoundTrip(epoch, 8);
    BeRoundTrip(total, 4);
  }

  lemma PowersOf256()
    ensures Pow256(4) == 0x1_0000_0000 && Pow256(8) == 0x1_0000_0000_0000_0000
  {
    assert Pow256(4) == 0x1_0000_0000;
    assert Pow256(6) == 0x1_0000_0000_0000;
  }

  /** The octet of the highest place value comes first. */
  lemma BigEndian()
    ensures ToBe(0x01020304, 4) == [1, 2, 3, 4] && Be([1, 2, 3, 4]) == 0x01020304
  {
    assert ToBe(0x0102, 2) == [1, 2];
    BeRoundTrip(0x01020304, 4);
    assert Pow256(4) == 0x1_0000_0000;
    assert ToBe(0x010203, 3) == [1, 2, 3];
  }

  // ----- fixed packets -----

  /** A packet of fixed length: no stream header and no directory frame. */
  predicate FixedPacket(packet: seq<Byte>) {
    |packet| == PACKET_LEN && packet[0] !in {4, 8, 9, 13}
  }

  function PacketEvents(packets: seq<seq<Byte>>): (events: seq<Event>)
    ensures |events| == |packets|
  {
    if packets == [] then [] else [Packet(packets[0])] + PacketEvents(packets[1..])
  }

  lemma OnePacket(host: Host, s: Session, packet: seq<Byte>, rest: seq<Byte>)
    requires s.buf == [] && !Streaming(s) && FixedPacket(packet)
    ensures var f, t := Feed(s, packet + rest), Feed(s.(log := s.log + [Packet(packet)]), rest);
            Settle(host, f) == Settle(host, t) && (Clean(host, f) <==> Clean(host, t))
  {
    hide MarkerAt;
    var f := Feed(s, packet + rest);
    assert f.buf == packet + rest && f.buf[..PACKET_LEN] == packet && f.buf[PACKET_LEN..] == rest;
    assert [] + rest == rest;
    assert Once(host, f) == Feed(s.(log := s.log + [Packet(packet)]), rest);
    hide Settle, Clean;
    StepFrom(host, f);
  }

  lemma {:induction false} PacketsSettle(host: Host, s: Session, packets: seq<seq<Byte>>)
    requires s.buf == [] && !Streaming(s) && forall p :: p in packets ==> FixedPacket(p)
    ensures Settle(host, Feed(s, Flatten(packets))) == s.(log := s.log + PacketEvents(packets))
    ensures Clean(host, Feed(s, Flatten(packets)))
    decreases |packets|
  {
    hide FixedPacket, Flatten;
    if packets == [] {
      assert Flatten(packets) == [] by { FlattenOfNone(); }
      assert Feed(s, []) == s && s.log + [] == s.log;
    } else {
      var p, later := packets[0], packets[1..];
      assert packets == [p] + later && p in packets && forall q :: q in later ==> q in packets;
      FlattenCons(p, later);
      var t := s.(log := s.log + [Packet(p)]);
      hide Settle, Clean;
      OnePacket(host, s, p, Flatten(later));
      PacketsSettle(host, t, later);
      Associative(s.log, [Packet(p)], PacketEvents(later));
    }
  }

  lemma FlattenOfNone()
    ensures Flatten<Byte>([]) == []
  {}

  /** Between streams fixed packets are passed on, each once and in order, however the bytes are cut. */
  lemma PacketsArrive(host: Host, s: Session, packets: seq<seq<Byte>>, pieces: seq<seq<Byte>>)
    requires s.buf == [] && !Streaming(s) && forall p :: p in packets ==> FixedPacket(p)
    requires Flatten(pieces) == Flatten(packets)
    ensures Receive(host, s, pieces) == s.(log := s.log + PacketEvents(packets))
  {
    PacketsSettle(host, s, packets);
    hide Settle, Clean, Flatten, Receive, FixedPacket;
    NothingPossible(s);
    ChunkingIsIrrelevant(host, s, pieces);
  }

  // ----- stream headers -----

  /** A stream is prepared and its header awaited, between two pieces. */
  predicate AwaitingHeader(s: Session) {
    s.buf == [] && s.active.Some? && s.active.value.total == 0
  }

  /** The stream its header announces. */
  function Announced(st: Stream, server: nat, epoch: nat, total: nat): Stream {
    st.(serverId := server, epoch := epoch, total := total, received := 0, data := [], remainder := [], frames := [])
  }

  /** What a header of the awaited kind comes to. */
  function AfterHeader(s: Session, command: Byte, status: Byte, server: nat, epoch: nat, total: nat): Session
    requires s.active.Some?
  {
    var st := Announced(s.active.value, server, epoch, total);
    if command != s.active.value.command then Abandon(s, s.active.value, UnexpectedCommand)
    else if status != 0 || total == 0 then Abandon(s, st, StartFailed)
    else s.(active := Some(st))
  }

  /** A header arrives, whatever follows it. */
  lemma HeaderArrives(host: Host, s: Session, command: Byte, status: Byte, server: nat, epoch: nat, total: nat,
      rest: seq<Byte>)
    requires AwaitingHeader(s) && command in {8, 9, 13} && HeaderFits(server, epoch, total)
    ensures var f := Feed(s, StreamHeader(command, status, server, epoch, total) + rest);
            var t := Feed(AfterHeader(s, command, status, server, epoch, total), rest);
            Settle(host, f) == Settle(host, t) && (Clean(host, f) <==> Clean(host, t))
  {
    var h := StreamHeader(command, status, server, epoch, total);
    StreamHeaderFields(command, status, server, epoch, total);
    hide StreamHeader, Be, MarkerAt;
    var f := Feed(s, h + rest);
    assert f.buf == h + rest && f.buf[..STREAM_HEADER_LEN] == h && f.buf[STREAM_HEADER_LEN..] == rest;
    assert [] + rest == rest;
    assert Once(host, f) == Feed(AfterHeader(s, command, status, server, epoch, total), rest);
    hide Settle, Clean;
    StepFrom(host, f);
  }

  /** What a header alone leaves behind. */
  lemma HeaderAlone(host: Host, s: Session, command: Byte, status: Byte, server: nat, epoch: nat, total: nat)
    requires AwaitingHeader(s) && command in {8, 9, 13} && HeaderFits(server, epoch, total)
    ensures Settle(host, Feed(s, StreamHeader(command, status, server, epoch, total)))
         == AfterHeader(s, command, status, server, epoch, total)
  {
    HeaderArrives(host, s, command, status, server, epoch, total, []);
    hide StreamHeader;
    var h := StreamHeader(command, status, server, epoch, total);
    var t := AfterHeader(s, command, status, server, epoch, total);
    assert h + [] == h;
    assert Feed(t, []) == t && t.buf == [];
  }

  /**
   Exactly when a stream starts: its header has the command awaited, status 0 and a size. It then has that size
   and nothing received. Otherwise the handle is resolved with an error, which tells the two failures apart.
   */
  lemma {:induction false} StreamStartsIff(host: Host, s: Session, command: Byte, status: Byte, server: nat,
      epoch: nat, total: nat)
    requires AwaitingHeader(s) && command in {8, 9, 13} && HeaderFits(server, epoch, total)
    ensures var t := Settle(host, Feed(s, StreamHeader(command, status, server, epoch, total)));
            && (Streaming(t) <==> command == s.active.value.command && status == 0 && total != 0)
            && (Streaming(t) ==>
                  && t.active.value.total == total && t.active.value.received == 0 && t.log == s.log
                  && t.active.value.serverId == server && t.active.value.epoch == epoch)
            && (!Streaming(t) ==> t.active.None? && |t.log| == |s.log| + 1 && t.log[|s.log|].Failed?)
            && (!Streaming(t) ==>
                  (t.log[|s.log|].why == StartFailed <==> command == s.active.value.command))
  {
    HeaderAlone(host, s, command, status, server, epoch, total);
    hide StreamHeader, Settle;
  }

  /** A header that no stream waits for is reported and costs nothing else. */
  lemma OrphanArrives(host: Host, s: Session, header: seq<Byte>, rest: seq<Byte>)
    requires s.buf == [] && s.active.None? && |header| == STREAM_HEADER_LEN && header[0] in {8, 9, 13}
    ensures Settle(host, Feed(s, header + rest)) == Settle(host, Feed(s.(log := s.log + [Orphan(header)]), rest))
  {
    hide Be;
    var f := Feed(s, header + rest);
    assert f.buf == header + rest && f.buf[..STREAM_HEADER_LEN] == header && f.buf[STREAM_HEADER_LEN..] == rest;
    assert [] + rest == rest;
    assert Once(host, f) == Feed(s.(log := s.log + [Orphan(header)]), rest);
    hide Settle, Clean;
    StepFrom(host, f);
  }

  // ----- file and test streams -----

  /** A payload taken whole. */
  lemma WholePayload(host: Host, s: Session, payload: seq<Byte>, rest: seq<Byte>)
    requires s.buf == [] && Streaming(s) && s.active.value.command != DAQ_STREAM && s.active.value.received == 0
    requires s.active.value.total == |payload|
    requires s.active.value.verify ==> PatternOk(0, payload)
    ensures var t := Finish(s.(active := Some(Take(s.active.value, payload))));
            Settle(host, Feed(s, payload + rest)) == Settle(host, Feed(t, rest)) && Clean(host, Feed(s, payload + rest))
  {
    var st := s.active.value;
    var t := Finish(s.(active := Some(Take(st, payload))));
    UnverifiedIsClean(host, Feed(t, rest));
    TakeKeepsSetup(st, payload);
    hide Take, PatternOk, Clean, Settle;
    if st.verify {
      PieceArrives(host, s, payload, rest);
    } else {
      UnverifiedIsClean(host, Feed(s, payload + rest));
      var f := Feed(s, payload + rest);
      assert f.buf == payload + rest && f.buf[..|payload|] == payload && f.buf[|payload|..] == rest;
      ConsumeToSize(host, f, |payload|);
      assert [] + rest == rest;
    }
  }

  /** What a handle is resolved with: the payload as captured and saved, and what the header said. */
  predicate Delivered(st: Stream, d: Stream, server: nat, epoch: nat, payload: seq<Byte>) {
    && d.serverId == server && d.epoch == epoch && d.total == |payload| && d.received == |payload|
    && (st.capture ==> d.data == payload)
    && (st.capture && st.save ==> d.saved == st.saved + payload)
  }

  /**
   A file or test stream from its first byte on: header, payload of the announced size and anything after it, in
   any pieces. The handle is resolved once, with exactly that payload and what the header said, and the rest is
   framed as usual. With verification on the payload has to be the pattern.
   */
  lemma {:induction false} FileStreamArrives(host: Host, s: Session, command: Byte, server: nat, epoch: nat,
      payload: seq<Byte>, rest: seq<Byte>, pieces: seq<seq<Byte>>)
    requires AwaitingHeader(s) && s.active.value.command == command && command in {8, 9}
    requires payload != [] && HeaderFits(server, epoch, |payload|)
    requires s.active.value.verify ==> PatternOk(0, payload)
    requires Flatten(pieces) == StreamHeader(command, 0, server, epoch, |payload|) + (payload + rest)
    ensures var d := Take(Announced(s.active.value, server, epoch, |payload|), payload);
            && Delivered(s.active.value, d, server, epoch, payload)
            && Receive(host, s, pieces) == Settle(host, Feed(s.(active := None, log := s.log + [Finished(d)]), rest))
  {
    HeaderArrives(host, s, command, 0, server, epoch, |payload|, payload + rest);
    WholePayload(host, AfterHeader(s, command, 0, server, epoch, |payload|), payload, rest);
    assert [] + payload == payload;
    hide Settle, Clean, StreamHeader, PatternOk, Receive, Flatten;
    NothingPossible(s);
    ChunkingIsIrrelevant(host, s, pieces);
  }

  /**
   The same for a stream prepared by a caller: what it captures is the payload, what it saves too, and it gets
   neither unless it asked.
   */
  lemma PreparedStreamArrives(host: Host, s: Session, command: Byte, capture: bool, save: bool, rows: bool,
      verify: bool, server: nat, epoch: nat, payload: seq<Byte>, pieces: seq<seq<Byte>>)
    requires s.buf == [] && s.active == Some(HostSession.Prepared(command, capture, save, rows, verify))
    requires command in {8, 9} && payload != [] && HeaderFits(server, epoch, |payload|)
    requires verify ==> PatternOk(0, payload)
    requires Flatten(pieces) == StreamHeader(command, 0, server, epoch, |payload|) + payload
    ensures var t := Receive(host, s, pieces);
            && t.buf == [] && t.active.None? && |t.log| == |s.log| + 1
            && var e := t.log[|s.log|];
               && e.Finished? && e.stream.command == command && e.stream.serverId == server
               && e.stream.data == (if capture then payload else [])
               && e.stream.saved == (if capture && save then payload else [])
  {
    assert payload + [] == payload;
    assert [] + payload == payload;
    FileStreamArrives(host, s, command, server, epoch, payload, [], pieces);
    hide Settle, StreamHeader, PatternOk, Receive, Flatten;
    var d := Take(Announced(s.active.value, server, epoch, |payload|), payload);
    var t := s.(active := None, log := s.log + [Finished(d)]);
    assert Feed(t, []) == t && !Enabled(t);
    SettledAlready(host, t);
  }

  lemma SettledAlready(host: Host, s: Session)
    requires !Enabled(s)
    ensures Settle(host, s) == s
  {}

  lemma NothingPossible(s: Session)
    requires s.buf == []
    ensures !Enabled(s)
  {}

  // ----- sample streams -----

  type Word32 = x: nat | x < 0x1_0000_0000

  /** The samples a bounded stream is rounded down to: whole blocks. */
  function WholeBlocks(requested: Word32, block: nat): (samples: Word32)
    requires block > 0
  {
    Rounding(requested, block);
    requested / block * block
  }

  lemma Rounding(n: nat, d: nat)
    requires d > 0
    ensures n / d * d <= n < n / d * d + d
  {
    assert n == n / d * d + n % d;
  }

  /** The size the board announces for a sample stream, in 32 bits; a request of 0 samples asks for no end. */
  function StreamSize(requested: Word32, block: nat): Word32
    requires block > 0
  {
    if requested == 0 then 0xFFFF_FFFF else WholeBlocks(requested, block) * DAQ_FRAME_LEN % 0x1_0000_0000
  }

  /** When that size is 0: 36 is four times an odd number. */
  lemma StreamSizeIsZeroIff(requested: Word32, block: nat)
    requires block > 0
    ensures StreamSize(requested, block) == 0 <==>
            requested != 0 && WholeBlocks(requested, block) % 0x4000_0000 == 0
  {
    var n: nat := WholeBlocks(requested, block);
    var q, k := n * 36 / 0x1_0000_0000, n / 0x4000_0000;
    hide WholeBlocks;
    if n * 36 % 0x1_0000_0000 == 0 {
      assert n * 9 == 0x4000_0000 * q;
      assert n == 0x4000_0000 * (954437177 * q - 8 * n);
    }
    if n % 0x4000_0000 == 0 {
      assert n * 36 == 0x1_0000_0000 * (9 * k);
    }
  }

  /**
   A sample stream the board started is refused by the host exactly if fewer samples were asked for than a block
   holds, or so many that their bytes are a multiple of 2^32: its header then announces nothing, and the handle
   is resolved with an error while the board goes on acquiring.
   */
  lemma StartedStreamIsRefusedIff(host: Host, s: Session, server: nat, epoch: nat, requested: Word32, block: nat)
    requires AwaitingHeader(s) && s.active.value.command == DAQ_STREAM && HeaderFits(server, epoch, 0) && block > 0
    ensures var t := Settle(host, Feed(s, StreamHeader(DAQ_STREAM, 0, server, epoch, StreamSize(requested, block))));
            && (Streaming(t) ==> t.active.value.total == StreamSize(requested, block))
            && (t.active.None? <==> requested != 0 && WholeBlocks(requested, block) % 0x4000_0000 == 0)
            && (t.active.None? ==>
                  |t.log| == |s.log| + 1 && t.log[|s.log|].Failed? && t.log[|s.log|].why == StartFailed)
  {
    StreamSizeIsZeroIff(requested, block);
    StreamStartsIff(host, s, DAQ_STREAM, 0, server, epoch, StreamSize(requested, block));
    hide StreamHeader, Settle, StreamSize, WholeBlocks;
  }

  /** A stop acknowledgement: its command, the server and the time, then what the board reports. */
  function Acknowledgement(server: nat, epoch: nat, report: seq<Byte>): (ack: seq<Byte>)
    ensures |ack| == 13 + |report|
  {
    [STOP_COMMAND] + ToBe(server, 4) + ToBe(epoch, 8) + report
  }

  /** The marker test recognises it exactly if it is this board's and not too far in the future. */
  lemma AcknowledgementIff(host: Host, server: nat, epoch: nat, report: seq<Byte>)
    requires |report| == PACKET_LEN - 13 && HeaderFits(server, epoch, 0)
    ensures MarkerAt(host, {STOP_COMMAND}, Acknowledgement(server, epoch, report), 0) <==>
            server == host.serverId && epoch <= host.horizon
  {
    var ack := Acknowledgement(server, epoch, report);
    PowersOf256();
    hide ToBe, Pow256, Be;
    assert ack[1..5] == ToBe(server, 4) && ack[5..13] == ToBe(epoch, 8);
    BeRoundTrip(server, 4);
    BeRoundTrip(epoch, 8);
  }

  /** The stop command is sent: its acknowledgement is awaited from now on. */
  function StopSent(s: Session): Session
    requires s.active.Some?
  {
    s.(active := Some(HostSession.Expecting(s.active.value)))
  }

  /** Payload of a sample stream before the stop command is sent is taken as it comes. */
  lemma EarlyPayload(host: Host, s: Session, early: seq<Byte>)
    requires s.buf == [] && Streaming(s) && s.active.value.command == DAQ_STREAM && s.active.value.pending == {}
    requires s.active.value.received + |early| < s.active.value.total
    ensures var st := s.active.value;
            var t := if early == [] then s else s.(active := Some(Take(st, early)));
            Settle(host, Feed(s, early)) == t && Clean(host, Feed(s, early))
  {
    var st, f := s.active.value, Feed(s, early);
    assert f.buf == early;
    UnverifiedIsClean(host, f);
    if early == [] {
      assert f == s;
    } else {
      TakeKeepsSetup(st, early);
      hide Take;
      ConsumeToSize(host, f, |early|);
      assert f.buf[..|early|] == early && f.buf[|early|..] == [];
      assert FinishIfFull(Consume(f, |early|)) == s.(active := Some(Take(st, early)));
    }
  }

  lemma HeaderAndEarly(host: Host, s: Session, server: nat, epoch: nat, total: nat, early: seq<Byte>,
      pieces: seq<seq<Byte>>)
    requires AwaitingHeader(s) && s.active.value.command == DAQ_STREAM && s.active.value.pending == {}
    requires HeaderFits(server, epoch, total) && |early| < total
    requires Flatten(pieces) == StreamHeader(DAQ_STREAM, 0, server, epoch, total) + early
    ensures var st := Announced(s.active.value, server, epoch, total);
            Receive(host, s, pieces) == s.(active := Some(if early == [] then st else Take(st, early)))
  {
    HeaderArrives(host, s, DAQ_STREAM, 0, server, epoch, total, early);
    EarlyPayload(host, AfterHeader(s, DAQ_STREAM, 0, server, epoch, total), early);
    hide Settle, Clean, StreamHeader, Receive, Flatten, Take;
    NothingPossible(s);
    ChunkingIsIrrelevant(host, s, pieces);
  }

  /** The samples decoded from two parts of their bytes, the first taken before the stop command was sent. */
  lemma SplitSamples(st: Stream, samples: seq<Sample>, early: seq<Byte>, late: seq<Byte>)
    requires FreshRows(st) && early + late == Wire(samples)
    ensures var first := if early == [] then st else Take(st, early);
            var d := Take(first.(pending := {STOP_COMMAND}), late);
            && DecodeFrames(d.frames) == FirstSix(samples)
            && d.saved == (if st.save then st.saved + Wire(samples) else st.saved)
  {
    SamplesArrive(st, samples);
    TakeTwice(st, early, late);
    if early == [] { assert [] + late == late; }
    var first := if early == [] then st else Take(st, early);
    PendingIsApart(first, late);
    assert Take(first, late) == Take(st, Wire(samples));
    hide DecodeFrames, FirstSix, Records, Rest;
  }

  lemma PendingIsApart(st: Stream, payload: seq<Byte>)
    ensures Take(st.(pending := {STOP_COMMAND}), payload) == Take(st, payload).(pending := {STOP_COMMAND})
  {}

  /** No late payload is as good as taking none. */
  lemma NothingLate(st: Stream, early: seq<Byte>)
    requires FreshRows(st)
    ensures var first := (if early == [] then st else Take(st, early)).(pending := {STOP_COMMAND});
            Take(first, []) == first
  {
    var first := if early == [] then st else Take(st, early);
    PendingIsApart(first, []);
    if early != [] {
      TakeTwice(st, early, []);
      assert early + [] == early;
    }
  }

  /**
   A sample stream from its first byte to its end: the header and the samples sent before the stop command, the
   samples after it, the acknowledgement and anything behind it, in any pieces. The handle is resolved once, with
   exactly the rows of the samples and, if they are saved, exactly their bytes.
   */
  lemma {:induction false} SampleStreamArrives(host: Host, s: Session, server: nat, epoch: nat, total: nat,
      samples: seq<Sample>, early: seq<Byte>, late: seq<Byte>, ackEpoch: nat, report: seq<Byte>, rest: seq<Byte>,
      before: seq<seq<Byte>>, after: seq<seq<Byte>>)
    requires AwaitingHeader(s) && FreshRows(s.active.value) && s.active.value.pending == {}
    requires HeaderFits(server, epoch, total) && early + late == Wire(samples) && |early| < total
    requires |report| == PACKET_LEN - 13 && ackEpoch <= host.horizon && HeaderFits(host.serverId, ackEpoch, 0)
    requires NoMarkerBefore(host, {STOP_COMMAND}, late + Acknowledgement(host.serverId, ackEpoch, report), |late|)
    requires Flatten(before) == StreamHeader(DAQ_STREAM, 0, server, epoch, total) + early
    requires Flatten(after) == late + Acknowledgement(host.serverId, ackEpoch, report) + rest
    ensures var st := Announced(s.active.value, server, epoch, total);
            var ack := Acknowledgement(host.serverId, ackEpoch, report);
            var d := Take((if early == [] then st else Take(st, early)).(pending := {STOP_COMMAND}), late);
            && Receive(host, s, before).active.Some?
            && Receive(host, StopSent(Receive(host, s, before)), after) ==
               Settle(host, Feed(s.(active := None, log := s.log + [Finished(d), Packet(ack)]), rest))
            && DecodeFrames(d.frames) == FirstSix(samples)
            && d.saved == (if st.save then st.saved + Wire(samples) else st.saved)
  {
    var ack := Acknowledgement(host.serverId, ackEpoch, report);
    var st := Announced(s.active.value, server, epoch, total);
    HeaderAndEarly(host, s, server, epoch, total, early, before);
    SplitSamples(st, samples, early, late);
    NothingLate(st, early);
    AcknowledgementIff(host, host.serverId, ackEpoch, report);
    StillStreaming(s, st, early, total);
    hide Settle, MarkerAt, Receive, NoMarkerBefore, Take, Flatten, StreamHeader, Acknowledgement, Wire, FirstSix,
      DecodeFrames, FreshRows;
    StopRoundTrip(host, StopSent(Receive(host, s, before)), late, ack, rest, after);
  }

  lemma StillStreaming(s: Session, st: Stream, early: seq<Byte>, total: nat)
    requires s.buf == [] && st.command == DAQ_STREAM && st.total == total > 0 && st.pending == {}
    ensures AwaitingStop(StopSent(s.(active := Some(if early == [] then st else Take(st, early)))))
  {
    TakeKeepsSetup(st, early);
    hide Take;
  }
}
