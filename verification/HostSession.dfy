/**
 The receive side of the host's board session as it runs (session.py): the receive buffer, the active
 stream and the directory buffer, updated in place by the receive loop. One call of `OnData` is one pass
 of the loop after a `recv`; it does exactly what module Demux says the buffered bytes mean.
 */
module HostSession {
  import opened Bytes
  import opened Packing
  import opened Demux

  /** A stream before its header. */
  function Prepared(command: Byte, capture: bool, save: bool, rows: bool, verify: bool): Stream {
    Stream(command, capture, save, rows, verify, 0, 0, 0, 0, [], [], [], [], {})
  }

  function Expecting(st: Stream): Stream {
    st.(pending := st.pending + {STOP_COMMAND})
  }

  /** `verify_pattern_chunk`: the first byte that differs, if any. */
  method VerifyPatternChunk(offset: nat, chunk: seq<Byte>)
    returns (valid: bool, index: nat, expected: Byte, actual: Byte)
    ensures valid <==> PatternOk(offset, chunk)
    ensures !valid ==>
              && index < |chunk| && PatternOk(offset, chunk[..index]) && index == FirstBad(offset, chunk)
              && expected == PatternByte(offset + index) && actual == chunk[index] != expected
  {
    hide PatternByte, FirstBad;
    index := 0;
    while index < |chunk|
      invariant index <= |chunk|
      invariant forall i: nat :: i < index ==> chunk[i] == PatternByte(offset + i)
    {
      expected := PatternByte(offset + index);
      if chunk[index] != expected {
        FirstBadIs(offset, chunk, index);
        return false, index, expected, chunk[index];
      }
      index := index + 1;
    }
    return true, 0, 0, 0;
  }

  class BoardSession {
    const host: Host
    var rxBuffer: seq<Byte>
    var active: Option<Stream>
    var list: Option<seq<Byte>>
    /** Everything passed on to callers, in order. */
    var log: seq<Event>

    function View(): Session
      reads this
    {
      Session(rxBuffer, active, list, log)
    }

    /** No caller asks for a sample stream to be verified. */
    ghost predicate Valid()
      reads this
    {
      active.Some? && active.value.verify ==> active.value.command != DAQ_STREAM
    }

    constructor (host: Host)
      ensures Valid() && View() == Session([], None, None, []) && this.host == host
    {
      this.host := host;
      rxBuffer, active, list, log := [], None, None, [];
    }

    /** `_prepare_stream`; refused while a stream is active. */
    method PrepareStream(command: Byte, capture: bool, save: bool, rows: bool, verify: bool) returns (ok: bool)
      requires Valid() && (verify ==> command != DAQ_STREAM)
      modifies `active
      ensures Valid() && ok == old(active.None?)
      ensures View() ==
              if ok then old(View()).(active := Some(Prepared(command, capture, save, rows, verify))) else old(View())
    {
      if active.Some? {
        return false;
      }
      active := Some(Prepared(command, capture, save, rows, verify));
      return true;
    }

    /** The part of `stop_daq` that announces the acknowledgement. */
    method ExpectStop()
      modifies `active
      ensures View() == if old(active.Some? && active.value.command == DAQ_STREAM) then
                          old(View()).(active := Some(Expecting(old(active.value))))
                        else old(View())
    {
      if active.Some? && active.value.command == DAQ_STREAM {
        active := Some(Expecting(active.value));
      }
    }

    /** `_find_stream_control_marker`: the first index that passes the marker test, or -1. */
    method FindStreamControlMarker() returns (index: int)
      ensures active.None? ==> index == -1
      ensures index == -1 && active.Some? ==> NoMarkerBefore(host, active.value.pending, rxBuffer, |rxBuffer|)
      ensures index != -1 ==> 0 <= index && active.Some? && active.value.pending != {}
      ensures index != -1 ==> FirstMarker(host, active.value.pending, rxBuffer, index)
    {
      hide MarkerAt;
      if active.None? {
        return -1;
      }
      var pending := active.value.pending;
      if pending == {} {
        NothingPending(host, rxBuffer);
        return -1;
      }
      var i := 0;
      while i + PACKET_LEN <= |rxBuffer|
        invariant 0 <= i
        invariant forall j: nat :: j < i && j + PACKET_LEN <= |rxBuffer| ==> !MarkerAt(host, pending, rxBuffer, j)
      {
        if MarkerAt(host, pending, rxBuffer, i) {
          return i;
        }
        i := i + 1;
      }
      return -1;
    }

    /** `_consume_stream_payload`. */
    method ConsumeStreamPayload(payload: seq<Byte>)
      requires active.Some?
      modifies `active, `log
      ensures View() == Swallow(old(View()), payload)
    {
      hide PatternOk, PatternByte, FirstBad;
      var st := active.value;
      if st.verify {
        var valid, index, expected, actual := VerifyPatternChunk(st.received, payload);
        if !valid {
          FailStream(BadPattern(index, expected, actual));
          return;
        }
      }
      if st.capture {
        st := st.(data := st.data + payload);
        if st.save {
          st := st.(saved := st.saved + payload);
        }
      } else if st.command == DAQ_STREAM {
        if st.save {
          st := st.(saved := st.saved + payload);
        }
        if st.rows {
          var frames, remainder := CutRecords(st.remainder + payload, DAQ_FRAME_LEN);
          st := st.(frames := st.frames + frames, remainder := remainder);
        }
      }
      active := Some(st.(received := st.received + |payload|));
    }

    /** `_finish_stream` with a result. */
    method FinishStream()
      requires active.Some?
      modifies `active, `log
      ensures View() == Finish(old(View()))
    {
      log := log + [Finished(active.value)];
      active := None;
    }

    /** `_finish_stream` with an error. */
    method FailStream(why: Failure)
      requires active.Some?
      modifies `active, `log
      ensures View() == Abandon(old(View()), old(active.value), why)
    {
      log := log + [Failed(active.value, why)];
      active := None;
    }

    /** Payload cut from the head of the buffer and consumed. */
    method TakePayload(n: nat)
      requires active.Some? && n <= |rxBuffer|
      modifies `rxBuffer, `active, `log
      ensures View() == Swallow(old(View()).(buf := old(rxBuffer)[n..]), old(rxBuffer)[..n])
      ensures !old(active.value.verify) ==> View() == Consume(old(View()), n)
      ensures old(Valid()) ==> Valid()
    {
      hide Take, PatternOk;
      TakeKeepsSetup(active.value, rxBuffer[..n]);
      var payload := rxBuffer[..n];
      rxBuffer := rxBuffer[n..];
      ConsumeStreamPayload(payload);
    }

    /** The control packet at the head of the buffer. */
    method TakeControlPacket()
      requires active.Some? && |rxBuffer| >= PACKET_LEN
      modifies this
      ensures View() == Control(old(View()))
    {
      var command := rxBuffer[0];
      if command == STOP_COMMAND {
        FinishStream();
      }
      var packet := rxBuffer[..PACKET_LEN];
      rxBuffer := rxBuffer[PACKET_LEN..];
      log := log + [Packet(packet)];
      if active.Some? {
        active := Some(active.value.(pending := active.value.pending - {command}));
      }
    }

    /** `_handle_stream_header`. */
    method HandleStreamHeader(packet: seq<Byte>)
      requires |packet| == STREAM_HEADER_LEN
      modifies `active, `log
      ensures View() == Header(old(View()), packet) && (old(Valid()) ==> Valid())
    {
      hide Be;
      if active.None? {
        log := log + [Orphan(packet)];
        return;
      }
      var st := active.value;
      if st.command != packet[0] {
        log := log + [Failed(st, UnexpectedCommand)];
        active := None;
        return;
      }
      st := st.(serverId := Be(packet[2..6]), epoch := Be(packet[6..14]), total := Be(packet[14..18]));
      st := st.(received := 0, data := [], remainder := [], frames := []);
      active := Some(st);
      if packet[1] != 0 || st.total == 0 {
        log := log + [Failed(st, StartFailed)];
        active := None;
      }
    }

    /** `_handle_file_list_packet`. */
    method HandleFileListPacket(packet: seq<Byte>)
      requires |packet| >= LIST_HEADER_LEN && |packet| == LIST_HEADER_LEN + ChunkLength(packet)
      modifies `list, `log
      ensures View() == ListFrame(old(View()), packet)
    {
      hide Be;
      var total, offset, chunk := Be(packet[14..18]), Be(packet[18..22]), packet[24..];
      if total == 0 {
        list := Some([]);
        log := log + [FileList(0, [])];
        return;
      }
      var buffer := if list.Some? && |list.value| == total then list.value else Zeros(total);
      if |chunk| > 0 && offset + |chunk| <= |buffer| {
        buffer := buffer[..offset] + chunk + buffer[offset + |chunk|..];
      }
      list := Some(buffer);
      if offset + |chunk| >= total {
        log := log + [FileList(total, buffer)];
      }
    }

    /** What the loop does with a stream active and its size known; `false` where it waits for more bytes. */
    method StreamingPass() returns (more: bool)
      requires Valid() && rxBuffer != [] && active.Some? && active.value.total > 0
      modifies this
      ensures Valid() && Settle(host, View()) == Settle(host, old(View()))
      ensures more ==> |rxBuffer| < |old(rxBuffer)| || (rxBuffer == old(rxBuffer) && active.None?)
      ensures !more ==> !Enabled(View())
    {
      hide Settle, MarkerAt, Take, PatternOk, FirstBad;
      ghost var s := View();
      if active.value.command == DAQ_STREAM {
        var marker := FindStreamControlMarker();
        if marker >= 0 {
          SettleAtMarker(host, s, marker);
          if marker > 0 {
            TakePayload(marker);
          }
          TakeControlPacket();
          return true;
        }
        if active.value.pending != {} && |rxBuffer| < PACKET_LEN {
          return false;
        }
        if active.value.pending != {} {
          var n := |rxBuffer| - (PACKET_LEN - 1);
          ConsumeWatched(host, s, n);
          TakePayload(n);
          return true;
        }
      }
      more := PayloadPass();
    }

    /** The part of it without a control packet awaited. */
    method PayloadPass() returns (more: bool)
      requires Valid() && rxBuffer != [] && Streaming(View()) && !Watching(View())
      modifies this
      ensures more && Valid() && Settle(host, View()) == Settle(host, old(View()))
      ensures |rxBuffer| < |old(rxBuffer)| || (rxBuffer == old(rxBuffer) && active.None?)
    {
      hide Settle, Take, PatternOk, FirstBad;
      ghost var s := View();
      var st := active.value;
      if st.received >= st.total {
        FinishNow(host, s);
        FinishStream();
        return true;
      }
      var n := if |rxBuffer| <= st.total - st.received then |rxBuffer| else st.total - st.received;
      PieceSettles(host, s, n);
      TakePayload(n);
      if active.Some? && active.value.received >= active.value.total {
        FinishStream();
      }
      return true;
    }

    /** What the loop does between streams; `false` where it waits for more bytes. */
    method FramingPass() returns (more: bool)
      requires Valid() && rxBuffer != [] && (active.None? || active.value.total == 0)
      modifies this
      ensures Valid() && Settle(host, View()) == Settle(host, old(View()))
      ensures more ==> |rxBuffer| < |old(rxBuffer)|
      ensures !more ==> !Enabled(View())
    {
      hide Settle, MarkerAt, Header, ListFrame, Be;
      ghost var s := View();
      SettleOnce(host, s);
      var command := rxBuffer[0];
      if command in {8, 9, 13} {
        if |rxBuffer| < STREAM_HEADER_LEN {
          return false;
        }
        var packet := rxBuffer[..STREAM_HEADER_LEN];
        rxBuffer := rxBuffer[STREAM_HEADER_LEN..];
        HandleStreamHeader(packet);
        return true;
      }
      if command == LIST_COMMAND {
        if |rxBuffer| < LIST_HEADER_LEN {
          return false;
        }
        var frameLen := LIST_HEADER_LEN + Be(rxBuffer[22..24]);
        if |rxBuffer| < frameLen {
          return false;
        }
        PrefixKeepsLength(rxBuffer, frameLen);
        var packet := rxBuffer[..frameLen];
        rxBuffer := rxBuffer[frameLen..];
        HandleFileListPacket(packet);
        return true;
      }
      if |rxBuffer| < PACKET_LEN {
        return false;
      }
      var packet := rxBuffer[..PACKET_LEN];
      rxBuffer := rxBuffer[PACKET_LEN..];
      log := log + [Packet(packet)];
      return true;
    }

    /** The receive loop after one `recv`. */
    method OnData(data: seq<Byte>)
      requires Valid()
      modifies this
      ensures Valid() && View() == Settle(host, Feed(old(View()), data))
    {
      hide Settle, Enabled;
      rxBuffer := rxBuffer + data;
      while rxBuffer != []
        invariant Valid() && Settle(host, View()) == Settle(host, Feed(old(View()), data))
        decreases |rxBuffer|, active.Some?
      {
        var more: bool;
        if active.Some? && active.value.total > 0 {
          more := StreamingPass();
        } else {
          more := FramingPass();
        }
        if !more {
          SettledIsItself(host, View());
          return;
        }
      }
      SettledIsItself(host, View());
    }

    /**
     `_recv_loop` over the pieces the socket delivers: as long as no verification fails, only their
     concatenation matters.
     */
    method RecvLoop(chunks: seq<seq<Byte>>)
      requires Valid() && !Enabled(View())
      modifies this
      ensures Valid() && View() == Receive(host, old(View()), chunks)
      ensures Clean(host, Feed(old(View()), Flatten(chunks))) ==>
                View() == Settle(host, Feed(old(View()), Flatten(chunks)))
    {
      hide Settle, Enabled, Clean;
      ghost var s := View();
      var i := 0;
      while i < |chunks|
        invariant i <= |chunks|
        invariant Valid() && View() == Receive(host, s, chunks[..i])
      {
        OnData(chunks[i]);
        assert chunks[..i + 1][..i] == chunks[..i];
        i := i + 1;
      }
      assert chunks[..i] == chunks;
      if Clean(host, Feed(s, Flatten(chunks))) { ChunkingIsIrrelevant(host, s, chunks); }
    }
  }

  lemma NothingPending(host: Host, buf: seq<Byte>)
    ensures NoMarkerBefore(host, {}, buf, |buf|)
  {}

  lemma SettleOnce(host: Host, s: Session)
    ensures Enabled(s) ==> Settle(host, s) == Settle(host, Once(host, s))
  {}

  lemma SettledIsItself(host: Host, s: Session)
    ensures !Enabled(s) ==> Settle(host, s) == s
    ensures s.buf == [] ==> !Enabled(s)
  {}

  lemma FinishNow(host: Host, s: Session)
    requires s.buf != [] && Streaming(s) && !Watching(s) && s.active.value.received >= s.active.value.total
    ensures Settle(host, s) == Settle(host, Finish(s))
  {}

  /** One piece of payload is taken from the buffer as the loop takes it. */
  lemma PieceSettles(host: Host, s: Session, n: nat)
    requires s.buf != [] && Streaming(s) && !Watching(s) && s.active.value.received < s.active.value.total
    requires s.active.value.verify ==> s.active.value.command != DAQ_STREAM
    requires n == PieceLength(s)
    ensures var t := Swallow(s.(buf := s.buf[n..]), s.buf[..n]);
            Settle(host, s) == Settle(host, if t.active.Some? then FinishIfFull(t) else t)
  {
    hide Take, PatternOk, FirstBad;
    if s.active.value.verify {
      hide Settle;
      SettleOnce(host, s);
    } else {
      ConsumeToSize(host, s, n);
    }
  }
}
