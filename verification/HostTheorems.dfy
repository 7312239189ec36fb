/**
 What the host gets out of a stream: the samples of the board, a directory listing put together from its
 chunks, and a verified file; and what a failed verification does to chunk independence.
 */
module HostTheorems {
  import opened Bytes
  import opened Packing
  import opened Demux
  import Listing

  // ----- frames of a sample stream -----

  function FromLe16(bs: seq<Byte>): Word16
    requires |bs| == 2
  {
    bs[0] as int + 256 * bs[1] as int
  }

  /** A frame unpacked: two 16-bit words and eight 32-bit words, little-endian. */
  function Unpacked(frame: seq<Byte>): Sample
    requires |frame| == DAQ_FRAME_LEN
  {
    RawSample(FromLe16(frame[..2]), FromLe16(frame[2..4]), ReadWords(frame[4..]))
  }

  /** The integer part of `decode_daq_stream_frame`: the first six readings. */
  function DecodeFrame(frame: seq<Byte>): (row: seq<Int32>)
    requires |frame| == DAQ_FRAME_LEN
    ensures |row| == 6
  {
    Unpacked(frame).channel[..6]
  }

  /** Unpacking the memory of a sample gives back its status, its CRC and all its readings. */
  lemma UnpackedIsSample(s: Sample)
    ensures Unpacked(FrameOf(s)) == s
  {
    var f := FrameOf(s);
    assert f[..2] == Le16(s.response) && f[2..4] == Le16(s.crc) && f[4..] == Words(s.channel);
    ReadWordsOfWords(s.channel);
  }

  function DecodeFrames(frames: seq<seq<Byte>>): (rows: seq<seq<Int32>>)
    requires forall f :: f in frames ==> |f| == DAQ_FRAME_LEN
    ensures |rows| == |frames|
  {
    seq(|frames|, i requires 0 <= i < |frames| => assert frames[i] in frames; DecodeFrame(frames[i]))
  }

  lemma FrameRoundTrip(s: Sample)
    ensures DecodeFrame(FrameOf(s)) == s.channel[..6]
  {
    UnpackedIsSample(s);
    hide FrameOf, Unpacked;
  }

  function FirstSix(samples: seq<Sample>): (rows: seq<seq<Int32>>) {
    seq(|samples|, i requires 0 <= i < |samples| => samples[i].channel[..6])
  }

  /** A stream just announced, whose rows are decoded. */
  predicate FreshRows(st: Stream) {
    st.command == DAQ_STREAM && !st.capture && st.rows && st.frames == [] && st.remainder == []
  }

  lemma FreshTake(st: Stream, bytes: seq<Byte>)
    requires FreshRows(st)
    ensures Take(st, bytes).frames == Records(bytes, DAQ_FRAME_LEN)
    ensures Take(st, bytes).remainder == Rest(bytes, DAQ_FRAME_LEN)
  {
    assert st.remainder + bytes == bytes;
  }

  /** Taking the bytes of samples decodes exactly their readings, in order. */
  lemma SamplesArrive(st: Stream, samples: seq<Sample>)
    requires FreshRows(st)
    ensures var t := Take(st, Wire(samples));
            && t.remainder == []
            && DecodeFrames(t.frames) == FirstSix(samples)
  {
    FreshTake(st, Wire(samples));
    hide Take;
    RecordsOfFlatMap(Framer(), samples, DAQ_FRAME_LEN);
    hide FrameOf, DecodeFrame, Records, Rest;
    forall i | 0 <= i < |samples| ensures DecodeFrame(FrameOf(samples[i])) == samples[i].channel[..6] {
      FrameRoundTrip(samples[i]);
    }
  }

  /**
   From the board's samples to the host's rows, past an in-band stop: whatever the pieces, the handle is
   resolved once, with exactly the rows of the samples sent.
   */
  lemma {:induction false} StreamEndToEnd(host: Host, s: Session, samples: seq<Sample>, ack: seq<Byte>,
      rest: seq<Byte>, chunks: seq<seq<Byte>>)
    requires AwaitingStop(s) && FreshRows(s.active.value) && samples != []
    requires |ack| == PACKET_LEN && MarkerAt(host, {STOP_COMMAND}, ack, 0)
    requires NoMarkerBefore(host, {STOP_COMMAND}, Wire(samples) + ack, |Wire(samples)|)
    requires Flatten(chunks) == Wire(samples) + ack + rest
    ensures var r := Receive(host, s, chunks);
            var n := |s.log|;
            var delivered := Take(s.active.value, Wire(samples));
            && |r.log| >= n + 2 && r.log[n] == Finished(delivered) && r.log[n + 1] == Packet(ack)
            && DecodeFrames(delivered.frames) == FirstSix(samples)
            && r == Settle(host, Feed(Stopped(s, Wire(samples), ack), rest))
  {
    hide Settle, MarkerAt, Receive, NoMarkerBefore, FirstSix;
    StopRoundTrip(host, s, Wire(samples), ack, rest, chunks);
    var stopped := Stopped(s, Wire(samples), ack);
    LogGrows(host, Feed(stopped, rest));
    WireLength(samples);
    SamplesArrive(s.active.value, samples);
    hide Take, Wire;
    var r := Settle(host, Feed(stopped, rest));
    assert stopped.log <= r.log && r.log[|s.log|] == stopped.log[|s.log|]
        && r.log[|s.log| + 1] == stopped.log[|s.log| + 1];
  }

  // ----- directory listings -----

  function ToBe(n: nat, width: nat): (bs: seq<Byte>)
    ensures |bs| == width
  {
    if width == 0 then [] else ToBe(n / 256, width - 1) + [(n % 256) as Byte]
  }

  function Pow256(width: nat): nat {
    if width == 0 then 1 else 256 * Pow256(width - 1)
  }

  lemma {:induction false} BeRoundTrip(n: nat, width: nat)
    requires n < Pow256(width)
    ensures Be(ToBe(n, width)) == n
  {
    if width > 0 {
      BeRoundTrip(n / 256, width - 1);
      var bs := ToBe(n, width);
      assert bs[..|bs| - 1] == ToBe(n / 256, width - 1);
    }
  }

  /** A directory frame as the board sends it: command, status, server, time, total size, offset, length, chunk. */
  function ListPacket(status: Byte, server: nat, epoch: nat, total: nat, offset: nat, chunk: seq<Byte>): seq<Byte> {
    [LIST_COMMAND, status] + ToBe(server, 4) + ToBe(epoch, 8)
    + ToBe(total, 4) + ToBe(offset, 4) + ToBe(|chunk|, 2) + chunk
  }

  lemma ListPacketFields(status: Byte, server: nat, epoch: nat, total: nat, offset: nat, chunk: seq<Byte>)
    requires total < 0x1_0000_0000 && offset < 0x1_0000_0000 && |chunk| < 0x1_0000
    ensures var p := ListPacket(status, server, epoch, total, offset, chunk);
            && |p| == LIST_HEADER_LEN + |chunk| && p[0] == LIST_COMMAND
            && p[2..6] == ToBe(server, 4)
            && ChunkLength(p) == |chunk| && Be(p[14..18]) == total && Be(p[18..22]) == offset && p[24..] == chunk
  {
    var p := ListPacket(status, server, epoch, total, offset, chunk);
    hide ToBe;
    assert p[14..18] == ToBe(total, 4) && p[18..22] == ToBe(offset, 4) && p[22..24] == ToBe(|chunk|, 2)
        && p[24..] == chunk;
    assert Pow256(4) == 0x1_0000_0000 && Pow256(2) == 0x1_0000;
    BeRoundTrip(total, 4);
    BeRoundTrip(offset, 4);
    BeRoundTrip(|chunk|, 2);
  }

  /** Chunks of a listing from `offset` on, each in its own frame. */
  function ListFrames(status: Byte, server: nat, epoch: nat, total: nat, offset: nat, chunks: seq<seq<Byte>>): seq<Byte>
    decreases |chunks|
  {
    if chunks == [] then []
    else
      ListPacket(status, server, epoch, total, offset, chunks[0])
      + ListFrames(status, server, epoch, total, offset + |chunks[0]|, chunks[1..])
  }

  /** The listing buffer while chunks arrive: `done` is filled, the rest is whatever was there. */
  predicate Filled(s: Session, total: nat, done: seq<Byte>) {
    if done == [] then true else s.list.Some? && |s.list.value| == total && done <= s.list.value
  }

  /** One frame of a listing arrives whole. */
  lemma OneListFrame(host: Host, s: Session, status: Byte, server: nat, epoch: nat, total: nat, done: seq<Byte>,
      chunk: seq<Byte>, rest: seq<Byte>)
    requires !Streaming(s) && Filled(s, total, done) && chunk != [] && |chunk| < 0x1_0000
    requires |done| + |chunk| <= total < 0x1_0000_0000
    requires s.buf == ListPacket(status, server, epoch, total, |done|, chunk) + rest
    ensures Enabled(s)
    ensures var t := Once(host, s);
            && t.buf == rest && t.active == s.active && Filled(t, total, done + chunk)
            && t.log == if |done| + |chunk| == total then s.log + [FileList(total, done + chunk)] else s.log
  {
    var p := ListPacket(status, server, epoch, total, |done|, chunk);
    ListPacketFields(status, server, epoch, total, |done|, chunk);
    hide ListPacket, Be;
    assert s.buf[..|p|] == p && s.buf[|p|..] == rest && s.buf[22..24] == p[22..24] && s.buf[0] == p[0];
    hide Overwrite;
    OverwriteNext(if s.list.Some? && |s.list.value| == total then s.list.value else Zeros(total), done, chunk);
  }

  lemma OverwriteNext(buffer: seq<Byte>, done: seq<Byte>, chunk: seq<Byte>)
    requires done <= buffer && chunk != [] && |done| + |chunk| <= |buffer|
    ensures var filled := Overwrite(buffer, |done|, chunk);
            done + chunk <= filled && (|done| + |chunk| == |buffer| ==> filled == done + chunk)
  {
    var filled := Overwrite(buffer, |done|, chunk);
    assert filled[..|done| + |chunk|] == done + chunk;
  }

  predicate Chunked(chunks: seq<seq<Byte>>) {
    forall chunk :: chunk in chunks ==> chunk != [] && |chunk| < 0x1_0000
  }

  lemma FirstChunk(done: seq<Byte>, chunks: seq<seq<Byte>>, data: seq<Byte>)
    requires chunks != [] && Chunked(chunks) && done + Flatten(chunks) == data
    ensures chunks[0] != [] && |chunks[0]| < 0x1_0000 && Chunked(chunks[1..])
    ensures (done + chunks[0]) + Flatten(chunks[1..]) == data && |done| + |chunks[0]| <= |data|
    ensures chunks[1..] == [] ==> done + chunks[0] == data
    ensures chunks[1..] != [] ==> |done| + |chunks[0]| < |data|
  {
    var chunk, later := chunks[0], chunks[1..];
    assert chunks == [chunk] + later && chunk in chunks;
    FlattenCons(chunk, later);
    Associative(done, chunk, Flatten(later));
    if later != [] { assert later[|later| - 1] in chunks; }
  }

  /**
   A directory listing arrives as it was sent: in-order contiguous chunks of any sizes, whatever the
   buffer held before, are put together and passed on exactly once.
   */
  lemma {:induction false} ListingArrives(host: Host, s: Session, status: Byte, server: nat, epoch: nat,
      data: seq<Byte>, done: seq<Byte>, chunks: seq<seq<Byte>>)
    requires chunks != [] && Chunked(chunks) && done + Flatten(chunks) == data && |data| < 0x1_0000_0000
    requires !Streaming(s) && Filled(s, |data|, done)
    requires s.buf == ListFrames(status, server, epoch, |data|, |done|, chunks)
    ensures Settle(host, s) == s.(buf := [], list := Some(data), log := s.log + [FileList(|data|, data)])
    ensures Clean(host, s)
    decreases |chunks|
  {
    hide Chunked, Flatten, ListPacket, Filled, Enabled, Once;
    var chunk, later := chunks[0], chunks[1..];
    FirstChunk(done, chunks, data);
    var rest := ListFrames(status, server, epoch, |data|, |done + chunk|, later);
    OneListFrame(host, s, status, server, epoch, |data|, done, chunk, rest);
    var t := Once(host, s);
    if later == [] {
      NothingLeft(host, t, data);
    } else {
      ListingArrives(host, t, status, server, epoch, data, done + chunk, later);
    }
  }

  lemma NothingLeft(host: Host, t: Session, data: seq<Byte>)
    requires t.buf == [] && Filled(t, |data|, data) && data != []
    ensures Settle(host, t) == t && t.list == Some(data) && Clean(host, t)
  {
    assert t.list.value == data;
  }

  /** And however the TCP stream was cut. */
  lemma ListingInAnyPieces(host: Host, s: Session, status: Byte, server: nat, epoch: nat, chunks: seq<seq<Byte>>,
      pieces: seq<seq<Byte>>)
    requires chunks != [] && Chunked(chunks) && |Flatten(chunks)| < 0x1_0000_0000
    requires !Streaming(s) && s.buf == []
    requires Flatten(pieces) == ListFrames(status, server, epoch, |Flatten(chunks)|, 0, chunks)
    ensures var data := Flatten(chunks);
            Receive(host, s, pieces) == s.(list := Some(data), log := s.log + [FileList(|data|, data)])
  {
    hide Chunked, ListFrames;
    var fed := Feed(s, Flatten(pieces));
    assert fed.buf == Flatten(pieces);
    assert [] + Flatten(chunks) == Flatten(chunks);
    hide Receive, Settle, Flatten, Clean;
    ListingArrives(host, fed, status, server, epoch, Flatten(chunks), [], chunks);
    ChunkingIsIrrelevant(host, s, pieces);
  }

  /**
   What one directory frame does, whatever its place: the listing is passed on exactly if it is empty or the chunk
   reaches or passes its end, with the chunk in its range if it fits there and left out if it does not. So a
   listing can be passed on although parts of it never came.
   */
  lemma FrameOutcome(host: Host, s: Session, status: Byte, server: nat, epoch: nat, total: nat, offset: nat,
      chunk: seq<Byte>)
    requires !Streaming(s) && total < 0x1_0000_0000 && offset < 0x1_0000_0000 && |chunk| < 0x1_0000
    requires s.buf == ListPacket(status, server, epoch, total, offset, chunk)
    ensures var t := Settle(host, s);
            var before := if s.list.Some? && |s.list.value| == total then s.list.value else Zeros(total);
            && t.buf == [] && t.active == s.active && t.list.Some? && |t.list.value| == total
            && (t.log == s.log + [FileList(total, t.list.value)] <==> total == 0 || offset + |chunk| >= total)
            && (t.log == s.log <==> 0 < total && offset + |chunk| < total)
            && (if offset + |chunk| <= total then
                  t.list.value == before[..offset] + chunk + before[offset + |chunk|..]
                else t.list.value == before)
  {
    ListPacketFields(status, server, epoch, total, offset, chunk);
    hide ListPacket, Be;
    var p := s.buf;
    assert p[..|p|] == p && p[|p|..] == [];
    var before := if s.list.Some? && |s.list.value| == total then s.list.value else Zeros(total);
    if chunk == [] && offset <= total { assert before == before[..offset] + chunk + before[offset + |chunk|..]; }
    var t := Once(host, s);
    StepFrom(host, s);
    assert t.buf == [];
  }

  /** What the board sends for a listing: one frame with nothing in it when there is none, or none to be had. */
  function Sent(fsStatus: int, server: nat, epoch: nat, chunks: seq<seq<Byte>>): seq<Byte> {
    if fsStatus != 0 || Flatten(chunks) == [] then
      ListPacket(if fsStatus == 0 then 0 else 1, server, epoch, 0, 0, [])
    else ListFrames(0, server, epoch, |Flatten(chunks)|, 0, chunks)
  }

  lemma EmptyFrameArrives(host: Host, s: Session, status: Byte, server: nat, epoch: nat)
    requires !Streaming(s) && s.buf == ListPacket(status, server, epoch, 0, 0, [])
    ensures Settle(host, s) == s.(buf := [], list := Some([]), log := s.log + [FileList(0, [])]) && Clean(host, s)
  {
    ListPacketFields(status, server, epoch, 0, 0, []);
    hide ListPacket, Be, Overwrite;
    var p := s.buf;
    assert p[..|p|] == p && p[|p|..] == [];
    var t := Once(host, s);
    assert t == s.(buf := [], list := Some([]), log := s.log + [FileList(0, [])]);
  }

  /**
   A listing that could not be had arrives as the empty directory: the host never looks at the status byte.
   An empty directory arrives as what it is.
   */
  lemma FailureLooksEmpty(host: Host, s: Session, fsStatus: int, server: nat, epoch: nat, chunks: seq<seq<Byte>>,
      pieces: seq<seq<Byte>>)
    requires fsStatus != 0 || Flatten(chunks) == []
    requires !Streaming(s) && s.buf == [] && Flatten(pieces) == Sent(fsStatus, server, epoch, chunks)
    ensures Receive(host, s, pieces) == s.(list := Some([]), log := s.log + [FileList(0, [])])
  {
    hide ListPacket, Flatten;
    var fed := Feed(s, Flatten(pieces));
    assert fed.buf == Flatten(pieces);
    hide Receive, Settle, Clean;
    EmptyFrameArrives(host, fed, if fsStatus == 0 then 0 else 1, server, epoch);
    ChunkingIsIrrelevant(host, s, pieces);
  }

  /** The server id the host reads in a directory frame: it starts one byte too early. */
  function ListServer(packet: seq<Byte>): nat
    requires |packet| >= LIST_HEADER_LEN
  {
    Be(packet[1..5])
  }

  lemma BeFour(bs: seq<Byte>)
    requires |bs| == 4
    ensures Be(bs) == bs[0] as int * 0x1000000 + bs[1] as int * 0x10000 + bs[2] as int * 0x100 + bs[3] as int
  {
    assert bs[..3][..2] == bs[..2] && bs[..3][..2][..1] == bs[..1] && bs[..1][..0] == [];
    assert Be(bs) == 256 * Be(bs[..3]) + bs[3] as int;
    assert Be(bs[..3]) == 256 * Be(bs[..2]) + bs[2] as int;
    assert Be(bs[..2]) == 256 * Be(bs[..1]) + bs[1] as int;
    assert Be(bs[..1]) == bs[0] as int;
  }

  /** So of a good frame it is the sender's only if that is 0. */
  lemma ListServerIff(server: nat, epoch: nat, total: nat, offset: nat, chunk: seq<Byte>)
    requires server < 0x1_0000_0000 && total < 0x1_0000_0000 && offset < 0x1_0000_0000 && |chunk| < 0x1_0000
    ensures ListServer(ListPacket(0, server, epoch, total, offset, chunk)) == server / 256
    ensures ListServer(ListPacket(0, server, epoch, total, offset, chunk)) == server <==> server == 0
  {
    var p := ListPacket(0, server, epoch, total, offset, chunk);
    ListPacketFields(0, server, epoch, total, offset, chunk);
    assert Pow256(4) == 0x1_0000_0000;
    BeRoundTrip(server, 4);
    assert p[1] == 0;
    hide ListPacket, ToBe;
    var id := p[2..6];
    assert p[1..5] == [0 as Byte] + id[..3] && id[0] == p[2] && id[1] == p[3] && id[2] == p[4];
    BeFour(p[1..5]);
    BeFour(id);
  }

  /**
   From the card's directory to the host's file list: when the printer reports success, the entries the host
   reads are the files of the directory, in order, with their sizes; of an empty directory there are none.
   */
  lemma DirectoryEndToEnd(host: Host, s: Session, server: nat, epoch: nat, items: seq<Listing.Item>,
      room: nat, chunks: seq<seq<Byte>>, pieces: seq<seq<Byte>>)
    requires Listing.Listable(items) && Listing.StopsAt(items, room, 0) == |items|
    requires Chunked(chunks) && Flatten(chunks) == Listing.WithoutLast(Listing.Printed(items))
    requires |Flatten(chunks)| < 0x1_0000_0000 && !Streaming(s) && s.buf == []
    requires Flatten(pieces) == Sent(0, server, epoch, chunks)
    ensures var r := Receive(host, s, pieces);
            && |r.log| == |s.log| + 1 && r.log[|s.log|].FileList?
            && Listing.ReadListing(r.log[|s.log|].data) == Listing.Files(items)
  {
    Listing.ListingRoundTrip(items);
    if Flatten(chunks) == [] {
      FailureLooksEmpty(host, s, 0, server, epoch, chunks, pieces);
    } else {
      ListingInAnyPieces(host, s, 0, server, epoch, chunks, pieces);
    }
    hide Receive, ListFrames, Flatten, Chunked, Listing.Printed, Listing.ReadListing;
  }

  // ----- pattern verification -----

  /** A verified stream between two pieces that has not failed yet. */
  predicate BetweenPieces(s: Session) {
    s.buf == [] && Verifying(s) && s.active.value.received < s.active.value.total
  }

  function Swallowed(s: Session, piece: seq<Byte>): Session
    requires s.active.Some?
  {
    s.(active := Some(Take(s.active.value, piece)))
  }

  /** What a piece of verified payload does: all of it counts, or all of it is dropped and the stream given up. */
  lemma PieceArrives(host: Host, s: Session, piece: seq<Byte>, rest: seq<Byte>)
    requires BetweenPieces(s) && piece != []
    requires var st := s.active.value;
             st.received + |piece| == st.total || (st.received + |piece| <= st.total && rest == [])
    ensures var st := s.active.value;
            if PatternOk(st.received, piece) then
              && Settle(host, Feed(s, piece + rest)) == Settle(host, Feed(FinishIfFull(Swallowed(s, piece)), rest))
              && (Clean(host, Feed(s, piece + rest)) <==> Clean(host, Feed(FinishIfFull(Swallowed(s, piece)), rest)))
            else
              && Settle(host, Feed(s, piece + rest)) == Settle(host, Feed(Reject(s, piece), rest))
              && !Clean(host, Feed(s, piece + rest))
  {
    hide Take, PatternOk, FirstBad, Settle, Clean, Once, Enabled, Mismatch, FinishIfFull, Reject, BetweenPieces;
    var f := Feed(s, piece + rest);
    PieceOnce(host, s, piece, rest);
    StepFrom(host, f);
  }

  lemma PieceOnce(host: Host, s: Session, piece: seq<Byte>, rest: seq<Byte>)
    requires BetweenPieces(s) && piece != []
    requires var st := s.active.value;
             st.received + |piece| == st.total || (st.received + |piece| <= st.total && rest == [])
    ensures var f := Feed(s, piece + rest);
            && Enabled(f) && (Mismatch(f) <==> !PatternOk(s.active.value.received, piece))
            && Once(host, f) ==
               Feed(if PatternOk(s.active.value.received, piece) then FinishIfFull(Swallowed(s, piece))
                    else Reject(s, piece), rest)
  {
    hide Take, PatternOk, FirstBad, MarkerAt;
    var f := Feed(s, piece + rest);
    assert f.buf == piece + rest && f.buf[..|piece|] == piece && f.buf[|piece|..] == rest;
    assert Enabled(f) && !Watching(f) && PieceLength(f) == |piece|;
    assert [] + rest == rest;
  }

  lemma StepFrom(host: Host, s: Session)
    requires Enabled(s)
    ensures Settle(host, s) == Settle(host, Once(host, s))
    ensures Clean(host, s) <==> !Mismatch(s) && Clean(host, Once(host, s))
  {
    OnceShrinks(host, s);
  }

  lemma PieceAlone(host: Host, s: Session, piece: seq<Byte>)
    requires BetweenPieces(s) && piece != [] && s.active.value.received + |piece| <= s.active.value.total
    ensures Settle(host, Feed(s, piece)) ==
            if PatternOk(s.active.value.received, piece) then FinishIfFull(Swallowed(s, piece)) else Reject(s, piece)
  {
    hide Take, PatternOk, FirstBad;
    PieceArrives(host, s, piece, []);
    assert piece + [] == piece;
    var t := if PatternOk(s.active.value.received, piece) then FinishIfFull(Swallowed(s, piece)) else Reject(s, piece);
    assert Feed(t, []) == t && t.buf == [];
  }

  lemma SameRejection(s: Session, a: seq<Byte>, b: seq<Byte>)
    requires s.active.Some? && !PatternOk(s.active.value.received, a)
    ensures !PatternOk(s.active.value.received, a + b) && Reject(s, a + b) == Reject(s, a)
  {
    var r := s.active.value.received;
    PatternAppend(r, a, b);
    var k := FirstBad(r, a);
    hide PatternOk, FirstBad, PatternByte;
    assert (a + b)[..k] == a[..k] && (a + b)[k] == a[k];
    FirstBadIs(r, a + b, k);
  }

  /**
   With verification on, cutting a piece of payload in two makes no difference exactly when all of it
   matches the pattern, or when its first part does not and the second, read as ordinary frames then,
   changes nothing.
   */
  lemma {:induction false} VerificationIsChunkedIff(host: Host, s: Session, a: seq<Byte>, b: seq<Byte>)
    requires BetweenPieces(s) && a != [] && b != []
    requires s.active.value.received + |a + b| <= s.active.value.total
    ensures var r := s.active.value.received;
            Settle(host, Feed(Settle(host, Feed(s, a)), b)) == Settle(host, Feed(s, a + b)) <==>
            (|| PatternOk(r, a + b)
             || (!PatternOk(r, a) && Settle(host, Feed(Reject(s, a), b)) == Reject(s, a)))
  {
    PatternAppend(s.active.value.received, a, b);
    hide Settle, Take, PatternOk, FirstBad, Reject, BetweenPieces, FinishIfFull, Feed;
    if PatternOk(s.active.value.received, a) {
      FirstPartMatches(host, s, a, b);
    } else {
      SumFits(s, a, b);
      PieceRejected(host, s, a);
      PieceRejected(host, s, a + b);
      SameRejection(s, a, b);
    }
  }

  lemma SumFits(s: Session, a: seq<Byte>, b: seq<Byte>)
    requires BetweenPieces(s) && s.active.value.received + |a + b| <= s.active.value.total && a != []
    ensures s.active.value.received + |a| <= s.active.value.total && a + b != []
  {}

  /** The first part counts: the second decides. */
  lemma FirstPartMatches(host: Host, s: Session, a: seq<Byte>, b: seq<Byte>)
    requires BetweenPieces(s) && a != [] && b != [] && PatternOk(s.active.value.received, a)
    requires s.active.value.received + |a + b| <= s.active.value.total
    ensures Settle(host, Feed(Settle(host, Feed(s, a)), b)) == Settle(host, Feed(s, a + b)) <==>
            PatternOk(s.active.value.received, a + b)
  {
    PatternAppend(s.active.value.received, a, b);
    SwallowedGoesOn(s, a, b);
    SumFits(s, a, b);
    var t, c := Swallowed(s, a), a + b;
    if PatternOk(s.active.value.received, c) {
      hide Settle, PatternOk, FinishIfFull, Swallowed, BetweenPieces, Feed;
      PieceTaken(host, s, a);
      PieceTaken(host, t, b);
      PieceTaken(host, s, c);
    } else {
      RejectedLater(s, a, b);
      hide Settle, PatternOk, FirstBad, Reject, FinishIfFull, Swallowed, BetweenPieces, Feed;
      PieceTaken(host, s, a);
      PieceRejected(host, t, b);
      PieceRejected(host, s, c);
    }
  }

  lemma SwallowedGoesOn(s: Session, a: seq<Byte>, b: seq<Byte>)
    requires BetweenPieces(s) && a != [] && b != []
    requires s.active.value.received + |a + b| <= s.active.value.total
    ensures var t := Swallowed(s, a);
            && FinishIfFull(t) == t && BetweenPieces(t) && Swallowed(t, b) == Swallowed(s, a + b)
            && Take(s.active.value, a).received == t.active.value.received == s.active.value.received + |a|
            && t.active.value.received + |b| <= t.active.value.total
  {
    TakeKeepsSetup(s.active.value, a);
    TakeTwice(s.active.value, a, b);
    hide Take;
  }

  lemma PieceTaken(host: Host, s: Session, piece: seq<Byte>)
    requires BetweenPieces(s) && piece != [] && s.active.value.received + |piece| <= s.active.value.total
    requires PatternOk(s.active.value.received, piece)
    ensures Settle(host, Feed(s, piece)) == FinishIfFull(Swallowed(s, piece))
  {
    hide Settle, Take, PatternOk, FirstBad, Reject, FinishIfFull;
    PieceAlone(host, s, piece);
  }

  lemma PieceRejected(host: Host, s: Session, piece: seq<Byte>)
    requires BetweenPieces(s) && piece != [] && s.active.value.received + |piece| <= s.active.value.total
    requires !PatternOk(s.active.value.received, piece)
    ensures Settle(host, Feed(s, piece)) == Reject(s, piece)
  {
    hide Settle, Take, PatternOk, FirstBad, Reject, FinishIfFull;
    PieceAlone(host, s, piece);
  }

  lemma RejectedLater(s: Session, a: seq<Byte>, b: seq<Byte>)
    requires s.active.Some? && a != []
    requires !PatternOk(s.active.value.received, a + b) && !PatternOk(s.active.value.received + |a|, b)
    requires Take(s.active.value, a).received == s.active.value.received + |a|
    ensures Reject(Swallowed(s, a), b) != Reject(s, a + b)
  {
    hide Take, PatternOk, FirstBad;
    var x, y := Reject(Swallowed(s, a), b), Reject(s, a + b);
    assert x.log[|s.log|].stream.received != y.log[|s.log|].stream.received;
  }

  /** Unless that second part begins like a directory frame, only the match makes no difference. */
  lemma ChunkedIffMatching(host: Host, s: Session, a: seq<Byte>, b: seq<Byte>)
    requires BetweenPieces(s) && a != [] && b != [] && b[0] != LIST_COMMAND
    requires s.active.value.received + |a + b| <= s.active.value.total
    ensures Settle(host, Feed(Settle(host, Feed(s, a)), b)) == Settle(host, Feed(s, a + b)) <==>
            PatternOk(s.active.value.received, a + b)
  {
    hide Settle, Take, PatternOk, FirstBad;
    VerificationIsChunkedIff(host, s, a, b);
    if !PatternOk(s.active.value.received, a) { FramedBytesShow(host, Reject(s, a), b); }
  }

  /** Bytes between streams that do not begin like a directory frame leave a trace. */
  lemma FramedBytesShow(host: Host, s: Session, bytes: seq<Byte>)
    requires s.active.None? && s.buf == [] && bytes != [] && bytes[0] != LIST_COMMAND
    ensures Settle(host, Feed(s, bytes)) != s
  {
    var f := Feed(s, bytes);
    assert f.buf == bytes;
    if Enabled(f) {
      LogGrows(host, Once(host, f));
    }
  }

  /** Exactly when the rest of a verified payload and what follows it is free of failures. */
  lemma CleanIff(host: Host, s: Session, payload: seq<Byte>, rest: seq<Byte>)
    requires BetweenPieces(s) && s.active.value.received + |payload| == s.active.value.total
    ensures Clean(host, Feed(s, payload + rest)) <==>
            PatternOk(s.active.value.received, payload) && Clean(host, Feed(Finish(Swallowed(s, payload)), rest))
  {
    hide Settle, Clean, Take, PatternOk, FirstBad;
    PieceArrives(host, s, payload, rest);
    TakeKeepsSetup(s.active.value, payload);
  }

  /** A file of the test pattern passes verification in any pieces and resolves its handle once, with its bytes. */
  lemma PatternFileArrives(host: Host, s: Session, payload: seq<Byte>, pieces: seq<seq<Byte>>)
    requires BetweenPieces(s) && s.active.value.received == 0 && s.active.value.total == |payload|
    requires PatternOk(0, payload) && Flatten(pieces) == payload && s.active.value.capture && s.active.value.data == []
    ensures var r := Receive(host, s, pieces);
            && r.active.None? && r.log == s.log + [Finished(Take(s.active.value, payload))]
            && Take(s.active.value, payload).data == payload
            && (s.active.value.save ==> Take(s.active.value, payload).saved == s.active.value.saved + payload)
  {
    var done := Finish(Swallowed(s, payload));
    assert [] + payload == payload && payload + [] == payload && Feed(done, []) == done && done.buf == [];
    assert Clean(host, done) && Settle(host, done) == done;
    hide Settle, Clean, PatternOk, FirstBad, Receive, Flatten;
    PieceAlone(host, s, payload);
    CleanIff(host, s, payload, []);
    ChunkingIsIrrelevant(host, s, pieces);
  }
}
