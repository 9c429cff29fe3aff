/** The RTP player: it reads a WAV file, cuts the audio after the 44-byte
    header into payloads of at most packetSize bytes and sends each one to a
    single destination as an RTP packet with a 12-byte fixed header (section
    5.1 of RFC 3550). The socket is not modelled as such: whether it is open
    is a field, and which send (if any) reports an error is a parameter. The
    20 ms pacing between packets is left out, so the packets are produced by
    one loop in the order they go out. */
module RtpPlayback {
  import opened Common
  import opened Bytes
  import opened NodeBuffer
  import opened WavHeader
  import opened RtpServer

  /** The payload size playWavFile uses when none is given. */
  const DefaultPacketSize: nat := 160
  /** writeUInt16BE accepts values below this. */
  const SequenceLimit: nat := 0x1_0000
  /** Twice the largest value writeUInt32BE accepts. */
  const DoubledTimestampMax: nat := 2 * 0xFFFF_FFFF

  /** The packet createRtpPacket builds: version 2 with no padding, no
      extension and no CSRC (0x80), payload type 0 with no marker (0x00),
      then the big-endian sequence number, timestamp and SSRC, then the
      payload. */
  function RtpPacket(sequence: nat, timestamp: nat, ssrc: nat, payload: seq<byte>): (p: seq<byte>)
    requires sequence < SequenceLimit && timestamp < U32Limit && ssrc < U32Limit
    ensures |p| == RtpHeaderSize + |payload|
  {
    Pow256Widths();
    [0x80, 0x00] + BE(sequence, 2) + BE(timestamp, 4) + BE(ssrc, 4) + payload
  }

  lemma RtpPacketSlices(sequence: nat, timestamp: nat, ssrc: nat, payload: seq<byte>)
    requires sequence < SequenceLimit && timestamp < U32Limit && ssrc < U32Limit
    ensures Pow256(2) == SequenceLimit && Pow256(4) == U32Limit
    ensures var p := RtpPacket(sequence, timestamp, ssrc, payload);
      && p[0] == 0x80 && p[1] == 0x00
      && p[2..4] == BE(sequence, 2)
      && p[4..8] == BE(timestamp, 4)
      && p[8..12] == BE(ssrc, 4)
      && p[RtpHeaderSize..] == payload
  {
    Pow256Widths();
  }

  /** A packet the player builds is one the capture server decodes to
      version 2, no padding, no extension, no CSRC, payload type 0 and the
      sequence number, timestamp and SSRC it was built from. */
  lemma PacketParses(sequence: nat, timestamp: nat, ssrc: nat, payload: seq<byte>)
    requires sequence < SequenceLimit && timestamp < U32Limit && ssrc < U32Limit
    ensures ParseRtpHeader(RtpPacket(sequence, timestamp, ssrc, payload))
         == Success(RtpPacketHeader(2, false, false, 0, 0, sequence, timestamp, ssrc))
  {
    var p := RtpPacket(sequence, timestamp, ssrc, payload);
    RtpPacketSlices(sequence, timestamp, ssrc, payload);
    FromBEOfBE(sequence, 2);
    FromBEOfBE(timestamp, 4);
    FromBEOfBE(ssrc, 4);
    assert DecodeFields(p) == RtpPacketHeader(2, false, false, 0, 0, sequence, timestamp, ssrc);
  }

  /** The capture server takes back the payload of a packet the player
      builds unchanged, or pair-swapped when it swaps, which it can exactly
      when the payload has even length. */
  lemma PacketPayload(sequence: nat, timestamp: nat, ssrc: nat, payload: seq<byte>)
    requires sequence < SequenceLimit && timestamp < U32Limit && ssrc < U32Limit
    ensures var p := RtpPacket(sequence, timestamp, ssrc, payload);
      && Accepted(p, false) && Payload(p, false) == payload
      && (Accepted(p, true) <==> |payload| % 2 == 0)
      && (|payload| % 2 == 0 ==> Payload(p, true) == Swapped(payload))
  {
    RtpPacketSlices(sequence, timestamp, ssrc, payload);
  }

  function Min(a: nat, b: nat): nat
  {
    if a <= b then a else b
  }

  /** The bytes of fileData from offset on; nothing once offset is past the
      end. */
  function Remaining(fileData: seq<byte>, offset: nat): (r: seq<byte>)
    ensures |r| == if offset < |fileData| then |fileData| - offset else 0
  {
    if offset < |fileData| then fileData[offset..] else []
  }

  /** The audio playWavFile sends: everything after the 44-byte header, which
      it skips without reading. */
  function WavBody(fileData: seq<byte>): (r: seq<byte>)
    ensures |fileData| <= HeaderSize ==> r == []
    ensures |fileData| > HeaderSize ==> fileData == fileData[..HeaderSize] + r
  {
    Remaining(fileData, HeaderSize)
  }

  /** The payloads playWavFile cuts audio into: consecutive pieces of size
      bytes, the last one holding whatever remains. */
  function Chunks(data: seq<byte>, size: nat): (cs: seq<seq<byte>>)
    requires size > 0
    ensures Flatten(cs) == data
    ensures forall k :: 0 <= k < |cs| ==> 0 < |cs[k]| <= size
    ensures forall k :: 0 <= k < |cs| - 1 ==> |cs[k]| == size
    decreases |data|
  {
    if data == [] then []
    else
      var n := Min(size, |data|);
      var rest := Chunks(data[n..], size);
      var cs := [data[..n]] + rest;
      assert cs[1..] == rest;
      assert data == data[..n] + data[n..];
      cs
  }

  /** A file's audio makes one packet per packetSize bytes, the last one
      partial: the count is the audio length divided by the size, rounded
      up. */
  lemma {:induction false} ChunksCount(data: seq<byte>, size: nat)
    requires size > 0
    ensures var n := |Chunks(data, size)|;
      |data| <= n * size < |data| + size
    decreases |data|
  {
    if data != [] {
      var n := Min(size, |data|);
      ChunksCount(data[n..], size);
      var m := |Chunks(data[n..], size)|;
      assert n < size ==> data[n..] == [];
      CountStep(|data|, n, m, size);
    }
  }

  /** One more payload of n bytes, after m that cover the other |data| - n
      bytes, keeps the count bound. */
  lemma CountStep(len: nat, n: nat, m: nat, size: nat)
    requires 0 < n <= size && n <= len && (n < size ==> m == 0 && n == len)
    requires len - n <= m * size < len - n + size
    ensures len <= (m + 1) * size < len + size
  {
    assert (m + 1) * size == m * size + size;
  }

  /** The payloads before a full-sized one add up to size bytes each. */
  lemma {:induction false} FlattenLength(cs: seq<seq<byte>>, size: nat, k: nat)
    requires k <= |cs|
    requires forall j :: 0 <= j < k ==> |cs[j]| == size
    ensures |Flatten(cs[..k])| == k * size
  {
    if k > 0 {
      FlattenLength(cs, size, k - 1);
      assert cs[..k] == cs[..k - 1] + [cs[k - 1]];
      FlattenAppend(cs[..k - 1], cs[k - 1]);
    }
  }

  /** Twice the timestamp a player that started at doubled timestamp d0 has
      reached after the first k payloads of cs: every packet adds half its
      payload length (the number of 16-bit samples in it) to the timestamp. */
  function DoubledTimestampAfter(d0: nat, cs: seq<seq<byte>>, k: nat): nat
    requires k <= |cs|
  {
    d0 + |Flatten(cs[..k])|
  }

  lemma TimestampStep(d0: nat, cs: seq<seq<byte>>, k: nat)
    requires k < |cs|
    ensures DoubledTimestampAfter(d0, cs, k + 1) == DoubledTimestampAfter(d0, cs, k) + |cs[k]|
  {
    assert cs[..k + 1] == cs[..k] + [cs[k]];
    FlattenAppend(cs[..k], cs[k]);
  }

  /** A fresh player stamps packet k of a file with k * packetSize / 2,
      rounded down: the number of 16-bit samples sent before it. */
  lemma FreshPlayerTimestamp(data: seq<byte>, size: nat, k: nat)
    requires size > 0 && k < |Chunks(data, size)|
    ensures DoubledTimestampAfter(0, Chunks(data, size), k) / 2 == k * size / 2
  {
    FlattenLength(Chunks(data, size), size, k);
  }

  /** createRtpPacket can write packet k's sequence number and timestamp:
      writeUInt16BE and writeUInt32BE throw otherwise. */
  predicate Buildable(s0: nat, d0: nat, cs: seq<seq<byte>>, k: nat)
    requires k <= |cs|
  {
    s0 + k < SequenceLimit && DoubledTimestampAfter(d0, cs, k) <= DoubledTimestampMax
  }

  /** Packet k is built and its send succeeds. */
  predicate Proceeds(s0: nat, d0: nat, open: bool, failAt: Option<nat>, cs: seq<seq<byte>>, k: nat)
    requires k <= |cs|
  {
    Buildable(s0, d0, cs, k) && open && failAt != Some(k)
  }

  /** Packet k of a playback that started at sequence s0 and doubled
      timestamp d0; writeUInt32BE writes the timestamp rounded down. */
  function PacketAt(s0: nat, d0: nat, ssrc: nat, cs: seq<seq<byte>>, k: nat): (p: seq<byte>)
    requires k < |cs| && Buildable(s0, d0, cs, k) && ssrc < U32Limit
    ensures |p| == RtpHeaderSize + |cs[k]|
  {
    RtpPacket(s0 + k, DoubledTimestampAfter(d0, cs, k) / 2, ssrc, cs[k])
  }

  /** sent holds, in order, the first |sent| packets of a playback that
      started at sequence s0 and doubled timestamp d0, each of them built and sent. */
  ghost predicate SentPrefix(sent: seq<seq<byte>>, s0: nat, d0: nat, ssrc: nat, open: bool,
                             failAt: Option<nat>, cs: seq<seq<byte>>)
  {
    && |sent| <= |cs| && ssrc < U32Limit
    && forall k :: 0 <= k < |sent| ==>
         Proceeds(s0, d0, open, failAt, cs, k) && sent[k] == PacketAt(s0, d0, ssrc, cs, k)
  }

  /** A packet equal to packet |sent|, sent after the first |sent|, extends
      the prefix. */
  lemma SentPrefixSnoc(sent: seq<seq<byte>>, p: seq<byte>, s0: nat, d0: nat, ssrc: nat, open: bool,
                       failAt: Option<nat>, cs: seq<seq<byte>>)
    requires SentPrefix(sent, s0, d0, ssrc, open, failAt, cs)
    requires |sent| < |cs| && Proceeds(s0, d0, open, failAt, cs, |sent|)
    requires p == PacketAt(s0, d0, ssrc, cs, |sent|)
    ensures SentPrefix(sent + [p], s0, d0, ssrc, open, failAt, cs)
  {
  }

  /** The packet createRtpPacket builds from payload k, at sequence s and
      doubled timestamp d, is packet k of the playback. */
  lemma PacketAtIs(s0: nat, d0: nat, ssrc: nat, cs: seq<seq<byte>>, k: nat, s: nat, d: nat)
    requires k < |cs| && s == s0 + k && d == DoubledTimestampAfter(d0, cs, k)
    requires s < SequenceLimit && d <= DoubledTimestampMax && ssrc < U32Limit
    ensures Buildable(s0, d0, cs, k)
    ensures PacketAt(s0, d0, ssrc, cs, k) == RtpPacket(s, d / 2, ssrc, cs[k])
  {
  }

  /** Where a playback ends: the packets whose sends succeeded, how it
      ended, and the player's sequence number, doubled timestamp and socket
      state afterwards. */
  datatype Playback = Playback(sent: seq<seq<byte>>, outcome: Outcome, sequence: nat,
                               doubledTimestamp: nat, open: bool)

  /** The rest of a playback of the payloads cs by a player with the given
      SSRC, once the packets in sent have gone out and the player stands at
      sequence s, doubled timestamp d, with its socket open or not. Each step
      builds the next packet (which fails once the sequence number or the
      timestamp no longer fits) and sends it (which fails on a closed socket,
      and at the send numbered failAt); at the end the socket is closed. */
  function Play(ssrc: nat, failAt: Option<nat>, cs: seq<seq<byte>>, sent: seq<seq<byte>>,
                s: nat, d: nat, open: bool): (r: Playback)
    requires |sent| <= |cs| && ssrc < U32Limit
    decreases |cs| - |sent|
  {
    var k := |sent|;
    if k == |cs| then Playback(sent, if open then Pass else Fail(SocketNotRunning), s, d, false)
    else if s >= SequenceLimit || d > DoubledTimestampMax then Playback(sent, Fail(ValueOutOfRange), s + 1, d, open)
    else if !open then Playback(sent, Fail(SocketNotRunning), s + 1, d + |cs[k]|, false)
    else if failAt == Some(k) then Playback(sent, Fail(SendFailed), s + 1, d + |cs[k]|, false)
    else Play(ssrc, failAt, cs, sent + [RtpPacket(s, d / 2, ssrc, cs[k])], s + 1, d + |cs[k]|, open)
  }

  /** A packet that can be built and sent goes out, and the playback goes on
      from the next payload with the next sequence number and timestamp. */
  lemma PlayStep(ssrc: nat, failAt: Option<nat>, cs: seq<seq<byte>>, sent: seq<seq<byte>>, s: nat, d: nat,
                 sent': seq<seq<byte>>, s': nat, d': nat)
    requires |sent| < |cs| && ssrc < U32Limit
    requires s < SequenceLimit && d <= DoubledTimestampMax && failAt != Some(|sent|)
    requires sent' == sent + [RtpPacket(s, d / 2, ssrc, cs[|sent|])] && s' == s + 1 && d' == d + |cs[|sent|]|
    ensures Play(ssrc, failAt, cs, sent, s, d, true) == Play(ssrc, failAt, cs, sent', s', d', true)
  {
  }

  /** A packet that cannot be built, or whose send fails, ends the playback
      with that failure; the sequence number has still advanced, and the
      timestamp too once the packet was built. */
  lemma PlayStops(ssrc: nat, failAt: Option<nat>, cs: seq<seq<byte>>, sent: seq<seq<byte>>, s: nat, d: nat,
                  open: bool, outcome: Outcome, s': nat, d': nat, open': bool)
    requires |sent| < |cs| && ssrc < U32Limit
    requires var built := s < SequenceLimit && d <= DoubledTimestampMax;
      && !(built && open && failAt != Some(|sent|))
      && outcome == (if !built then Fail(ValueOutOfRange) else if !open then Fail(SocketNotRunning) else Fail(SendFailed))
      && s' == s + 1 && d' == d + (if built then |cs[|sent|]| else 0)
      && open' == (open && !(built && failAt == Some(|sent|)))
    ensures Play(ssrc, failAt, cs, sent, s, d, open) == Playback(sent, outcome, s', d', open')
  {
  }

  /** Once every payload is sent, the socket is closed and the playback
      resolves, unless the socket was already closed. */
  lemma PlayEnds(ssrc: nat, failAt: Option<nat>, cs: seq<seq<byte>>, sent: seq<seq<byte>>, s: nat, d: nat, open: bool)
    requires |sent| == |cs| && ssrc < U32Limit
    ensures Play(ssrc, failAt, cs, sent, s, d, open)
         == Playback(sent, if open then Pass else Fail(SocketNotRunning), s, d, false)
  {
  }

  /** What a playback that has already sent the first |sent| packets
      delivers: it goes on sending packet after packet, each one the packet
      of its payload, until the first packet that cannot be built or sent,
      and that one decides the outcome; the sequence number has advanced
      once per packet attempted and the timestamp once per packet built;
      the socket stays open only when a packet could not be built. */
  lemma {:induction false} PlayContinues(ssrc: nat, failAt: Option<nat>, cs: seq<seq<byte>>,
                                         sent: seq<seq<byte>>, s0: nat, d0: nat, open: bool)
    requires |sent| <= |cs| && SentPrefix(sent, s0, d0, ssrc, open, failAt, cs)
    ensures var r := Play(ssrc, failAt, cs, sent, s0 + |sent|, DoubledTimestampAfter(d0, cs, |sent|), open);
      && SentPrefix(r.sent, s0, d0, ssrc, open, failAt, cs)
      && (|r.sent| < |cs| ==> !Proceeds(s0, d0, open, failAt, cs, |r.sent|))
      && (|r.sent| == |cs| ==> r.outcome == if open then Pass else Fail(SocketNotRunning))
      && (|r.sent| < |cs| ==>
            r.outcome == if !Buildable(s0, d0, cs, |r.sent|) then Fail(ValueOutOfRange)
                         else if !open then Fail(SocketNotRunning)
                         else Fail(SendFailed))
      && r.sequence == s0 + |r.sent| + (if |r.sent| < |cs| then 1 else 0)
      && r.doubledTimestamp == DoubledTimestampAfter(d0, cs,
           if |r.sent| < |cs| && Buildable(s0, d0, cs, |r.sent|) then |r.sent| + 1 else |r.sent|)
      && r.open == (open && r.outcome == Fail(ValueOutOfRange))
    decreases |cs| - |sent|
  {
    var k := |sent|;
    if k < |cs| {
      var s, d := s0 + k, DoubledTimestampAfter(d0, cs, k);
      TimestampStep(d0, cs, k);
      if s < SequenceLimit && d <= DoubledTimestampMax && open && failAt != Some(k) {
        var p := RtpPacket(s, d / 2, ssrc, cs[k]);
        PacketAtIs(s0, d0, ssrc, cs, k, s, d);
        SentPrefixSnoc(sent, p, s0, d0, ssrc, open, failAt, cs);
        PlayContinues(ssrc, failAt, cs, sent + [p], s0, d0, open);
      }
    }
  }

  /** playWavFile's promise, for a player that starts at sequence s0 and
      doubled timestamp d0: the packets sent are, in order, the packets of
      the first payloads, each built and sent; the playback stops at the
      first payload whose packet cannot be built (the sequence number or the
      timestamp no longer fits), whose send finds the socket closed, or
      whose send fails, and that decides the outcome; a playback that
      reaches the end of the file resolves when its socket was open. */
  lemma PlaybackOutcome(ssrc: nat, failAt: Option<nat>, cs: seq<seq<byte>>, s0: nat, d0: nat, open: bool)
    requires ssrc < U32Limit
    ensures var r := Play(ssrc, failAt, cs, [], s0, d0, open);
      && SentPrefix(r.sent, s0, d0, ssrc, open, failAt, cs)
      && (|r.sent| < |cs| ==> !Proceeds(s0, d0, open, failAt, cs, |r.sent|))
      && (r.outcome == Pass <==> |r.sent| == |cs| && open)
      && (|r.sent| < |cs| ==>
            r.outcome == if !Buildable(s0, d0, cs, |r.sent|) then Fail(ValueOutOfRange)
                         else if !open then Fail(SocketNotRunning)
                         else Fail(SendFailed))
      && r.sequence == s0 + |r.sent| + (if |r.sent| < |cs| then 1 else 0)
      && r.doubledTimestamp == DoubledTimestampAfter(d0, cs,
           if |r.sent| < |cs| && Buildable(s0, d0, cs, |r.sent|) then |r.sent| + 1 else |r.sent|)
      && r.open == (open && r.outcome == Fail(ValueOutOfRange))
  {
    assert cs[..0] == [];
    PlayContinues(ssrc, failAt, cs, [], s0, d0, open);
  }

  /** Every packet a fresh player sends for a file is one the capture server
      takes apart again: packet k carries sequence number k, the number of
      16-bit samples before it as its timestamp, the player's SSRC, and
      payload k of the file's audio. */
  lemma FreshPlaybackRoundTrip(ssrc: nat, failAt: Option<nat>, data: seq<byte>, size: nat)
    requires ssrc < U32Limit && size > 0
    ensures var cs := Chunks(data, size);
      var r := Play(ssrc, failAt, cs, [], 0, 0, true);
      && |r.sent| <= |cs|
      && forall k :: 0 <= k < |r.sent| ==>
           && ParseRtpHeader(r.sent[k]) == Success(RtpPacketHeader(2, false, false, 0, 0, k, k * size / 2, ssrc))
           && Payload(r.sent[k], false) == cs[k]
  {
    var cs := Chunks(data, size);
    var r := Play(ssrc, failAt, cs, [], 0, 0, true);
    PlaybackOutcome(ssrc, failAt, cs, 0, 0, true);
    forall k | 0 <= k < |r.sent|
      ensures ParseRtpHeader(r.sent[k]) == Success(RtpPacketHeader(2, false, false, 0, 0, k, k * size / 2, ssrc))
      ensures Payload(r.sent[k], false) == cs[k]
    {
      FreshPlayerTimestamp(data, size, k);
      var t := DoubledTimestampAfter(0, cs, k) / 2;
      assert r.sent[k] == RtpPacket(k, t, ssrc, cs[k]);
      PacketParses(k, t, ssrc, cs[k]);
      PacketPayload(k, t, ssrc, cs[k]);
    }
  }

  /** playWavFile(filePath) without a packet size, as the player is used to
      play a file: a fresh player's packets carry 160 bytes of audio each but
      the last, and packet k carries timestamp 80 * k, the number of 16-bit
      samples before it. */
  lemma DefaultPacketSizePlayback(ssrc: nat, failAt: Option<nat>, data: seq<byte>)
    requires ssrc < U32Limit
    ensures var cs := Chunks(data, DefaultPacketSize);
      var r := Play(ssrc, failAt, cs, [], 0, 0, true);
      && (forall k :: 0 <= k < |cs| - 1 ==> |cs[k]| == 160)
      && forall k :: 0 <= k < |r.sent| ==>
           ParseRtpHeader(r.sent[k]) == Success(RtpPacketHeader(2, false, false, 0, 0, k, 80 * k, ssrc))
  {
    var cs := Chunks(data, DefaultPacketSize);
    var r := Play(ssrc, failAt, cs, [], 0, 0, true);
    FreshPlaybackRoundTrip(ssrc, failAt, data, DefaultPacketSize);
    forall k | 0 <= k < |r.sent|
      ensures ParseRtpHeader(r.sent[k]) == Success(RtpPacketHeader(2, false, false, 0, 0, k, 80 * k, ssrc))
    {
      assert k * DefaultPacketSize == 2 * (80 * k);
    }
  }

  /** The playback stands at offset of fileData, having built the first k
      payloads of cs: the payloads still to come are the rest of cs. */
  ghost predicate Cursor(fileData: seq<byte>, offset: nat, size: nat, cs: seq<seq<byte>>, k: nat)
    requires size > 0
  {
    k <= |cs| && Chunks(Remaining(fileData, offset), size) == cs[k..]
  }

  /** The next payload is the bytes of fileData from offset on, at most
      size of them. */
  lemma CursorStep(fileData: seq<byte>, offset: nat, size: nat, cs: seq<seq<byte>>, k: nat, n: nat)
    requires size > 0 && offset < |fileData| && Cursor(fileData, offset, size, cs, k)
    requires n == Min(size, |fileData| - offset)
    ensures k < |cs| && offset + n <= |fileData| && cs[k] == fileData[offset..offset + n]
  {
    assert fileData[offset..][..n] == fileData[offset..offset + n];
  }

  /** Once that payload is sent, the rest of the payloads start after it. */
  lemma CursorAdvance(fileData: seq<byte>, offset: nat, size: nat, cs: seq<seq<byte>>, k: nat,
                      offset': nat, k': nat)
    requires size > 0 && offset < |fileData| && Cursor(fileData, offset, size, cs, k)
    requires offset' == offset + Min(size, |fileData| - offset) && k' == k + 1
    ensures Cursor(fileData, offset', size, cs, k')
  {
    var n := Min(size, |fileData| - offset);
    var d := fileData[offset..];
    assert d[n..] == Remaining(fileData, offset');
    assert cs[k..][1..] == cs[k'..];
  }

  /** Once the file is used up, every payload has been built. */
  lemma CursorEnd(fileData: seq<byte>, offset: nat, size: nat, cs: seq<seq<byte>>, k: nat)
    requires size > 0 && offset >= |fileData| && Cursor(fileData, offset, size, cs, k)
    ensures k == |cs|
  {
  }

  /** convertToWav(inputFile, outputFile): ffmpeg is asked to write 16-bit
      PCM, 16 kHz, mono to the output path, which is outputFile with ".wav"
      added unless it already ends that way; the promise resolves to that
      path, or rejects when ffmpeg fails. */
  function ConvertToWav(outputFile: string, converted: bool): (r: Result<string, Failure>)
    ensures r.Success? <==> converted
    ensures r.Failure? ==> r.error == ConversionFailed
    ensures r.Success? ==> r.value == WavOutputPath(outputFile)
  {
    var outputPath := WavOutputPath(outputFile);
    if converted then Success(outputPath) else Failure(ConversionFailed)
  }

  /** The format ffmpeg converts to is the one WavHeader.create writes by
      default, so a converted file and a capture share one header. */
  const ConversionFormat: WavFormat := WavFormat(16000, 1, 16)

  lemma ConversionFormatIsDefault()
    ensures ConversionFormat == WithDefaults(NoOptions)
    ensures DefaultCanonicalHeader() == CanonicalHeader(ConversionFormat)
  {
  }

  class RtpPlayer {
    const destinationHost: string
    const destinationPort: nat
    /** Math.floor(Math.random() * 0xffffffff), drawn at construction. */
    const ssrc: nat
    var sequence: nat
    /** Twice the player's timestamp. The timestamp is a JavaScript number
        that starts at 0 and grows by half a payload length per packet, so
        it is always a whole number of halves and this is exact. */
    var doubledTimestamp: nat
    /** Whether the UDP socket is still open. */
    var clientOpen: bool

    ghost predicate Valid()
      reads this
    {
      ssrc < U32Limit
    }

    /** new RtpPlayer(destinationHost, destinationPort): sequence and
        timestamp start at 0 and the socket is open. ssrc stands for the
        random draw, which is below 0xffffffff. */
    constructor (destinationHost: string, destinationPort: nat, ssrc: nat)
      requires ssrc < 0xFFFF_FFFF
      ensures Valid()
      ensures this.destinationHost == destinationHost && this.destinationPort == destinationPort
      ensures this.ssrc == ssrc && sequence == 0 && doubledTimestamp == 0 && clientOpen
    {
      this.destinationHost := destinationHost;
      this.destinationPort := destinationPort;
      this.ssrc := ssrc;
      sequence, doubledTimestamp, clientOpen := 0, 0, true;
    }

    /** createRtpPacket(payload). The sequence number is post-incremented
        before writeUInt16BE checks it, so it advances even when the write
        throws; writeUInt32BE writes the timestamp rounded down and throws
        when it exceeds 0xffffffff, in which case the timestamp is not
        advanced. */
    method CreateRtpPacket(payload: seq<byte>) returns (r: Result<array<byte>, Failure>)
      requires Valid()
      modifies this
      ensures Valid() && clientOpen == old(clientOpen)
      ensures sequence == old(sequence) + 1
      ensures r.Success? <==> old(sequence) < SequenceLimit && old(doubledTimestamp) <= DoubledTimestampMax
      ensures r.Failure? ==> r.error == ValueOutOfRange && doubledTimestamp == old(doubledTimestamp)
      ensures r.Success? ==>
        && fresh(r.value)
        && r.value[..] == RtpPacket(old(sequence), old(doubledTimestamp) / 2, ssrc, payload)
        && doubledTimestamp == old(doubledTimestamp) + |payload|
    {
      var packet := new byte[RtpHeaderSize + |payload|](_ => 0);
      packet[0] := 0x80;
      packet[1] := 0x00;
      var s := sequence;
      sequence := sequence + 1;
      if s >= SequenceLimit {
        return Failure(ValueOutOfRange);
      }
      WriteSequence(packet, s);
      if doubledTimestamp > DoubledTimestampMax {
        return Failure(ValueOutOfRange);
      }
      var t := doubledTimestamp / 2;
      WriteStamp(packet, s, t, ssrc, payload);
      doubledTimestamp := doubledTimestamp + |payload|;
      return Success(packet);
    }

    /** packet.writeUInt16BE(sequence, 2) for a sequence number that fits. */
    method WriteSequence(packet: array<byte>, s: nat)
      requires packet.Length >= 4 && s < SequenceLimit
      modifies packet
      ensures packet[..] == Overwrite(old(packet[..]), 2, BE(s, 2))
    {
      Pow256Widths();
      WriteUIntBE(packet, s, 2, 2);
    }

    /** The rest of createRtpPacket once the sequence number is written: the
        timestamp, the SSRC and the payload. */
    static method WriteStamp(packet: array<byte>, s: nat, t: nat, ssrc: nat, payload: seq<byte>)
      requires packet.Length == RtpHeaderSize + |payload|
      requires s < SequenceLimit && t < U32Limit && ssrc < U32Limit
      requires packet[0] == 0x80 && packet[1] == 0x00
      requires Pow256(2) == SequenceLimit && packet[2..4] == BE(s, 2)
      modifies packet
      ensures packet[..] == RtpPacket(s, t, ssrc, payload)
    {
      ghost var c := RtpPacket(s, t, ssrc, payload);
      RtpPacketSlices(s, t, ssrc, payload);
      assert packet[..4] == c[..4] by {
        assert packet[..4] == [packet[0], packet[1]] + packet[2..4];
        assert c[..4] == [c[0], c[1]] + c[2..4];
      }
      ghost var h0 := packet[..];
      WriteUIntBE(packet, t, 4, 4);
      assert packet[..8] == c[..8] by { OverwritePrefix(h0, c, 4, BE(t, 4)); }
      h0 := packet[..];
      WriteUIntBE(packet, ssrc, 8, 4);
      assert packet[..12] == c[..12] by { OverwritePrefix(h0, c, 8, BE(ssrc, 4)); }
      h0 := packet[..];
      CopyInto(payload, packet, RtpHeaderSize);
      assert packet[..|c|] == c[..|c|] by { OverwritePrefix(h0, c, RtpHeaderSize, payload); }
      assert packet[..] == c;
    }

    /** One run of playWavFile's sendNextPacket past its end-of-file test:
        build the packet for payload and send it. A send on a closed socket
        throws; a send whose callback reports an error (sendFails) closes
        the socket. The result is the packet that went out. */
    method SendNextPacket(payload: seq<byte>, sendFails: bool) returns (r: Result<seq<byte>, Failure>)
      requires Valid()
      modifies this
      ensures Valid() && sequence == old(sequence) + 1
      ensures var built := old(sequence) < SequenceLimit && old(doubledTimestamp) <= DoubledTimestampMax;
        && (r.Success? <==> built && old(clientOpen) && !sendFails)
        && (r.Success? ==> r.value == RtpPacket(old(sequence), old(doubledTimestamp) / 2, ssrc, payload))
        && (r.Failure? ==> r.error == if !built then ValueOutOfRange
                                      else if !old(clientOpen) then SocketNotRunning
                                      else SendFailed)
        && doubledTimestamp == old(doubledTimestamp) + (if built then |payload| else 0)
        && clientOpen == (old(clientOpen) && !(built && sendFails))
    {
      var packet := CreateRtpPacket(payload);
      if packet.Failure? {
        return Failure(packet.error);
      }
      if !clientOpen {
        return Failure(SocketNotRunning);
      }
      if sendFails {
        clientOpen := false;
        return Failure(SendFailed);
      }
      return Success(packet.value[..]);
    }

    /** playWavFile(filePath, packetSize) on the bytes readFileSync returns.
        Starting at offset 44, each step builds the packet for the next
        payload and sends it; the first packet createRtpPacket cannot build,
        a send on a closed socket, or the send numbered failAt (whose
        callback reports an error, after which the socket is closed) ends the
        playback with that failure. Otherwise, once the audio is used up, the
        socket is closed and the promise resolves. sent holds the packets
        whose sends succeeded, in order. */
    method PlayWavFile(fileData: seq<byte>, packetSize: nat, failAt: Option<nat>)
      returns (sent: seq<seq<byte>>, outcome: Outcome)
      requires Valid() && packetSize > 0
      modifies this
      ensures Valid()
      ensures Playback(sent, outcome, sequence, doubledTimestamp, clientOpen)
           == Play(ssrc, failAt, Chunks(WavBody(fileData), packetSize), [],
                   old(sequence), old(doubledTimestamp), old(clientOpen))
    {
      ghost var cs := Chunks(WavBody(fileData), packetSize);
      ghost var whole := Play(ssrc, failAt, cs, [], sequence, doubledTimestamp, clientOpen);
      var offset := HeaderSize;
      sent := [];
      while offset < |fileData|
        invariant Valid() && HeaderSize <= offset
        invariant Cursor(fileData, offset, packetSize, cs, |sent|)
        invariant whole == Play(ssrc, failAt, cs, sent, sequence, doubledTimestamp, clientOpen)
        decreases |fileData| - offset
      {
        ghost var k, offset0 := |sent|, offset;
        ghost var s, d, open := sequence, doubledTimestamp, clientOpen;
        var currentPacketSize := Min(packetSize, |fileData| - offset);
        var payload := fileData[offset..offset + currentPacketSize];
        CursorStep(fileData, offset, packetSize, cs, k, currentPacketSize);
        var packet := SendNextPacket(payload, failAt == Some(|sent|));
        if packet.Failure? {
          PlayStops(ssrc, failAt, cs, sent, s, d, open, Fail(packet.error), sequence, doubledTimestamp, clientOpen);
          return sent, Fail(packet.error);
        }
        ghost var sent0 := sent;
        sent := sent + [packet.value];
        PlayStep(ssrc, failAt, cs, sent0, s, d, sent, sequence, doubledTimestamp);
        offset := offset + currentPacketSize;
        CursorAdvance(fileData, offset0, packetSize, cs, k, offset, |sent|);
      }
      CursorEnd(fileData, offset, packetSize, cs, |sent|);
      PlayEnds(ssrc, failAt, cs, sent, sequence, doubledTimestamp, clientOpen);
      if !clientOpen {
        return sent, Fail(SocketNotRunning);
      }
      clientOpen := false;
      outcome := Pass;
    }
  }
}
