/** The RTP capture server: every datagram it receives is an RTP packet whose
    12-byte fixed header (section 5.1 of RFC 3550) is decoded and stripped;
    the payload is optionally byte-swapped in 16-bit pairs and, when an output
    path is configured, appended to a WAV file whose header is finalised on
    close. The UDP socket itself is not modelled: each received datagram is a
    call of HandleMessage. */
module RtpServer {
  import opened Common
  import opened Bytes
  import opened NodeBuffer
  import opened WavHeader

  const RtpHeaderSize: nat := 12

  /** The decoded fixed RTP header. */
  datatype RtpPacketHeader = RtpPacketHeader(
    version: nat,
    padding: bool,
    extension: bool,
    csrcCount: nat,
    payloadType: nat,
    sequenceNumber: nat,
    timestamp: nat,
    ssrc: nat)

  function Bit(b: bool): nat
  {
    if b then 1 else 0
  }

  /** The fields byte 0 splits into put it back together. */
  lemma FirstByteFields(b: byte)
    ensures b == 64 * ((b / 64) % 4) + 32 * Bit((b / 32) % 2 == 1) + 16 * Bit((b / 16) % 2 == 1) + b % 16
  {
  }

  /** The header parseRtpHeader reads from the first 12 bytes. The shifts
      and masks of the source are written as division and remainder, which
      agree with them on bytes. */
  function DecodeFields(msg: seq<byte>): RtpPacketHeader
    requires |msg| >= RtpHeaderSize
  {
    RtpPacketHeader(
      version := (msg[0] / 64) % 4,
      padding := (msg[0] / 32) % 2 == 1,
      extension := (msg[0] / 16) % 2 == 1,
      csrcCount := msg[0] % 16,
      payloadType := msg[1] % 128,
      sequenceNumber := FromBE(msg[2..4]),
      timestamp := FromBE(msg[4..8]),
      ssrc := FromBE(msg[8..12]))
  }

  /** The decoded fields account for every header bit but the marker. */
  lemma DecodeFieldsExact(msg: seq<byte>)
    requires |msg| >= RtpHeaderSize
    ensures var h := DecodeFields(msg);
      && h.version < 4 && h.csrcCount < 16 && h.payloadType < 128
      && msg[0] == 64 * h.version + 32 * Bit(h.padding) + 16 * Bit(h.extension) + h.csrcCount
      && (msg[1] == h.payloadType || msg[1] == 128 + h.payloadType)
      && h.sequenceNumber < 0x1_0000 && BE(h.sequenceNumber, 2) == msg[2..4]
      && h.timestamp < U32Limit && BE(h.timestamp, 4) == msg[4..8]
      && h.ssrc < U32Limit && BE(h.ssrc, 4) == msg[8..12]
  {
    FirstByteFields(msg[0]);
    Pow256Widths();
    BEOfFromBE(msg[2..4]);
    BEOfFromBE(msg[4..8]);
    BEOfFromBE(msg[8..12]);
  }

  /** parseRtpHeader. Byte 0 holds the version (two top bits), the padding and
      extension flags and the CSRC count (low four bits); byte 1 the marker bit,
      which is dropped, and the payload type; then come the big-endian sequence
      number, timestamp and SSRC. Node's readUInt16BE / readUInt32BE throw when
      the message is shorter than 12 bytes, which is the failure here. */
  function ParseRtpHeader(msg: seq<byte>): (r: Result<RtpPacketHeader, Failure>)
    ensures r.Failure? <==> |msg| < RtpHeaderSize
    ensures r.Failure? ==> r.error == ReadOutOfBounds
    ensures r.Success? ==>
      var h := r.value;
      && h.version < 4 && h.csrcCount < 16 && h.payloadType < 128
      && msg[0] == 64 * h.version + 32 * Bit(h.padding) + 16 * Bit(h.extension) + h.csrcCount
      && (msg[1] == h.payloadType || msg[1] == 128 + h.payloadType)
      && h.sequenceNumber < 0x1_0000 && BE(h.sequenceNumber, 2) == msg[2..4]
      && h.timestamp < U32Limit && BE(h.timestamp, 4) == msg[4..8]
      && h.ssrc < U32Limit && BE(h.ssrc, 4) == msg[8..12]
  {
    if |msg| < RtpHeaderSize then
      Failure(ReadOutOfBounds)
    else
      DecodeFieldsExact(msg);
      Success(DecodeFields(msg))
  }

  /** Whether handleMessage gets past the header and the swap. */
  predicate Accepted(msg: seq<byte>, swap16: bool)
  {
    |msg| >= RtpHeaderSize && (swap16 ==> (|msg| - RtpHeaderSize) % 2 == 0)
  }

  /** The audio handleMessage takes from a datagram: everything after the
      RTP header, with every byte pair exchanged when swap16 is set. */
  function Payload(msg: seq<byte>, swap16: bool): (p: seq<byte>)
    requires Accepted(msg, swap16)
    ensures |p| == |msg| - RtpHeaderSize
    ensures !swap16 ==> p == msg[RtpHeaderSize..]
    ensures swap16 ==> Swapped(p) == msg[RtpHeaderSize..]
    ensures swap16 ==> forall i :: 0 <= i < |p| / 2 ==>
      p[2 * i] == msg[RtpHeaderSize + 2 * i + 1] && p[2 * i + 1] == msg[RtpHeaderSize + 2 * i]
  {
    if swap16 then
      SwappedInvolution(msg[RtpHeaderSize..]);
      Swapped(msg[RtpHeaderSize..])
    else
      msg[RtpHeaderSize..]
  }

  /** The file a capture with output leaves once closed: the header it
      started with, sizes patched, followed by every payload in arrival
      order. */
  function FinishedFile(header: seq<byte>, payloads: seq<seq<byte>>): (f: seq<byte>)
    requires |header| == HeaderSize && |Flatten(payloads)| + 36 < U32Limit
  {
    WithSizes(header, |Flatten(payloads)|) + Flatten(payloads)
  }

  /** A finished file is a well-formed WAV file: its sizes are those of the
      audio that follows the 44-byte header, the audio is the payloads in
      arrival order, and the rest of the header is what create() wrote. */
  lemma FinishedFileLayout(c: seq<byte>, payloads: seq<seq<byte>>)
    requires |c| == HeaderSize && |Flatten(payloads)| + 36 < U32Limit
    ensures var f := FinishedFile(c, payloads);
      var audio := Flatten(payloads);
      && |f| == HeaderSize + |audio|
      && U32LE(f, 4) == |audio| + 36
      && U32LE(f, 40) == |audio|
      && f[HeaderSize..] == audio
      && f[..4] == c[..4]
      && f[8..40] == c[8..40]
  {
    var audio := Flatten(payloads);
    var h := WithSizes(c, |audio|);
    WithSizesLayout(c, |audio|);
    var f := FinishedFile(c, payloads);
    assert f[..HeaderSize] == h;
    assert f[4..8] == h[4..8] && f[40..44] == h[40..44];
    assert f[..4] == h[..4] == c[..4];
    assert f[8..40] == h[8..40] == c[8..40];
  }

  class RtpUdpServer {
    const host: string
    const swap16: bool
    var audioOutputPath: Option<string>
    var packetCount: nat
    var dataSize: nat
    /** The WAV header of the output; null when there is no output. */
    var headerBuffer: array?<byte>
    var isRunning: bool
    /** The contents of the output file, as written so far. */
    var file: seq<byte>
    /** The payloads appended to the file, in arrival order. */
    ghost var written: seq<seq<byte>>
    /** The header create() returned, as initializeFileStream wrote it. */
    ghost var createdHeader: seq<byte>

    /** The file is the header followed by every payload written;
        dataSize counts the payload bytes; the header still has its zero
        placeholders while running and carries the final sizes once
        closed. */
    ghost predicate Valid()
      reads this, headerBuffer
    {
      && (headerBuffer == null ==> file == [] && dataSize == 0 && written == [])
      && (headerBuffer != null ==>
            && headerBuffer.Length == HeaderSize && |createdHeader| == HeaderSize
            && audioOutputPath.Some? && EndsWith(audioOutputPath.value, ".wav")
            && file == headerBuffer[..] + Flatten(written)
            && dataSize == |Flatten(written)|
            && if isRunning then headerBuffer[..] == createdHeader
               else dataSize + 36 < U32Limit && headerBuffer[..] == WithSizes(createdHeader, dataSize))
    }

    /** new RtpUdpServer(host, swap16, audioOutputPath): the socket is bound
        (setupServer) and, when a non-empty output path is given,
        initializeFileStream normalises it to end in ".wav" and writes the
        placeholder header as the first 44 bytes of the file. */
    constructor (host: string, swap16: bool, audioOutputPath: Option<string>)
      ensures Valid()
      ensures this.host == host && this.swap16 == swap16
      ensures isRunning && packetCount == 0 && dataSize == 0 && written == []
      ensures headerBuffer != null <==> audioOutputPath.Some? && audioOutputPath.value != ""
      ensures headerBuffer != null ==>
        && fresh(headerBuffer)
        && this.audioOutputPath == Some(WavOutputPath(audioOutputPath.value))
        && file == createdHeader == DefaultCanonicalHeader()
      ensures headerBuffer == null ==> this.audioOutputPath == audioOutputPath && file == []
    {
      this.host := host;
      this.swap16 := swap16;
      this.audioOutputPath := audioOutputPath;
      packetCount, dataSize := 0, 0;
      headerBuffer := null;
      file := [];
      written := [];
      isRunning := true;
      createdHeader := [];
      new;
      InitializeFileStream();
    }

    /** initializeFileStream: only a non-empty path opens an output. */
    method InitializeFileStream()
      requires headerBuffer == null && file == [] && dataSize == 0 && written == [] && isRunning
      modifies this
      ensures Valid()
      ensures isRunning && packetCount == old(packetCount) && dataSize == 0 && written == []
      ensures headerBuffer != null <==> old(audioOutputPath).Some? && old(audioOutputPath).value != ""
      ensures headerBuffer != null ==>
        && fresh(headerBuffer)
        && audioOutputPath == Some(WavOutputPath(old(audioOutputPath).value))
        && file == createdHeader == DefaultCanonicalHeader()
      ensures headerBuffer == null ==> audioOutputPath == old(audioOutputPath) && file == []
    {
      if audioOutputPath.Some? && audioOutputPath.value != "" {
        audioOutputPath := Some(WavOutputPath(audioOutputPath.value));
        var header, format := CreateDefault();
        WriteHeader(header);
      }
    }

    /** Lines 26-27 of initializeFileStream: the buffer create() returned is
        kept as the header and written as the first 44 bytes of the file. */
    method WriteHeader(header: array<byte>)
      requires headerBuffer == null && file == [] && dataSize == 0 && written == [] && isRunning
      requires audioOutputPath.Some? && EndsWith(audioOutputPath.value, ".wav") && header.Length == HeaderSize
      modifies this
      ensures Valid()
      ensures headerBuffer == header && audioOutputPath == old(audioOutputPath)
      ensures isRunning && packetCount == old(packetCount) && dataSize == 0 && written == []
      ensures file == createdHeader == header[..]
    {
      headerBuffer := header;
      createdHeader := header[..];
      file := headerBuffer[..];
      assert Flatten(written) == [];
    }

    /** handleMessage(msg): counts the datagram, decodes and strips the RTP
        header, swaps byte pairs in place when swap16 is set, appends the
        payload to the output if there is one, and returns the payload (the
        "data" event). A datagram shorter than 12 bytes, or one with an odd
        payload length when swap16 is set, makes Node throw after the
        count: the failure, with nothing else changed. */
    method HandleMessage(msg: array<byte>) returns (r: Result<seq<byte>, Failure>)
      requires Valid() && isRunning
      requires msg != headerBuffer
      modifies this, msg
      ensures Valid() && isRunning
      ensures headerBuffer == old(headerBuffer) && audioOutputPath == old(audioOutputPath)
      ensures createdHeader == old(createdHeader)
      ensures packetCount == old(packetCount) + 1
      ensures r.Success? <==> Accepted(old(msg[..]), swap16)
      ensures msg.Length < RtpHeaderSize ==> r == Failure(ReadOutOfBounds)
      ensures msg.Length >= RtpHeaderSize && !Accepted(old(msg[..]), swap16) ==> r == Failure(OddSwapLength)
      ensures r.Failure? ==>
        msg[..] == old(msg[..]) && file == old(file) && dataSize == old(dataSize) && written == old(written)
      ensures r.Success? ==>
        && r.value == Payload(old(msg[..]), swap16)
        && msg[..] == old(msg[..RtpHeaderSize]) + r.value
      ensures r.Success? && headerBuffer != null ==>
        && file == old(file) + r.value
        && dataSize == old(dataSize) + |r.value|
        && written == old(written) + [r.value]
      ensures r.Success? && headerBuffer == null ==>
        file == old(file) && dataSize == old(dataSize) && written == old(written)
    {
      packetCount := packetCount + 1;
      var header := ParseRtpHeader(msg[..]);
      if header.Failure? {
        return Failure(header.error);
      }
      var stripped := StripHeader(msg);
      if stripped.Failure? {
        return Failure(stripped.error);
      }
      var buf := stripped.value;
      WritePayload(buf);
      r := Success(buf);
    }

    /** Lines 73-77 of handleMessage: with an output, the payload goes to the
        end of the file and its length is added to dataSize. */
    method WritePayload(buf: seq<byte>)
      requires Valid() && isRunning
      modifies this
      ensures Valid() && isRunning
      ensures headerBuffer == old(headerBuffer) && audioOutputPath == old(audioOutputPath)
      ensures createdHeader == old(createdHeader) && packetCount == old(packetCount)
      ensures headerBuffer != null ==>
        file == old(file) + buf && dataSize == old(dataSize) + |buf| && written == old(written) + [buf]
      ensures headerBuffer == null ==>
        file == old(file) && dataSize == old(dataSize) && written == old(written)
    {
      if headerBuffer != null {
        FlattenAppend(written, buf);
        file := file + buf;
        dataSize := dataSize + |buf|;
        written := written + [buf];
      }
    }

    /** Lines 67-71 of handleMessage: buf = msg.slice(12) is a view of msg, so
        swap16 exchanges msg's own bytes; a view of odd length makes swap16
        throw before it swaps anything. */
    method StripHeader(msg: array<byte>) returns (r: Result<seq<byte>, Failure>)
      requires msg.Length >= RtpHeaderSize
      modifies msg
      ensures r.Success? <==> Accepted(old(msg[..]), swap16)
      ensures r.Failure? ==> r.error == OddSwapLength && msg[..] == old(msg[..])
      ensures r.Success? ==>
        && r.value == Payload(old(msg[..]), swap16)
        && msg[..] == old(msg[..RtpHeaderSize]) + r.value
    {
      if swap16 {
        if (msg.Length - RtpHeaderSize) % 2 != 0 {
          return Failure(OddSwapLength);
        }
        Swap16(msg, RtpHeaderSize);
      }
      var buf := msg[RtpHeaderSize..];
      assert msg[..] == msg[..RtpHeaderSize] + buf;
      return Success(buf);
    }

    /** close(): a no-op once the server has stopped. The first call patches
        the header's size fields with dataSize and rewrites it over the first
        44 bytes of the file, then stops the server. When dataSize + 36 does
        not fit in 32 bits, writeUInt32LE throws before anything is written
        and the server keeps running. */
    method Close() returns (r: Outcome)
      requires Valid()
      modifies this, headerBuffer
      ensures Valid()
      ensures headerBuffer == old(headerBuffer) && audioOutputPath == old(audioOutputPath)
      ensures createdHeader == old(createdHeader)
      ensures packetCount == old(packetCount) && dataSize == old(dataSize) && written == old(written)
      ensures !old(isRunning) ==>
        && r == Pass && !isRunning && file == old(file)
        && (headerBuffer != null ==> headerBuffer[..] == old(headerBuffer[..]))
      ensures old(isRunning) && headerBuffer == null ==>
        r == Pass && !isRunning && file == old(file)
      ensures old(isRunning) && headerBuffer != null && dataSize + 36 >= U32Limit ==>
        && r == Fail(ValueOutOfRange) && isRunning && file == old(file)
        && headerBuffer[..] == old(headerBuffer[..])
      ensures old(isRunning) && headerBuffer != null && dataSize + 36 < U32Limit ==>
        && r == Pass && !isRunning
        && headerBuffer[..] == WithSizes(old(headerBuffer[..]), dataSize)
        && file == Overwrite(old(file), 0, headerBuffer[..])
        && file == FinishedFile(createdHeader, written)
    {
      if !isRunning {
        return Pass;
      }
      if headerBuffer != null {
        if dataSize + 36 >= U32Limit {
          return Fail(ValueOutOfRange);
        }
        UpdateSizes(headerBuffer, dataSize);
        // fs.writeSync(fd, headerBuffer, 0, 44, 0)
        file := Overwrite(file, 0, headerBuffer[..]);
        assert file == headerBuffer[..] + Flatten(written);
      }
      isRunning := false;
      r := Pass;
    }
  }
}
