# RTP capture and playback for an Asterisk bridge, in Dafny

This project models the three components that do the byte-level work of an
Asterisk external-media helper written in TypeScript. It proves properties
of each model.

- **WAV header builder** (`WavHeader`, `wav_header.dfy`).
  - `create` lays out the canonical 44-byte RIFF/WAVE PCM header in a fresh
    buffer. The layout is a "RIFF" descriptor, a 16-byte "fmt " chunk with
    format code 1, and the header of the "data" chunk. Every integer is
    little-endian, and both size fields are 0.
  - `updateSizes` patches ChunkSize and Subchunk2Size in place.
  - The header is specified by a function (`CanonicalHeader`) and read back
    field by field. The methods fill an `array` write by write, each write
    specified by the Node `Buffer` operation it stands for (`node_buffer.dfy`).
- **RTP capture server** (`RtpServer`, `rtp_server.dfy`).
  - `parseRtpHeader` decodes the 12-byte fixed header of section 5.1 of
    RFC 3550.
  - `RtpUdpServer` is a class. Its fields are the packet and byte counters,
    the header buffer, the running flag and the output file, held as one byte
    sequence.
  - Each datagram is one call of `HandleMessage`. It counts the datagram,
    parses the header, strips it, optionally swaps the bytes of every 16-bit
    pair in place, and appends the payload to the file.
  - `Close` finalises the header's sizes and rewrites the first 44 bytes of
    the file.
  - The invariant `Valid` says that the file is the header followed by every
    payload in arrival order, and that `dataSize` counts the payload bytes.
- **RTP player** (`RtpPlayback`, `rtp_player.dfy`).
  - `createRtpPacket` builds packets from the player's `sequence`,
    `timestamp` and `ssrc`.
  - `playWavFile` cuts the audio after byte 44 of a file into payloads of at
    most `packetSize` bytes. It sends them one after the other until the file
    is used up or a packet cannot be built or sent.
  - The callback chain is a loop over `offset`. It is proved against `Play`,
    a recursive definition of the whole playback. The properties of the
    playback are proved about `Play`: which packets go out, how the playback
    ends, and where the counters stand.
  - The packets round-trip through the capture server's parser.

`common.dfy` holds the shared result and error types and the ".wav"
output-path rule. `bytes.dfy` holds the little- and big-endian encodings and
their round trips.

Places where the code is followed rather than the usual design:

- The RTP sequence number is never wrapped. RFC 3550 has it count modulo
  2^16, but `writeUInt16BE` throws once it reaches 65536. The model fails
  with `ValueOutOfRange` there.
- The same holds for the timestamp beyond 0xffffffff.
- The timestamp grows by half the payload length. That is a fraction for an
  odd-length payload, and `writeUInt32BE` writes the integer part. The player
  therefore keeps twice the timestamp, which is always a whole number.
- `create` does not require whole-byte samples. The byte rate and block align
  are the integer parts of the exact quotients, as the `writeUInt` calls
  store them. `WholeByteSamples` gives the usual identities when
  bitsPerSample is a multiple of 8.
- The payload type is always 0 and there is no length check before parsing.
  A datagram shorter than 12 bytes makes `readUInt16BE`/`readUInt32BE`
  throw, after `packetCount` has been incremented.

## Model

| member | source | states |
|---|---|---|
| Common.WavOutputPath | src/services/rtp-server.ts:24 | the output path always ends in ".wav"; a path that already does is kept, any other gets ".wav" appended |
| Common.WavOutputPathIdempotent | src/services/rtp-player.ts:80 | normalising a normalised path changes nothing |
| Bytes.FromLEOfLE | src/utils/wav-header.ts:15-34 | reading back a little-endian field gives the value written |
| Bytes.FromBEOfBE | src/services/rtp-player.ts:28-33 | reading back a big-endian field gives the value written |
| Bytes.BEOfFromBE | src/services/rtp-server.ts:89-91 | the value read from big-endian bytes re-encodes to the same bytes |
| NodeBuffer.WriteUIntLE | src/utils/wav-header.ts:20-23 | writeUIntLE puts the value's bytes, least significant first, at the offset and changes no other byte |
| NodeBuffer.WriteUIntBE | src/services/rtp-player.ts:28-33 | writeUIntBE puts the value's bytes, most significant first, at the offset and changes no other byte |
| NodeBuffer.CopyInto | src/services/rtp-player.ts:36 | copy places the source at targetStart and changes no other byte |
| NodeBuffer.Swapped | src/services/rtp-server.ts:69 | the swapped bytes have out[2i] = in[2i+1] and out[2i+1] = in[2i] for every pair |
| NodeBuffer.SwappedInvolution | src/services/rtp-server.ts:69 | swapping twice gives back the original bytes |
| NodeBuffer.Swap16 | src/services/rtp-server.ts:67-71 | swap16 on the view after the header exchanges every pair in place and leaves the header bytes as they were |
| WavHeader.WriteString | src/utils/wav-header.ts:4-8 | writeString writes character i at offset + i and touches nothing else |
| WavHeader.WriteFields | src/utils/wav-header.ts:11-34 | the successive writes of create turn a 44-byte buffer into the header laid out from the field values |
| WavHeader.Create | src/utils/wav-header.ts:10-37 | create returns a fresh buffer holding exactly the canonical 44-byte header of the defaulted options, and fails with a range error exactly when a field does not fit its width |
| WavHeader.CreateDefault | src/utils/wav-header.ts:10 | create with no options always succeeds, with the 16000 Hz mono 16-bit header |
| WavHeader.HeaderLayout | src/utils/wav-header.ts:13-34 | the tags "RIFF", "WAVE", "fmt ", "data" are at bytes 0, 8, 12, 36; chunk size 16 at 16, format 1 at 20, every field reads back little-endian at its offset; both sizes are 0 |
| WavHeader.CanonicalHeaderLayout | src/utils/wav-header.ts:20-30 | channels, sample rate and sample width read back as given; the byte rate at 28 is rate·channels·bits/8 and block align at 32 is channels·bits/8, truncated |
| WavHeader.HeaderOfInjective | src/utils/wav-header.ts:20-30 | two headers are equal exactly when their field values are |
| WavHeader.WholeByteSamples | src/utils/wav-header.ts:25-29 | for whole-byte samples, block align is channels·(bits/8) and the byte rate is rate·block align |
| WavHeader.DefaultHeader | src/utils/wav-header.ts:10-30 | with no options: 1 channel, 16000 Hz, byte rate 32000, block align 2, 16 bits |
| WavHeader.WithSizesLayout | src/utils/wav-header.ts:39-42 | after the size update, bytes 4-7 read dataSize + 36 and bytes 40-43 read dataSize; every other byte is unchanged |
| WavHeader.WithSizesLastWriteWins | src/utils/wav-header.ts:39-42 | updating with d1 then d2 equals updating with d2, so updating twice with the same size is idempotent |
| WavHeader.UpdateSizes | src/utils/wav-header.ts:39-42 | updateSizes changes the caller's buffer in place to the header with both sizes patched |
| WavHeader.FinalizedHeader | src/utils/wav-header.ts:39-42 | a created header with its sizes patched reads back the two sizes and keeps every other field as created |
| RtpServer.FirstByteFields | src/services/rtp-server.ts:84-87 | version, padding, extension and CSRC count put byte 0 back together |
| RtpServer.DecodeFieldsExact | src/services/rtp-server.ts:84-91 | each decoded field is bounded by its bit width, byte 0 and byte 1 (up to the marker) are recovered from the fields, and the sequence number, timestamp and SSRC re-encode big-endian to bytes 2-3, 4-7 and 8-11 |
| RtpServer.ParseRtpHeader | src/services/rtp-server.ts:82-93 | parsing fails with a read past the end exactly when the message is shorter than 12 bytes; otherwise the decoded header has the properties above |
| RtpServer.Payload | src/services/rtp-server.ts:67-71 | the emitted payload is the message after byte 12, unchanged without swap16 and pair-swapped with it |
| RtpServer.FinishedFileLayout | src/services/rtp-server.ts:112-118 | a closed capture file has ChunkSize = audio + 36 and Subchunk2Size = audio length, its audio is the payloads in arrival order, and the rest of the header is as created |
| RtpServer.RtpUdpServer.constructor | src/services/rtp-server.ts:15-20 | a new server is running with zero counters; it has an output exactly when a non-empty path was given, and then the file holds the default header and the path ends in ".wav" |
| RtpServer.RtpUdpServer.InitializeFileStream | src/services/rtp-server.ts:22-29 | only a non-empty path opens an output; the path is normalised and the default header becomes the first 44 bytes of the file |
| RtpServer.RtpUdpServer.WriteHeader | src/services/rtp-server.ts:26-27 | the created header is kept as the header buffer and is the whole file so far |
| RtpServer.RtpUdpServer.HandleMessage | src/services/rtp-server.ts:56-80 | packetCount grows by exactly 1 before parsing; a message that is too short or has an odd payload under swap16 fails with nothing else changed; otherwise the payload is returned, appended to the file and added to dataSize when there is an output, and nothing is written without one |
| RtpServer.RtpUdpServer.WritePayload | src/services/rtp-server.ts:73-77 | with an output the payload goes to the end of the file and dataSize grows by its length; without one nothing changes |
| RtpServer.RtpUdpServer.StripHeader | src/services/rtp-server.ts:67-71 | the payload is the message after its header, swapped in place in the message's own bytes when swap16 is set; an odd-length view fails before anything is swapped |
| RtpServer.RtpUdpServer.Close | src/services/rtp-server.ts:109-126 | close is a no-op once stopped; the first close with output patches the header's sizes, rewrites file bytes 0-43 with it and leaves the rest of the file, making it the finished file; then the server stops |
| RtpPlayback.RtpPacketSlices | src/services/rtp-player.ts:19-36 | a built packet has byte 0 = 0x80, byte 1 = 0x00, the big-endian sequence number, timestamp and SSRC at 2, 4 and 8, and the payload verbatim from byte 12 |
| RtpPlayback.PacketParses | src/services/rtp-player.ts:18-37 | the server parses a built packet as version 2, no padding, no extension, no CSRC, payload type 0, and the sequence number, timestamp and SSRC it was built from |
| RtpPlayback.PacketPayload | src/services/rtp-player.ts:36 | stripping the header of a built packet gives back the payload; with swap16 the server accepts it exactly when its length is even and then gets the pair-swapped payload |
| RtpPlayback.WavBody | src/services/rtp-player.ts:44 | the audio sent is everything after the 44-byte header, and nothing for a file of 44 bytes or less |
| RtpPlayback.Chunks | src/services/rtp-player.ts:53-55 | the payloads concatenate to the audio, each has at most packetSize bytes, and every one but the last has exactly packetSize |
| RtpPlayback.ChunksCount | src/services/rtp-player.ts:47-55 | the number of payloads is the audio length divided by packetSize, rounded up |
| RtpPlayback.TimestampStep | src/services/rtp-player.ts:31 | each packet adds half its payload length to the timestamp |
| RtpPlayback.FreshPlayerTimestamp | src/services/rtp-player.ts:30-31 | a fresh player stamps packet k with k·packetSize/2 |
| RtpPlayback.PlayContinues | src/services/rtp-player.ts:46-69 | from any point of a playback, the packets sent are the packets of the next payloads, up to the first one that cannot be built or sent; that one decides the failure, and the counters and the socket state are determined |
| RtpPlayback.PlaybackOutcome | src/services/rtp-player.ts:40-76 | the packets sent are the packets of the first payloads in order; the playback resolves exactly when every payload went out on an open socket; otherwise the first unbuildable packet, closed socket or failed send names the error and no later payload is sent |
| RtpPlayback.DefaultPacketSizePlayback | src/services/rtp-player.ts:40 | with the default packet size of 160, every payload but the last has 160 bytes, and packet k of a fresh player parses with sequence number k and timestamp 80·k |
| RtpPlayback.FreshPlaybackRoundTrip | src/services/rtp-player.ts:18-37 | every packet a fresh player sends parses as packet k with timestamp k·packetSize/2 and the player's SSRC, and carries payload k of the audio |
| RtpPlayback.ConvertToWav | src/services/rtp-player.ts:78-90 | the conversion resolves to the normalised ".wav" path exactly when ffmpeg succeeds, and rejects otherwise |
| RtpPlayback.ConversionFormatIsDefault | src/services/rtp-player.ts:84 | the format ffmpeg writes, 16000 Hz mono 16-bit, is the format of create's default header |
| RtpPlayback.RtpPlayer.constructor | src/services/rtp-player.ts:8-16 | a new player starts at sequence 0 and timestamp 0 with an open socket and an SSRC below 0xffffffff |
| RtpPlayback.RtpPlayer.CreateRtpPacket | src/services/rtp-player.ts:18-38 | the sequence number always advances by 1; the packet is built from the pre-increment sequence number and the timestamp, and then the timestamp grows by half the payload length; an out-of-range sequence number or timestamp fails with a range error and leaves the timestamp |
| RtpPlayback.RtpPlayer.WriteSequence | src/services/rtp-player.ts:28 | the sequence number is written big-endian at bytes 2-3 |
| RtpPlayback.RtpPlayer.WriteStamp | src/services/rtp-player.ts:30-36 | after the timestamp, SSRC and payload writes the buffer is exactly the packet |
| RtpPlayback.RtpPlayer.SendNextPacket | src/services/rtp-player.ts:53-63 | a step sends the packet of its payload exactly when it can be built and the socket is open and the send succeeds; otherwise it names the error; a failed send closes the socket |
| RtpPlayback.RtpPlayer.PlayWavFile | src/services/rtp-player.ts:40-76 | the packets sent, the outcome, the new counters and the socket state are exactly those of the playback of the file's payloads |

## Left out

- The UDP sockets are not modelled: `dgram` creation, `bind`, the
  `listening` and `error` events, and the emitted `data` and `close` events.
  A received datagram is a call of `HandleMessage`, and a send is one step
  of the playback loop.
- `setupServer` is reduced to setting `isRunning`. The host string is kept
  but not split into address and port.
- The 20 ms `setTimeout` pacing between packets is not modelled. The model
  is one loop with the packets in the order they go out.
- The `fs` write stream is not modelled, nor its race with the synchronous
  header rewrite in `close`. The file is one byte sequence updated in
  program order.
- `fs.readFileSync` is not modelled. `PlayWavFile` takes the file's bytes,
  so a missing file is not modelled.
- `Math.random` is not modelled. The SSRC is a constructor parameter.
- The ffmpeg `exec` is not modelled. `ConvertToWav` takes whether it
  succeeded as a parameter.
- Console logging, including `logRtpHeader`, is left out.
- `src/services/ari-server.ts`, `src/index.ts`, `src/config/config.ts` and
  the interface files are not part of this model. `RtpPacketHeader` is
  reused as a datatype.
- RtpPlayback.RtpPlayer.PlayWavFile: send errors are modelled by the index
  `failAt` of the one send whose callback reports an error, not by
  arbitrary I/O.
- RtpPlayback.RtpPlayer.PlayWavFile: `requires packetSize > 0`. With a packet
  size of 0 and audio after byte 44, the code sends empty 12-byte packets
  without advancing `offset` until the sequence number reaches 65536, and
  then `writeUInt16BE` throws an uncaught RangeError in a timer callback.
  Without audio after byte 44 it resolves at once. Neither case is modelled.
- RtpPlayback.RtpPlayer.PlayWavFile: a range error from `createRtpPacket`
  ends the playback as a `ValueOutOfRange` outcome. In the code, such an
  error inside a timer callback is an uncaught exception and the promise
  never settles.
- RtpPlayback.RtpPlayer.PlayWavFile: the sequence number and timestamp do
  not wrap, as RFC 3550 would have them; the model follows the code, which
  throws.
- RtpServer.RtpUdpServer.HandleMessage: `requires isRunning`, because a
  closed socket delivers no more datagrams.
- RtpServer.RtpUdpServer.HandleMessage: a datagram shorter than 12 bytes,
  or an odd-length payload under swap16, makes Node throw inside the
  socket's `message` listener. Nothing catches it, so the process exits,
  `close` never runs, and the file keeps its zero sizes. The model only
  returns the failure: the server stays valid and running, and it can take
  more datagrams and close normally. The crash is not modelled.
- WavHeader.UpdateSizes: `requires dataSize + 36 < 2^32`. The range error
  `writeUInt32LE` raises otherwise is modelled in
  `RtpServer.RtpUdpServer.Close`, its only caller, where nothing is written
  and the server keeps running.
- WavHeader.Create: options are whole numbers. A fractional or negative
  option is not modelled.
