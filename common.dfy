/** Shared vocabulary: optional values, results, the errors that Node's
    Buffer, dgram and child_process APIs raise on the paths this model
    follows, and the output-path rule of the capture server and the player. */
module Common {

  datatype Option<+T> = None | Some(value: T)

  datatype Result<+T, +E> = Success(value: T) | Failure(error: E)

  /** The end of an operation that returns nothing but may fail. */
  datatype Outcome = Pass | Fail(error: Failure)

  /** The exceptions the core can run into. Node raises each of them as a
      thrown error; the model returns them. */
  datatype Failure =
    | ReadOutOfBounds     // readUInt16BE / readUInt32BE past the end of a buffer
    | ValueOutOfRange     // writeUInt16BE / writeUInt32BE / writeUInt32LE of a value that does not fit
    | OddSwapLength       // swap16 on a buffer whose length is not a multiple of 2
    | SendFailed          // the error passed to a dgram send callback
    | SocketNotRunning    // dgram send or close on a socket that is already closed
    | ConversionFailed    // the error ffmpeg's exec rejects with

  /** All the byte strings of ss, one after the other. */
  function Flatten<T>(ss: seq<seq<T>>): (r: seq<T>)
  {
    if ss == [] then [] else ss[0] + Flatten(ss[1..])
  }

  /** Appending one more part at the end appends its bytes at the end. */
  lemma {:induction false} FlattenAppend<T>(ss: seq<seq<T>>, x: seq<T>)
    ensures Flatten(ss + [x]) == Flatten(ss) + x
  {
    if ss == [] {
      assert [x][1..] == [];
    } else {
      assert (ss + [x])[1..] == ss[1..] + [x];
      FlattenAppend(ss[1..], x);
    }
  }

  /** JavaScript's String.prototype.endsWith. */
  predicate EndsWith(s: string, suffix: string)
  {
    |suffix| <= |s| && s[|s| - |suffix|..] == suffix
  }

  /** The path a recording or a conversion is written to: the configured path,
      with ".wav" added unless it already ends that way. */
  function WavOutputPath(path: string): (r: string)
    ensures EndsWith(r, ".wav")
    ensures EndsWith(path, ".wav") ==> r == path
    ensures !EndsWith(path, ".wav") ==> r == path + ".wav"
  {
    if EndsWith(path, ".wav") then path
    else
      assert EndsWith(path + ".wav", ".wav");
      path + ".wav"
  }

  /** Normalising twice gives the same path as normalising once. */
  lemma WavOutputPathIdempotent(path: string)
    ensures WavOutputPath(WavOutputPath(path)) == WavOutputPath(path)
  {
  }
}
