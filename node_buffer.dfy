/** The parts of Node's Buffer that the core relies on, over `array<byte>`:
    fixed-width integer writes, copying one buffer into another and the
    in-place 16-bit byte swap. Each write is specified by `Overwrite`, the
    value the whole buffer has afterwards. */
module NodeBuffer {
  import opened Bytes

  /** s with b written over it from offset off on; every other byte as in s. */
  function Overwrite(s: seq<byte>, off: nat, b: seq<byte>): (r: seq<byte>)
    requires off + |b| <= |s|
    ensures |r| == |s|
    ensures r[off..off + |b|] == b
  {
    s[..off] + b + s[off + |b|..]
  }

  /** Outside the written range an overwrite leaves every byte as it was. */
  lemma OverwriteElsewhere(s: seq<byte>, off: nat, b: seq<byte>)
    requires off + |b| <= |s|
    ensures forall i :: 0 <= i < |s| && !(off <= i < off + |b|) ==> Overwrite(s, off, b)[i] == s[i]
  {
  }

  /** Writing at e the bytes that c holds at e, over a buffer that already
      agrees with c below e, makes it agree with c below e + |b|. */
  lemma OverwritePrefix(s: seq<byte>, c: seq<byte>, e: nat, b: seq<byte>)
    requires e + |b| <= |s| && e + |b| <= |c|
    requires s[..e] == c[..e] && c[e..e + |b|] == b
    ensures Overwrite(s, e, b)[..e + |b|] == c[..e + |b|]
  {
    var r := Overwrite(s, e, b);
    assert r[..e + |b|] == r[..e] + r[e..e + |b|];
    assert c[..e + |b|] == c[..e] + c[e..e + |b|];
  }

  /** One more byte written just after an overwritten range extends it. */
  lemma OverwriteExtend(s: seq<byte>, off: nat, b: seq<byte>, v: byte)
    requires off + |b| < |s|
    ensures Overwrite(s, off, b)[off + |b| := v] == Overwrite(s, off, b + [v])
  {
    assert s[off + |b|..] == [s[off + |b|]] + s[off + |b| + 1..];
  }

  /** One more byte written just before an overwritten range extends it. */
  lemma OverwritePrepend(s: seq<byte>, off: nat, b: seq<byte>, v: byte)
    requires off + 1 + |b| <= |s|
    ensures Overwrite(s, off + 1, b)[off := v] == Overwrite(s, off, [v] + b)
  {
    assert s[..off + 1] == s[..off] + [s[off]];
  }

  /** Peeling the low byte off the value still to be written. */
  lemma LEStep(enc: seq<byte>, i: nat, x: nat, n: nat)
    requires i < n && x < Pow256(n - i) && |enc| == n
    requires enc[i..] == LE(x, n - i)
    ensures x / 256 < Pow256(n - i - 1)
    ensures enc[i] == x % 256 && enc[i + 1..] == LE(x / 256, n - i - 1)
  {
    assert enc[i + 1..] == enc[i..][1..];
  }

  /** buf.writeUIntLE(value, offset, byteLength): the bytes of value, least
      significant first, at offset. */
  method WriteUIntLE(buf: array<byte>, value: nat, offset: nat, byteLength: nat)
    requires offset + byteLength <= buf.Length
    requires value < Pow256(byteLength)
    modifies buf
    ensures buf[..] == Overwrite(old(buf[..]), offset, LE(value, byteLength))
  {
    ghost var enc := LE(value, byteLength);
    var x: nat, i := value, 0;
    while i < byteLength
      invariant 0 <= i <= byteLength
      invariant x < Pow256(byteLength - i) && enc[i..] == LE(x, byteLength - i)
      invariant buf[..] == Overwrite(old(buf[..]), offset, enc[..i])
    {
      LEStep(enc, i, x, byteLength);
      assert enc[..i + 1] == enc[..i] + [enc[i]];
      OverwriteExtend(old(buf[..]), offset, enc[..i], x % 256);
      buf[offset + i] := x % 256;
      x, i := x / 256, i + 1;
    }
    assert enc[..i] == enc;
  }

  /** Peeling the low byte off the value still to be written, which goes
      last, and writing it just before the bytes already written. */
  lemma BEStep(s: seq<byte>, off: nat, enc: seq<byte>, i: nat, x: nat)
    requires 0 < i <= |enc| && off + |enc| <= |s| && x < Pow256(i)
    requires enc[..i] == BE(x, i)
    ensures x / 256 < Pow256(i - 1)
    ensures enc[..i - 1] == BE(x / 256, i - 1)
    ensures Overwrite(s, off + i, enc[i..])[off + (i - 1) := x % 256] == Overwrite(s, off + (i - 1), enc[i - 1..])
  {
    assert enc[..i - 1] == enc[..i][..i - 1];
    assert enc[i - 1] == enc[..i][i - 1];
    assert enc[i - 1..] == [x % 256] + enc[i..];
    OverwritePrepend(s, off + (i - 1), enc[i..], x % 256);
  }

  /** buf.writeUIntBE(value, offset, byteLength): the bytes of value, most
      significant first, at offset. The field is filled from its last byte
      backwards, as Node does for 4-byte fields; the order is not observable. */
  method WriteUIntBE(buf: array<byte>, value: nat, offset: nat, byteLength: nat)
    requires offset + byteLength <= buf.Length
    requires value < Pow256(byteLength)
    modifies buf
    ensures buf[..] == Overwrite(old(buf[..]), offset, BE(value, byteLength))
  {
    ghost var enc := BE(value, byteLength);
    var x: nat, i := value, byteLength;
    while i > 0
      invariant 0 <= i <= byteLength
      invariant x < Pow256(i) && enc[..i] == BE(x, i)
      invariant buf[..] == Overwrite(old(buf[..]), offset + i, enc[i..])
    {
      BEStep(old(buf[..]), offset, enc, i, x);
      buf[offset + (i - 1)] := x % 256;
      x, i := x / 256, i - 1;
    }
  }

  /** source.copy(target, targetStart), for a source that fits. */
  method CopyInto(source: seq<byte>, target: array<byte>, targetStart: nat)
    requires targetStart + |source| <= target.Length
    modifies target
    ensures target[..] == Overwrite(old(target[..]), targetStart, source)
  {
    var i := 0;
    while i < |source|
      invariant 0 <= i <= |source|
      invariant target[..] == Overwrite(old(target[..]), targetStart, source[..i])
    {
      assert source[..i + 1] == source[..i] + [source[i]];
      OverwriteExtend(old(target[..]), targetStart, source[..i], source[i]);
      target[targetStart + i] := source[i];
      i := i + 1;
    }
    assert source[..i] == source;
  }

  /** Every adjacent pair of bytes exchanged: what swap16 leaves in a buffer. */
  function Swapped(s: seq<byte>): (r: seq<byte>)
    requires |s| % 2 == 0
    ensures |r| == |s|
    ensures forall i :: 0 <= i < |s| / 2 ==> r[2 * i] == s[2 * i + 1] && r[2 * i + 1] == s[2 * i]
  {
    if s == [] then []
    else
      var rest := Swapped(s[2..]);
      var r := [s[1], s[0]] + rest;
      assert forall i :: 1 <= i < |s| / 2 ==> r[2 * i] == s[2 * i + 1] && r[2 * i + 1] == s[2 * i] by {
        forall i | 1 <= i < |s| / 2 ensures r[2 * i] == s[2 * i + 1] && r[2 * i + 1] == s[2 * i] {
          var j := i - 1;
          assert rest[2 * j] == s[2..][2 * j + 1] && rest[2 * j + 1] == s[2..][2 * j];
        }
      }
      r
  }

  /** Swapping twice gives back the original bytes. */
  lemma SwappedInvolution(s: seq<byte>)
    requires |s| % 2 == 0
    ensures Swapped(Swapped(s)) == s
  {
    var r := Swapped(Swapped(s));
    forall k | 0 <= k < |s| ensures r[k] == s[k] {
      var i := k / 2;
      assert k == 2 * i || k == 2 * i + 1;
    }
  }

  /** Exchanges buf[i] and buf[i + 1], leaving every other byte. */
  method SwapPair(buf: array<byte>, i: nat)
    requires i + 1 < buf.Length
    modifies buf
    ensures buf[i] == old(buf[i + 1]) && buf[i + 1] == old(buf[i])
    ensures forall k :: 0 <= k < buf.Length && k != i && k != i + 1 ==> buf[k] == old(buf[k])
  {
    buf[i], buf[i + 1] := buf[i + 1], buf[i];
  }

  /** buf.slice(start).swap16(): exchanges the bytes of every pair in the view
      that starts at start, in place; the bytes before start are untouched. */
  method Swap16(buf: array<byte>, start: nat)
    requires start <= buf.Length && (buf.Length - start) % 2 == 0
    modifies buf
    ensures buf[..] == old(buf[..start]) + Swapped(old(buf[start..]))
  {
    ghost var view := buf[start..];
    var i := start;
    while i < buf.Length
      invariant start <= i <= buf.Length && (i - start) % 2 == 0
      invariant forall k :: 0 <= k < start ==> buf[k] == old(buf[k])
      invariant forall j :: 0 <= j < (i - start) / 2 ==>
                  buf[start + 2 * j] == view[2 * j + 1] && buf[start + 2 * j + 1] == view[2 * j]
      invariant forall k :: i <= k < buf.Length ==> buf[k] == view[k - start]
    {
      SwapPair(buf, i);
      i := i + 2;
    }
    SwappedMatches(old(buf[..start]), view, buf[..]);
  }

  /** A buffer that holds p and then, pair by pair, the bytes of w exchanged
      is p + Swapped(w). */
  lemma SwappedMatches(p: seq<byte>, w: seq<byte>, b: seq<byte>)
    requires |w| % 2 == 0 && |b| == |p| + |w|
    requires forall k :: 0 <= k < |p| ==> b[k] == p[k]
    requires forall j :: 0 <= j < |w| / 2 ==> b[|p| + 2 * j] == w[2 * j + 1] && b[|p| + 2 * j + 1] == w[2 * j]
    ensures b == p + Swapped(w)
  {
    var want := p + Swapped(w);
    forall k | 0 <= k < |b| ensures b[k] == want[k] {
      if k >= |p| {
        var j := (k - |p|) / 2;
        assert k - |p| == 2 * j || k - |p| == 2 * j + 1;
      }
    }
  }
}
