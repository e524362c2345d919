/** `Wav16` (src/wav.rs): a view of a WAVE file's bytes past its fixed header, and the
    lazy decoding of that payload into little-endian signed 16-bit samples. */
module Wav {
  import opened Common

  /** Size of the canonical RIFF/WAVE PCM header that `new` skips without looking at it. */
  const HeaderSize: nat := 44

  /** The wrapped payload: every byte of the file after the header. */
  datatype Wav16 = Wav16(payload: seq<Byte>)

  /** What a Rust iterator produces when it is drained: the items it yielded, and whether
      it stopped normally or panicked while producing the next one. */
  datatype Drained<T> = Complete(items: seq<T>) | PanicAfter(items: seq<T>)

  /** `Wav16::new`: `&data[44..]`, which panics (None) when the file is shorter than the header. */
  function New(data: seq<Byte>): (r: Option<Wav16>)
    ensures r.Some? <==> |data| >= HeaderSize
    ensures r.Some? ==> |r.value.payload| == |data| - HeaderSize
  {
    if |data| < HeaderSize then None else Some(Wav16(data[HeaderSize..]))
  }

  /** `i16::from_le_bytes([lo, hi])`: the two's-complement reading of `lo + 256 * hi`. */
  function FromLeBytes(lo: Byte, hi: Byte): (r: I16)
    ensures (r + 0x10000) % 0x10000 == lo + 0x100 * hi
    ensures r >= 0 <==> hi < 0x80
  {
    var u := lo + 0x100 * hi;
    if u < 0x8000 then u else u - 0x10000
  }

  /** `i16::to_le_bytes`: the low byte, then the high byte, of the 16-bit pattern of `x`. */
  function ToLeBytes(x: I16): (bs: seq<Byte>)
    ensures |bs| == 2
    ensures bs[0] as int + 0x100 * bs[1] as int == (x + 0x10000) % 0x10000
  {
    var u := (x + 0x10000) % 0x10000;
    [u % 0x100, u / 0x100]
  }

  lemma LeBytesRoundTrip(x: I16)
    ensures FromLeBytes(ToLeBytes(x)[0], ToLeBytes(x)[1]) == x
  {
  }

  /** Little-endian encoding of a whole sample sequence, the inverse of `Stream`. */
  function Encode(xs: seq<I16>): (bs: seq<Byte>)
    ensures |bs| == 2 * |xs|
  {
    if xs == [] then [] else ToLeBytes(xs[0]) + Encode(xs[1..])
  }

  function Prepend<T>(x: T, d: Drained<T>): Drained<T> {
    match d
    case Complete(items) => Complete([x] + items)
    case PanicAfter(items) => PanicAfter([x] + items)
  }

  /** `(i..len).step_by(2).map(|i| i16::from_le_bytes([p[i], p[i + 1]]))`, drained: one item
      per even offset, and a panic when the pair at the last offset is cut short. */
  function StreamFrom(p: seq<Byte>, i: nat): (r: Drained<I16>)
    ensures |r.items| == if i >= |p| then 0 else (|p| - i) / 2
    ensures r.Complete? <==> i >= |p| || (|p| - i) % 2 == 0
    decreases |p| - i
  {
    if i >= |p| then Complete([])
    else if i + 1 >= |p| then PanicAfter([])
    else Prepend(FromLeBytes(p[i], p[i + 1]), StreamFrom(p, i + 2))
  }

  /** `Wav16::stream`. It only reads the payload, so it is a value of `w`: calling it twice
      on the same `Wav16` gives the same samples. A payload of length `n` yields `n / 2`
      samples, and the iterator finishes normally exactly when `n` is even (for odd `n` the
      final `p[i + 1]` is out of bounds). */
  function Stream(w: Wav16): (r: Drained<I16>)
    ensures |r.items| == |w.payload| / 2
    ensures r.Complete? <==> |w.payload| % 2 == 0
  {
    StreamFrom(w.payload, 0)
  }

  lemma {:induction false} StreamFromShape(p: seq<Byte>, i: nat)
    requires i <= |p| && i % 2 == 0
    ensures forall k :: 0 <= k < (|p| - i) / 2 ==>
      StreamFrom(p, i).items[k] == FromLeBytes(p[i + 2 * k], p[i + 2 * k + 1])
    decreases |p| - i
  {
    if i + 1 < |p| {
      StreamFromShape(p, i + 2);
      var rest := StreamFrom(p, i + 2);
      assert StreamFrom(p, i).items == [FromLeBytes(p[i], p[i + 1])] + rest.items;
      forall k | 0 < k < (|p| - i) / 2
        ensures StreamFrom(p, i).items[k] == FromLeBytes(p[i + 2 * k], p[i + 2 * k + 1])
      {
        assert StreamFrom(p, i).items[k] == rest.items[k - 1];
        assert i + 2 + 2 * (k - 1) == i + 2 * k;
      }
    }
  }

  /** Sample `k` of `stream` is the little-endian reading of bytes `2k` and `2k + 1`. */
  lemma StreamShape(w: Wav16)
    ensures forall k :: 0 <= k < |w.payload| / 2 ==>
      Stream(w).items[k] == FromLeBytes(w.payload[2 * k], w.payload[2 * k + 1])
  {
    StreamFromShape(w.payload, 0);
  }

  /** `new` keeps exactly the bytes after any 44-byte header. */
  lemma NewSkipsHeader(header: seq<Byte>, payload: seq<Byte>)
    requires |header| == HeaderSize
    ensures New(header + payload) == Some(Wav16(payload))
  {
    assert (header + payload)[HeaderSize..] == payload;
  }

  /** Decoding never looks at the header: two files that differ only in their first 44 bytes
      stream the same samples. */
  lemma StreamIgnoresHeader(h1: seq<Byte>, h2: seq<Byte>, payload: seq<Byte>)
    requires |h1| == HeaderSize && |h2| == HeaderSize
    ensures New(h1 + payload).Some? && New(h2 + payload).Some?
    ensures Stream(New(h1 + payload).value) == Stream(New(h2 + payload).value)
  {
    NewSkipsHeader(h1, payload);
    NewSkipsHeader(h2, payload);
  }

  lemma {:induction false} EncodeAt(xs: seq<I16>, k: nat)
    requires k < |xs|
    ensures Encode(xs)[2 * k] == ToLeBytes(xs[k])[0]
    ensures Encode(xs)[2 * k + 1] == ToLeBytes(xs[k])[1]
  {
    if k > 0 {
      EncodeAt(xs[1..], k - 1);
      assert Encode(xs) == ToLeBytes(xs[0]) + Encode(xs[1..]);
    }
  }

  /** Decoding inverts little-endian encoding, and the stream finishes normally. */
  lemma StreamEncode(xs: seq<I16>)
    ensures Stream(Wav16(Encode(xs))) == Complete(xs)
  {
    var w := Wav16(Encode(xs));
    StreamShape(w);
    var items := Stream(w).items;
    forall k | 0 <= k < |xs| ensures items[k] == xs[k] {
      EncodeAt(xs, k);
      LeBytesRoundTrip(xs[k]);
    }
    assert items == xs;
  }

  /** Round trip: samples encoded little-endian after any 44-byte header come back unchanged
      from `new` followed by `stream`. */
  lemma RoundTrip(header: seq<Byte>, xs: seq<I16>)
    requires |header| == HeaderSize
    ensures New(header + Encode(xs)).Some?
    ensures Stream(New(header + Encode(xs)).value) == Complete(xs)
  {
    NewSkipsHeader(header, Encode(xs));
    StreamEncode(xs);
  }
}
