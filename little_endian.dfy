/**
 * The counter file's format: one int64 as 8 bytes, least significant byte
 * first, in two's complement, as `binary.Write` and `binary.Read` with
 * `binary.LittleEndian` produce and consume it.
 */
module LittleEndian {
  import opened Wrappers
  import opened Int64

  /** One octet of the counter file. */
  newtype byte = b: int | 0 <= b < 256

  /** Number of bytes of an encoded int64. */
  const WIDTH: nat := 8

  function Pow256(n: nat): (r: nat)
    ensures r > 0
  {
    if n == 0 then 1 else 256 * Pow256(n - 1)
  }

  /** The `n` low-order bytes of `u`, least significant first. */
  function EncodeUnsigned(u: nat, n: nat): (r: seq<byte>)
    ensures |r| == n
  {
    if n == 0 then [] else [(u % 256) as byte] + EncodeUnsigned(u / 256, n - 1)
  }

  /** The unsigned value of bytes stored least significant first. */
  function DecodeUnsigned(s: seq<byte>): (r: nat)
    ensures r < Pow256(|s|)
  {
    if s == [] then 0 else s[0] as int + 256 * DecodeUnsigned(s[1..])
  }

  /** Splitting off the low byte: `u` is that byte plus 256 times the rest. */
  lemma ByteSplit(u: nat, p: nat)
    requires u < 256 * p
    ensures u == u % 256 + 256 * (u / 256)
    ensures u / 256 < p
  {
  }

  lemma {:induction false} DecodeEncodeUnsigned(u: nat, n: nat)
    requires u < Pow256(n)
    ensures DecodeUnsigned(EncodeUnsigned(u, n)) == u
  {
    if n > 0 {
      var low, high := u % 256, u / 256;
      ByteSplit(u, Pow256(n - 1));
      var t := EncodeUnsigned(high, n - 1);
      var s := [low as byte] + t;
      assert s == EncodeUnsigned(u, n);
      assert s[1..] == t;
      DecodeEncodeUnsigned(high, n - 1);
      calc {
        DecodeUnsigned(s);
        s[0] as int + 256 * DecodeUnsigned(t);
        low + 256 * high;
      }
    }
  }

  /** The low byte and the rest of `b + 256 * rest` for a byte `b`. */
  lemma ByteJoin(b: nat, rest: nat)
    requires b < 256
    ensures (b + 256 * rest) % 256 == b
    ensures (b + 256 * rest) / 256 == rest
  {
  }

  lemma {:induction false} EncodeDecodeUnsigned(s: seq<byte>)
    ensures EncodeUnsigned(DecodeUnsigned(s), |s|) == s
  {
    if s != [] {
      var b := s[0] as int;
      var rest := DecodeUnsigned(s[1..]);
      assert DecodeUnsigned(s) == b + 256 * rest;
      ByteJoin(b, rest);
      EncodeDecodeUnsigned(s[1..]);
      assert (b as byte) == s[0];
      assert EncodeUnsigned(DecodeUnsigned(s), |s|)
          == [(b as byte)] + EncodeUnsigned(rest, |s| - 1);
    }
  }

  /** The unsigned 64-bit pattern of an int64 (two's complement). */
  function ToUnsigned(x: int64): (u: nat)
    ensures u < TWO_TO_THE_64
    ensures (u - x as int) % TWO_TO_THE_64 == 0
  {
    if x < 0 then x as int + TWO_TO_THE_64 else x as int
  }

  /** The int64 whose two's-complement pattern is `u`. */
  function ToSigned(u: nat): (x: int64)
    requires u < TWO_TO_THE_64
    ensures ToUnsigned(x) == u
  {
    if u < TWO_TO_THE_63 then u as int64 else (u - TWO_TO_THE_64) as int64
  }

  lemma Pow256Width()
    ensures Pow256(WIDTH) == TWO_TO_THE_64
  {
  }

  /** binary.Write(buf, binary.LittleEndian, x) for an int64 `x`. */
  function EncodeLE(x: int64): (r: seq<byte>)
    ensures |r| == WIDTH
    ensures DecodeUnsigned(r) == ToUnsigned(x)
  {
    Pow256Width();
    DecodeEncodeUnsigned(ToUnsigned(x), WIDTH);
    EncodeUnsigned(ToUnsigned(x), WIDTH)
  }

  /** The int64 held by exactly 8 little-endian bytes. */
  function DecodeLE(s: seq<byte>): (x: int64)
    requires |s| == WIDTH
    ensures ToUnsigned(x) == DecodeUnsigned(s)
  {
    Pow256Width();
    ToSigned(DecodeUnsigned(s))
  }

  /** Decoding an encoded int64 gives the same value, for every int64. */
  lemma DecodeEncode(x: int64)
    ensures DecodeLE(EncodeLE(x)) == x
  {
    Pow256Width();
    DecodeEncodeUnsigned(ToUnsigned(x), WIDTH);
  }

  /** Every 8-byte sequence is the encoding of the value it decodes to. */
  lemma EncodeDecode(s: seq<byte>)
    requires |s| == WIDTH
    ensures EncodeLE(DecodeLE(s)) == s
  {
    Pow256Width();
    EncodeDecodeUnsigned(s);
  }

  /** The errors `io.ReadFull` reports when fewer bytes than needed are left:
      `EOF` when there were none at all, `UnexpectedEOF` when there were some. */
  datatype ReadError = EOF | UnexpectedEOF

  /** The text `fmt.Print` writes for each read error. */
  function ErrorText(e: ReadError): (t: string)
    ensures t != []
  {
    match e
    case EOF => "EOF"
    case UnexpectedEOF => "unexpected EOF"
  }

  /** binary.Read(bytes.NewReader(content), binary.LittleEndian, &v) for an
      int64 `v`: reads the first 8 bytes, fails when fewer are present. */
  function ReadInt64(content: seq<byte>): (r: Result<int64, ReadError>)
    ensures r.Ok? <==> |content| >= WIDTH
    ensures r.Ok? ==> EncodeLE(r.value) == content[..WIDTH]
    ensures r == Err(EOF) <==> content == []
  {
    if |content| >= WIDTH then
      EncodeDecode(content[..WIDTH]);
      Ok(DecodeLE(content[..WIDTH]))
    else if content == [] then Err(EOF)
    else Err(UnexpectedEOF)
  }

  /** What binary.Write produced, binary.Read reads back, whatever follows it. */
  lemma ReadEncoded(x: int64, rest: seq<byte>)
    ensures ReadInt64(EncodeLE(x) + rest) == Ok(x)
  {
    var content := EncodeLE(x) + rest;
    assert content[..WIDTH] == EncodeLE(x);
    DecodeEncode(x);
  }
}
