/** Bytes, buffers and the two byte-moving primitives the SOCKS5 front-end relies
    on: Go's built-in `copy` into a slice, and a `conn.Read` into a zero-filled
    buffer whose returned byte count is ignored. */
module Wire {

  /** Go's `byte`. */
  type Byte = b: int | 0 <= b < 256

  /** A 4-byte IPv4 address, most significant byte first (Go's `net.IP` of length 4). */
  type IPv4 = s: seq<Byte> | |s| == 4 witness [0, 0, 0, 0]

  /** A TCP port, as an unsigned 16-bit value. */
  type Port = p: int | 0 <= p < 0x1_0000

  datatype Option<T> = None | Some(value: T)

  /** What one `conn.Read(buff)` delivers: an error, or the bytes that arrived.
      Only the first `len(buff)` of them end up in the buffer. */
  datatype ReadResult = ReadError | ReadBytes(bytes: seq<Byte>)

  function Min(a: int, b: int): (m: int)
    ensures m <= a && m <= b && (m == a || m == b)
  {
    if a <= b then a else b
  }

  /** A buffer as `make([]byte, n)` allocates it. */
  function Zeros(n: nat): (z: seq<Byte>)
    ensures |z| == n
    ensures forall i :: 0 <= i < n ==> z[i] == 0
  {
    seq(n, _ => 0)
  }

  /** The number of bytes `copy(dst[lo:hi], src)` moves. */
  function CopyCount(lo: nat, hi: nat, src: seq<Byte>): (n: nat)
    requires lo <= hi
    ensures n <= hi - lo && n <= |src|
    ensures n == hi - lo || n == |src|
  {
    Min(hi - lo, |src|)
  }

  /** `dst` after `copy(dst[lo:hi], src)`: the first bytes of `src` overwrite the
      window `lo..hi` from its start, as many as fit in the window and in `src`;
      everything else keeps its value. */
  function Copied(dst: seq<Byte>, lo: nat, hi: nat, src: seq<Byte>): (r: seq<Byte>)
    requires lo <= hi <= |dst|
    ensures |r| == |dst|
    ensures forall i :: 0 <= i < |r| ==>
              r[i] == if lo <= i < lo + CopyCount(lo, hi, src) then src[i - lo] else dst[i]
  {
    var n := CopyCount(lo, hi, src);
    dst[..lo] + src[..n] + dst[lo + n..]
  }

  /** The contents of a `size`-byte buffer, allocated zero-filled, after one read
      with outcome `read`: received bytes from position 0, zeros after them. */
  function Received(size: nat, read: ReadResult): (buff: seq<Byte>)
    ensures |buff| == size
    ensures forall i :: 0 <= i < size ==>
              buff[i] == if read.ReadBytes? && i < |read.bytes| then read.bytes[i] else 0
  {
    match read
    case ReadError => Zeros(size)
    case ReadBytes(bytes) => Copied(Zeros(size), 0, size, bytes)
  }

  /** Go's `copy(dst[lo:hi], src)`, byte by byte. */
  method Copy(dst: array<Byte>, lo: nat, hi: nat, src: seq<Byte>) returns (n: nat)
    requires lo <= hi <= dst.Length
    modifies dst
    ensures n == CopyCount(lo, hi, src)
    ensures dst[..] == Copied(old(dst[..]), lo, hi, src)
  {
    n := CopyCount(lo, hi, src);
    var i := 0;
    while i < n
      invariant 0 <= i <= n
      invariant forall k :: 0 <= k < dst.Length ==>
                  dst[k] == if lo <= k < lo + i then src[k - lo] else old(dst[k])
    {
      dst[lo + i] := src[i];
      i := i + 1;
    }
  }

  /** Allocating a zero-filled buffer and reading into it once; the byte count
      the read returns is discarded, so positions it did not reach stay 0. */
  method ReadInto(size: nat, read: ReadResult) returns (buff: array<Byte>, failed: bool)
    ensures fresh(buff)
    ensures failed <==> read.ReadError?
    ensures buff[..] == Received(size, read)
  {
    buff := new Byte[size](_ => 0);
    failed := read.ReadError?;
    if !failed {
      var _ := Copy(buff, 0, size, read.bytes);
    }
  }

  /** The first `n` received bytes are the buffer's first `n` positions. */
  lemma ReceivedPrefix(size: nat, bytes: seq<Byte>, n: nat)
    requires n <= size && n <= |bytes|
    ensures Received(size, ReadBytes(bytes))[..n] == bytes[..n]
  {
  }

  /** Bytes past the end of the buffer are left for a later read. */
  lemma ReceivedIgnoresOverflow(size: nat, bytes: seq<Byte>)
    requires size <= |bytes|
    ensures Received(size, ReadBytes(bytes)) == Received(size, ReadBytes(bytes[..size]))
  {
  }

  /** Because the byte count is ignored, a read of `bytes` cannot be told apart
      from a read of `bytes` followed by zero bytes. */
  lemma ReceivedIgnoresTrailingZeros(size: nat, bytes: seq<Byte>, k: nat)
    ensures Received(size, ReadBytes(bytes)) == Received(size, ReadBytes(bytes + Zeros(k)))
  {
  }
}
