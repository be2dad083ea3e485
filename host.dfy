/** The host side of the dump, dump.py: send `'!'`, read the 4-byte reply
    `'='`, bank count, bank size (16-bit little-endian), reject any other
    reply with exit status 1, then read `bank_num * bank_size` bytes and
    store them unchanged in the output file.

    The serial line is modelled by the bytes the device sends after the
    `'!'`; `ser.read(n)` returns the next `n` of them, or all that are
    left when fewer arrive before the timeout. */
module Host {
  import opened Common

  /** `b'!'`, the request byte. */
  const BANG: byte := 0x21
  /** `ord('=')`, the marker that opens the reply. */
  const EQUALS: byte := 0x3D
  /** The length of the reply, `ser.read(4)`. */
  const HEADER_LEN: nat := 4

  // ---------------------------------------------------------------------
  // Python's `|` and `<<` on non-negative integers.

  function Pow2(n: nat): (p: nat)
    ensures p >= 1
  {
    if n == 0 then 1 else 2 * Pow2(n - 1)
  }

  /** `a | b`, bit by bit from the least significant one. */
  function Or(a: nat, b: nat): (r: nat)
    ensures a <= r && b <= r && r <= a + b
    decreases a + b
  {
    if a == 0 then b
    else if b == 0 then a
    else 2 * Or(a / 2, b / 2) + (if a % 2 == 1 || b % 2 == 1 then 1 else 0)
  }

  /** `x << n`, one doubling per bit. */
  function ShiftLeft(x: nat, n: nat): nat
    decreases n
  {
    if n == 0 then x else ShiftLeft(2 * x, n - 1)
  }

  /** Shifting left by 8 multiplies by 256. */
  lemma ShiftLeftByte(x: nat)
    ensures ShiftLeft(x, 8) == 256 * x
  {
    assert ShiftLeft(x, 8) == ShiftLeft(2 * x, 7) == ShiftLeft(4 * x, 6) == ShiftLeft(8 * x, 5) == ShiftLeft(16 * x, 4);
    assert ShiftLeft(16 * x, 4) == ShiftLeft(32 * x, 3) == ShiftLeft(64 * x, 2) == ShiftLeft(128 * x, 1) == ShiftLeft(256 * x, 0);
  }

  /** `lo | (hi << k)` adds the two when `lo` has no bit at or above `k`. */
  lemma {:induction false} OrDisjoint(lo: nat, hi: nat, k: nat)
    requires lo < Pow2(k)
    ensures Or(lo, hi * Pow2(k)) == lo + hi * Pow2(k)
    decreases k
  {
    var high := hi * Pow2(k);
    if lo == 0 || high == 0 {
    } else {
      assert k > 0;
      var half := hi * Pow2(k - 1);
      assert high == 2 * half;
      assert high / 2 == half && high % 2 == 0;
      OrDisjoint(lo / 2, hi, k - 1);
      assert Or(lo, high) == 2 * (lo / 2 + half) + lo % 2;
    }
  }

  /** `(bytes[2]) | (bytes[3] << 8)`: the 16-bit little-endian value of two
      bytes. */
  function LittleEndian16(lo: byte, hi: byte): (v: nat)
    ensures v == lo as nat + 256 * hi as nat
    ensures v <= UINT16_MAX
  {
    ShiftLeftByte(hi as nat);
    OrDisjoint(lo as nat, hi as nat, 8);
    Or(lo as nat, ShiftLeft(hi as nat, 8))
  }

  // ---------------------------------------------------------------------
  // The reply to `'!'`.

  /** What the reply announces: `bank_num` and `bank_size`. */
  datatype Header = Header(bankNum: byte, bankSize: nat)

  /** Why a reply is refused. `BadMarker`: the first byte is not `'='`
      (the script prints it and calls `exit(1)`); `Truncated`: the reply
      has fewer bytes than the script indexes, so `bytes[i]` raises and
      Python ends with status 1. */
  datatype HeaderError = BadMarker(found: byte) | Truncated

  datatype Result<T, E> = Ok(value: T) | Err(error: E)

  /** `total = bank_num * bank_size`. */
  function Total(h: Header): nat {
    h.bankNum as nat * h.bankSize
  }

  /** With a 16-bit `bank_size`, `total` is at most 255 * 65535. */
  lemma TotalBound(h: Header)
    requires h.bankSize <= UINT16_MAX
    ensures Total(h) <= 255 * UINT16_MAX
  {
    MulMonotone(h.bankNum as nat, h.bankSize, UINT16_MAX);
  }

  lemma {:induction false} MulMonotone(n: nat, size: nat, bound: nat)
    requires size <= bound
    ensures n * size <= n * bound
    decreases n
  {
    if n > 0 {
      MulMonotone(n - 1, size, bound);
      assert n * size == (n - 1) * size + size;
      assert n * bound == (n - 1) * bound + bound;
    }
  }

  /** The checks and decoding of dump.py on the bytes `ser.read(4)`
      returned, in the order the script indexes them. */
  function DecodeHeader(reply: seq<byte>): (r: Result<Header, HeaderError>)
    ensures r.Err? <==> |reply| < HEADER_LEN || reply[0] != EQUALS
    ensures |reply| > 0 && reply[0] != EQUALS ==> r == Err(BadMarker(reply[0]))
    ensures r.Ok? ==> r.value.bankNum == reply[1] &&
                      r.value.bankSize == reply[2] as nat + 256 * reply[3] as nat &&
                      r.value.bankSize <= UINT16_MAX
  {
    if |reply| == 0 then Err(Truncated)
    else if reply[0] != EQUALS then Err(BadMarker(reply[0]))
    else if |reply| < HEADER_LEN then Err(Truncated)
    else Ok(Header(reply[1], LittleEndian16(reply[2], reply[3])))
  }

  /** The reply a device sends for `h`: the encoding `DecodeHeader` reads. */
  function EncodeHeader(h: Header): (reply: seq<byte>)
    requires h.bankSize <= UINT16_MAX
    ensures |reply| == HEADER_LEN && reply[0] == EQUALS && reply[1] == h.bankNum
  {
    [EQUALS, h.bankNum, (h.bankSize % 256) as byte, (h.bankSize / 256) as byte]
  }

  /** Decoding an encoded header gives it back. */
  lemma DecodeEncode(h: Header)
    requires h.bankSize <= UINT16_MAX
    ensures DecodeHeader(EncodeHeader(h)) == Ok(h)
  {
    var reply := EncodeHeader(h);
    assert reply[2] as nat + 256 * reply[3] as nat == h.bankSize;
  }

  /** An accepted reply is the encoding of what it decodes to, followed by
      nothing that is read. */
  lemma EncodeDecode(reply: seq<byte>)
    requires DecodeHeader(reply).Ok?
    ensures EncodeHeader(DecodeHeader(reply).value) == reply[..HEADER_LEN]
  {
    var h := DecodeHeader(reply).value;
    SplitLittleEndian(reply[2] as nat, reply[3] as nat);
    assert EncodeHeader(h) == [reply[0], reply[1], reply[2], reply[3]];
  }

  /** The low and high byte of a 16-bit value are its remainder and
      quotient by 256. */
  lemma SplitLittleEndian(lo: nat, hi: nat)
    requires lo < 256
    ensures (lo + 256 * hi) % 256 == lo && (lo + 256 * hi) / 256 == hi
  {
    var v := lo + 256 * hi;
    assert v == 256 * hi + lo;
  }

  /** The reply a device answering "4 banks of 8 KB" sends. */
  lemma FourBanksOfEightKB()
    ensures DecodeHeader([EQUALS, 4, 0, 0x20]) == Ok(Header(4, 8192))
    ensures Total(Header(4, 8192)) == 32768
  {
  }

  // ---------------------------------------------------------------------
  // A run of the script.

  /** One effect of the script: `ser.write(data)`; `ser.read(n)` and the
      bytes it returned; `outfile.write(data)`; process exit. */
  datatype HostEvent =
    | Send(data: seq<byte>)
    | Read(requested: nat, got: seq<byte>)
    | Store(data: seq<byte>)
    | Exit(status: nat)

  /** `ser.read(n)` on the bytes `line` still to come: the bytes it returns
      and those left after them. */
  function ReadSerial(line: seq<byte>, n: nat): (r: (seq<byte>, seq<byte>))
    ensures |r.0| == if n <= |line| then n else |line|
    ensures r.0 + r.1 == line
  {
    if n <= |line| then (line[..n], line[n..]) else (line, [])
  }

  /** The script from `ser.write(b'!')` on, the device sending `line` in
      answer. */
  function HostRun(line: seq<byte>): seq<HostEvent> {
    var (reply, rest) := ReadSerial(line, HEADER_LEN);
    [Send([BANG]), Read(HEADER_LEN, reply)] +
    match DecodeHeader(reply)
    case Err(_) => [Exit(1)]
    case Ok(h) =>
      var (data, _) := ReadSerial(rest, Total(h));
      [Read(Total(h), data), Store(data), Exit(0)]
  }

  /** The only byte the script sends is one `'!'`, before anything is
      read. */
  lemma RequestBeforeRead(line: seq<byte>)
    ensures var t := HostRun(line);
      |t| >= 3 && t[0] == Send([BANG]) && t[1].Read? &&
      forall i :: 0 < i < |t| ==> !t[i].Send?
  {
  }

  /** The script exits with status 1, storing nothing, exactly when the
      reply is short or does not start with `'='`. */
  lemma RejectsBadReply(line: seq<byte>)
    ensures var t, reply := HostRun(line), ReadSerial(line, HEADER_LEN).0;
      (t[|t| - 1] == Exit(1) <==> |reply| < HEADER_LEN || reply[0] != EQUALS) &&
      (t[|t| - 1] == Exit(1) ==> forall i :: 0 <= i < |t| ==> !t[i].Store?)
  {
  }

  /** On a good reply the script asks for `bank_num * bank_size` bytes and
      stores exactly the bytes it received, at most that many: the bytes
      the device sent after the reply, cut to that length. */
  lemma StoresPayloadUnchanged(line: seq<byte>, h: Header)
    requires |line| >= HEADER_LEN && DecodeHeader(line[..HEADER_LEN]) == Ok(h)
    ensures var t, payload := HostRun(line), line[HEADER_LEN..];
      var n := if Total(h) <= |payload| then Total(h) else |payload|;
      t == [Send([BANG]), Read(HEADER_LEN, line[..HEADER_LEN]), Read(Total(h), payload[..n]), Store(payload[..n]), Exit(0)]
  {
  }

  /** A device that sends the encoded header of `h` and then the whole
      dump has the dump stored unchanged. */
  lemma DumpArrives(h: Header, dump: seq<byte>)
    requires h.bankSize <= UINT16_MAX && |dump| == Total(h)
    ensures HostRun(EncodeHeader(h) + dump) ==
      [Send([BANG]), Read(HEADER_LEN, EncodeHeader(h)), Read(Total(h), dump), Store(dump), Exit(0)]
  {
    var line := EncodeHeader(h) + dump;
    assert line[..HEADER_LEN] == EncodeHeader(h);
    assert line[HEADER_LEN..] == dump;
    assert dump[..Total(h)] == dump;
    DecodeEncode(h);
    StoresPayloadUnchanged(line, h);
  }
}
