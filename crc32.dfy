/** The CRC-32 the streaming session uses to check order books
    (src/services/DeltaWebSocketService.ts, `crc32` and `makeCRCTable`): the
    reflected CRC-32 of IEEE 802.3 clause 3.2.9, polynomial 0xEDB88320,
    register preset to all ones and inverted at the end. The source computes it
    with a 256-entry table; the specification below is the bit-at-a-time shift
    register, and the table-driven methods are proved equal to it.

    JavaScript keeps these values in doubles and its bitwise operators work on
    the 32-bit two's-complement pattern (`>>>` shifts in zeros, `^` and `&`
    give signed results); a `bv32` is that pattern. Only the final `>>> 0`
    turns it into a number, the unsigned value `r as int`. */
module Crc32 {

  /** The reflected generator polynomial. */
  const Polynomial: bv32 := 0xEDB88320

  /** One clock of the reflected shift register: shift right by one and, when
      the bit shifted out was set, xor in the polynomial (written out as a
      literal). Written without a branch: `0 - (c & 1)` is all ones exactly
      when the low bit is set; `SourceClock` relates it to the source's form. */
  function Step(c: bv32): bv32
  {
    (c >> 1) ^ (0xEDB8_8320 & (0 - (c & 1)))
  }

  /** `k` clocks of the shift register. */
  function Clocks(c: bv32, k: nat): bv32
  {
    if k == 0 then c else Step(Clocks(c, k - 1))
  }

  /** Eight clocks of the shift register, written out. */
  function Step8(c: bv32): bv32
  {
    Step(Step(Step(Step(Step(Step(Step(Step(c))))))))
  }

  /** Table entry `n`: the register after shifting the byte `n` through eight clocks. */
  function TableEntry(n: bv8): bv32
  {
    Step8(n as bv32)
  }

  /** The register after running each byte through `update`, in order. */
  function Fold(update: (bv32, bv8) -> bv32, init: bv32, bytes: seq<bv8>): bv32
  {
    if bytes == [] then init
    else update(Fold(update, init, bytes[..|bytes| - 1]), bytes[|bytes| - 1])
  }

  /** One byte, bit at a time: xor it into the low end and clock eight times. */
  function Update(c: bv32, b: bv8): bv32
  {
    Step8(c ^ (b as bv32))
  }

  /** One byte, by table: `(crc >>> 8) ^ table[(crc ^ b) & 0xff]`. */
  function TableUpdate(c: bv32, b: bv8): bv32
  {
    (c >> 8) ^ TableEntry(((c ^ (b as bv32)) & 0xFF) as bv8)
  }

  /** The shift register started at `init` after every byte of `bytes`. */
  function Register(init: bv32, bytes: seq<bv8>): bv32
  {
    Fold(Update, init, bytes)
  }

  /** The register preset. */
  const Preset: bv32 := 0xFFFF_FFFF

  /** The standard CRC-32 of a byte string: preset to all ones, inverted at the end. */
  function Crc(bytes: seq<bv8>): bv32
  {
    Register(Preset, bytes) ^ 0xFFFF_FFFF
  }

  /** `s.charCodeAt(i) & 0xff`: the source feeds the low byte of each
      character code to the register. */
  function LowByte(c: char): bv8
  {
    ((c as int) % 256) as bv8
  }

  /** The bytes the register sees for the text `s`. The index
      `(crc ^ s.charCodeAt(i)) & 0xff` depends only on the low byte of the
      character code, and `crc >>> 8` not at all. */
  function Bytes(s: string): (b: seq<bv8>)
    ensures |b| == |s|
    ensures forall i :: 0 <= i < |s| ==> b[i] == LowByte(s[i])
  {
    seq(|s|, i requires 0 <= i < |s| => LowByte(s[i]))
  }

  /** The source's clock, `c & 1 ? 0xEDB88320 ^ (c >>> 1) : c >>> 1`, is `Step`. */
  lemma SourceClock(c: bv32)
    ensures (if c & 1 == 1 then Polynomial ^ (c >> 1) else c >> 1) == Step(c)
  {}

  /** Eight clocks, one at a time, are the eight written out. */
  lemma ClocksEight(c: bv32)
    ensures Clocks(c, 8) == Step8(c)
  {
    var c1 := Step(c);
    var c2 := Step(c1);
    var c3 := Step(c2);
    var c4 := Step(c3);
    var c5 := Step(c4);
    var c6 := Step(c5);
    var c7 := Step(c6);
    assert Clocks(c, 1) == c1;
    assert Clocks(c, 2) == c2;
    assert Clocks(c, 3) == c3;
    assert Clocks(c, 4) == c4;
    assert Clocks(c, 5) == c5;
    assert Clocks(c, 6) == c6;
    assert Clocks(c, 7) == c7;
  }

  /** Eight clocks shift the high 24 bits of the register down unchanged and
      xor in a value that depends on the low byte alone: the fact that makes a
      256-entry table enough. */
  lemma Step8LowByte(x: bv32)
    ensures Step8(x) == (x >> 8) ^ Step8(x & 0xFF)
  {}

  /** The table-driven update is the bit-at-a-time one. */
  lemma TableUpdateCorrect(c: bv32, b: bv8)
    ensures (c >> 8) ^ TableEntry(((c ^ (b as bv32)) & 0xFF) as bv8) == Step8(c ^ (b as bv32))
  {
    Step8LowByte(c ^ (b as bv32));
    HighOfXorByte(c, b);
    ByteOfMask(c ^ (b as bv32));
  }

  /** Helpers for the table index: a byte survives a trip through `int`,
      and masking the register to its low byte loses nothing the byte keeps. */
  lemma ByteRoundTrip(n: bv8)
    ensures (n as int) as bv8 == n
  {}

  lemma ByteOfMask(x: bv32)
    ensures ((x & 0xFF) as bv8) as bv32 == x & 0xFF
  {}

  lemma HighOfXorByte(crc: bv32, b: bv8) ensures (crc ^ (b as bv32)) >> 8 == crc >> 8 {}

  /** The last byte is the last update. */
  lemma {:induction false} FoldSnoc(update: (bv32, bv8) -> bv32, init: bv32, bytes: seq<bv8>, b: bv8)
    ensures Fold(update, init, bytes + [b]) == update(Fold(update, init, bytes), b)
  {
    assert (bytes + [b])[..|bytes|] == bytes;
  }

  /** Two updates that agree on every register and byte fold to the same register. */
  lemma {:induction false} FoldAgree(f: (bv32, bv8) -> bv32, g: (bv32, bv8) -> bv32, init: bv32, bytes: seq<bv8>)
    requires forall c, b :: f(c, b) == g(c, b)
    ensures Fold(f, init, bytes) == Fold(g, init, bytes)
  {
    if bytes != [] {
      FoldAgree(f, g, init, bytes[..|bytes| - 1]);
    }
  }

  /** Running the table-driven update over a byte string gives the register. */
  lemma TableRegister(init: bv32, bytes: seq<bv8>)
    ensures Fold(TableUpdate, init, bytes) == Register(init, bytes)
  {
    forall c, b ensures TableUpdate(c, b) == Update(c, b) {
      TableUpdateCorrect(c, b);
    }
    FoldAgree(TableUpdate, Update, init, bytes);
  }

  /** The register after one more byte, from the register before it. */
  lemma RegisterSnoc(bytes: seq<bv8>, b: bv8, before: bv32, after: bv32)
    requires Register(Preset, bytes) == before && Update(before, b) == after
    ensures Register(Preset, bytes + [b]) == after
  {
    FoldSnoc(Update, Preset, bytes, b);
  }

  /** The check value of this CRC: the text `123456789` has CRC 0xCBF43926. */
  lemma CheckValue()
    ensures Crc(Bytes("123456789")) == 0xCBF4_3926
  {
    var b0: seq<bv8> := [];
    assert Register(Preset, b0) == 0xFFFF_FFFF;
    RegisterSnoc(b0, 0x31, 0xFFFF_FFFF, 0x7C23_1048);
    var b1 := b0 + [0x31];
    RegisterSnoc(b1, 0x32, 0x7C23_1048, 0xB0AC_BB32);
    var b2 := b1 + [0x32];
    RegisterSnoc(b2, 0x33, 0xB0AC_BB32, 0x77B7_9C2D);
    var b3 := b2 + [0x33];
    RegisterSnoc(b3, 0x34, 0x77B7_9C2D, 0x641C_1F5C);
    var b4 := b3 + [0x34];
    RegisterSnoc(b4, 0x35, 0x641C_1F5C, 0x340A_C5E3);
    var b5 := b4 + [0x35];
    RegisterSnoc(b5, 0x36, 0x340A_C5E3, 0xF68D_2C9E);
    var b6 := b5 + [0x36];
    RegisterSnoc(b6, 0x37, 0xF68D_2C9E, 0xAFFC_9660);
    var b7 := b6 + [0x37];
    RegisterSnoc(b7, 0x38, 0xAFFC_9660, 0x651F_2550);
    var b8 := b7 + [0x38];
    RegisterSnoc(b8, 0x39, 0x651F_2550, 0x340B_C6D9);
    var b9 := b8 + [0x39];
    assert b9 == [0x31, 0x32, 0x33, 0x34, 0x35, 0x36, 0x37, 0x38, 0x39];
    DigitBytes();
  }

  /** The characters `1` to `9` are the bytes 0x31 to 0x39. */
  lemma DigitBytes()
    ensures Bytes("123456789") == [0x31, 0x32, 0x33, 0x34, 0x35, 0x36, 0x37, 0x38, 0x39]
  {
    var b := Bytes("123456789");
    forall i | 0 <= i < 9
      ensures b[i] == (0x31 + i) as bv8
    {
      assert "123456789"[i] as int == 0x31 + i;
    }
  }

  /** The inner loop of `makeCRCTable`: eight clocks of the register preset to `n`. */
  method ClockByte(n: bv8) returns (c: bv32)
    ensures c == Step8(n as bv32)
  {
    c := n as bv32;
    for k := 0 to 8
      invariant c == Clocks(n as bv32, k)
    {
      SourceClock(c);
      c := if c & 1 == 1 then Polynomial ^ (c >> 1) else c >> 1;
    }
    ClocksEight(n as bv32);
  }

  /** `makeCRCTable`: fills a fresh 256-entry table. */
  method MakeCRCTable() returns (table: array<bv32>)
    ensures fresh(table) && table.Length == 256
    ensures forall n: bv8 {:trigger TableEntry(n)} :: table[n as int] == TableEntry(n)
  {
    table := new bv32[256];
    for n := 0 to 256
      invariant forall m :: 0 <= m < n ==> table[m] == TableEntry(m as bv8)
    {
      var c := ClockByte(n as bv8);
      table[n] := c;
    }
    forall n: bv8 ensures table[n as int] == TableEntry(n) {
      ByteRoundTrip(n);
    }
  }

  /** One more byte extends the table-driven fold by one update. */
  lemma FoldPrefix(bytes: seq<bv8>, i: nat, crc: bv32)
    requires i < |bytes|
    requires crc == Fold(TableUpdate, Preset, bytes[..i])
    ensures TableUpdate(crc, bytes[i]) == Fold(TableUpdate, Preset, bytes[..i + 1])
  {
    assert bytes[..i + 1] == bytes[..i] + [bytes[i]];
    FoldSnoc(TableUpdate, Preset, bytes[..i], bytes[i]);
  }

  /** The body of the loop of `crc32`: `(crc >>> 8) ^ table[(crc ^ b) & 0xff]`. */
  method TableStep(table: array<bv32>, crc: bv32, b: bv8) returns (next: bv32)
    requires table.Length == 256
    requires forall n: bv8 {:trigger TableEntry(n)} :: table[n as int] == TableEntry(n)
    ensures next == TableUpdate(crc, b)
  {
    var index := ((crc ^ (b as bv32)) & 0xFF) as bv8;
    next := (crc >> 8) ^ table[index as int];
  }

  /** `crc32`: the table-driven CRC of the low bytes of `s` is the
      standard CRC-32 of those bytes. */
  method Crc32(s: string) returns (r: bv32)
    ensures r == Crc(Bytes(s))
  {
    var table := MakeCRCTable();
    var bytes := Bytes(s);
    var crc: bv32 := 0xFFFF_FFFF;
    for i := 0 to |s|
      modifies {}
      invariant crc == Fold(TableUpdate, Preset, bytes[..i])
    {
      FoldPrefix(bytes, i, crc);
      crc := TableStep(table, crc, bytes[i]);
    }
    assert bytes[..|s|] == bytes;
    TableRegister(Preset, bytes);
    r := crc ^ 0xFFFF_FFFF;
  }
}
