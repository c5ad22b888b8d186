/**
 * Bytes as the bus carries them and the most-significant-byte-first assembly that `i2c_read`
 * performs on the bytes it reads back (touch811.py, lines 243-251).
 */
module ByteOrder {
  import opened Bits

  type Byte = b: int | 0 <= b < 256

  function Pow256(n: nat): (r: nat)
    ensures r >= 1
  {
    if n == 0 then 1 else 256 * Pow256(n - 1)
  }

  /** The unsigned value of `data`, most significant byte first. */
  function BigEndian(data: seq<Byte>): nat
  {
    if data == [] then 0 else BigEndian(data[..|data| - 1]) * 256 + data[|data| - 1]
  }

  /** The value of a high and a low byte. */
  function Word(hi: Byte, lo: Byte): nat
  {
    hi * 256 + lo
  }

  /** A two-byte read is the word of its two bytes. */
  lemma BigEndianPair(data: seq<Byte>)
    requires |data| == 2
    ensures BigEndian(data) == Word(data[0], data[1])
  {
    assert BigEndian(data[..1]) == data[0] by {
      assert data[..1][..0] == [];
    }
  }

  /** The `n`-byte big-endian encoding of `v`. */
  function ToBigEndian(v: nat, n: nat): (data: seq<Byte>)
    requires v < Pow256(n)
    ensures |data| == n
  {
    if n == 0 then [] else ToBigEndian(v / 256, n - 1) + [v % 256]
  }

  /** An `n`-byte read yields a value below 256^n. */
  lemma {:induction false} BigEndianBound(data: seq<Byte>)
    ensures BigEndian(data) < Pow256(|data|)
  {
    if data != [] {
      BigEndianBound(data[..|data| - 1]);
    }
  }

  /** Decoding the encoding of `v` gives back `v`. */
  lemma {:induction false} DecodeEncode(v: nat, n: nat)
    requires v < Pow256(n)
    ensures BigEndian(ToBigEndian(v, n)) == v
  {
    if n > 0 {
      var data := ToBigEndian(v, n);
      assert data[..n - 1] == ToBigEndian(v / 256, n - 1);
      DecodeEncode(v / 256, n - 1);
    }
  }

  /** Encoding the value of `data` at its own width gives back `data`. */
  lemma {:induction false} EncodeDecode(data: seq<Byte>)
    ensures BigEndian(data) < Pow256(|data|)
    ensures ToBigEndian(BigEndian(data), |data|) == data
  {
    BigEndianBound(data);
    if data != [] {
      var init := data[..|data| - 1];
      EncodeDecode(init);
      assert data == init + [data[|data| - 1]];
    }
  }

  /**
   * The value `i2c_read` assembles from 1 to 4 bytes, written as the source writes it:
   * shifted bytes combined with `|`.
   */
  function Assemble(data: seq<Byte>): nat
    requires 1 <= |data| <= 4
  {
    if |data| == 1 then data[0]
    else if |data| == 2 then Or(Shl(data[0], 8), data[1])
    else if |data| == 3 then Or(Or(Shl(data[0], 16), Shl(data[1], 8)), data[2])
    else Or(Or(Or(Shl(data[0], 24), Shl(data[1], 16)), Shl(data[2], 8)), data[3])
  }

  /** Appending one byte below a value already shifted up by `k + 8` bits. */
  lemma AppendByte(x: nat, d: Byte, k: nat)
    ensures Or(Shl(x, 8 + k), Shl(d, k)) == Shl(Shl(x, 8) + d, k)
  {
    ShlShl(x, 8, k);
    OrShl(Shl(x, 8), d, k);
    assert Pow2(8) == 256;
    OrDisjoint(x, d, 8);
  }

  /** The value of the first `n` bytes, one byte at a time. */
  lemma BigEndianPrefix(data: seq<Byte>, n: nat)
    requires 1 <= n <= |data|
    ensures BigEndian(data[..n]) == BigEndian(data[..n - 1]) * 256 + data[n - 1]
  {
    assert data[..n][..n - 1] == data[..n - 1];
  }

  lemma ShiftOrThree(d0: Byte, d1: Byte, d2: Byte)
    ensures Or(Or(Shl(d0, 16), Shl(d1, 8)), d2) == (d0 * 256 + d1) * 256 + d2
  {
    assert Pow2(8) == 256;
    AppendByte(d0, d1, 8);
    OrDisjoint(Shl(d0, 8) + d1, d2, 8);
  }

  lemma ShiftOrFour(d0: Byte, d1: Byte, d2: Byte, d3: Byte)
    ensures Or(Or(Or(Shl(d0, 24), Shl(d1, 16)), Shl(d2, 8)), d3) == ((d0 * 256 + d1) * 256 + d2) * 256 + d3
  {
    assert Pow2(8) == 256;
    var a := Shl(d0, 8) + d1;
    assert a == d0 * 256 + d1;
    AppendByte(d0, d1, 16);
    assert Or(Shl(d0, 24), Shl(d1, 16)) == Shl(a, 16);
    AppendByte(a, d2, 8);
    var b := Shl(a, 8) + d2;
    assert b == a * 256 + d2;
    OrDisjoint(b, d3, 8);
  }

  /** The source's shift-and-or assembly is the big-endian value of the bytes. */
  lemma AssembleIsBigEndian(data: seq<Byte>)
    requires 1 <= |data| <= 4
    ensures Assemble(data) == BigEndian(data)
  {
    var d := data;
    var v1: int := d[0];
    assert BigEndian(d[..1]) == v1 by {
      BigEndianPrefix(d, 1);
      assert d[..0] == [];
    }
    if |d| == 1 {
      assert d[..1] == d;
      return;
    }
    var v2 := v1 * 256 + d[1];
    assert BigEndian(d[..2]) == v2 by {
      BigEndianPrefix(d, 2);
    }
    if |d| == 2 {
      assert Assemble(d) == v2 by {
        assert Pow2(8) == 256;
        OrDisjoint(d[0], d[1], 8);
      }
      assert d[..2] == d;
      return;
    }
    var v3 := v2 * 256 + d[2];
    assert BigEndian(d[..3]) == v3 by {
      BigEndianPrefix(d, 3);
    }
    if |d| == 3 {
      assert Assemble(d) == v3 by {
        ShiftOrThree(d[0], d[1], d[2]);
      }
      assert d[..3] == d;
      return;
    }
    var v4 := v3 * 256 + d[3];
    assert BigEndian(d) == v4 by {
      BigEndianPrefix(d, 4);
      assert d[..4] == d;
    }
    assert Assemble(d) == v4 by {
      ShiftOrFour(d[0], d[1], d[2], d[3]);
    }
  }
}
