/** The buffers packets are written to and read from. */
module PacketBuffer {
  import opened Reassembly
  import opened Packets

  lemma DivDiv(v: nat, k: nat)
    ensures v / 256 / Pow(k) == v / Pow(k + 1)
  {
    var p := Pow(k);
    var q := v / 256;
    assert v == 256 * q + v % 256 && q == p * (q / p) + q % p;
    Quotient(v, 256 * p, q / p, 256 * (q % p) + v % 256);
  }

  lemma Quotient(a: nat, b: nat, d: nat, r: nat)
    requires b > 0 && r < b && a == d * b + r
    ensures a / b == d
  {
    var e := a / b;
    if e < d { Larger(e + 1, d, b); } else if d < e { Larger(d + 1, e, b); }
  }

  lemma Larger(a: nat, b: nat, k: nat)
    requires a <= b
    ensures a * k <= b * k
  {
  }

  /** Byte `i` of a big-endian integer is the value shifted right by the bytes after it. */
  lemma {:induction false} BigEndianAt(value: nat, k: nat, i: nat)
    requires i < k
    ensures BigEndian(value, k)[i] == value / Pow(k - 1 - i) % 256
    decreases k
  {
    if i < k - 1 {
      BigEndianAt(value / 256, k - 1, i);
      DivDiv(value, k - 2 - i);
    }
  }

  class WriteBuffer {
    var data: seq<Byte>

    constructor ()
      ensures data == []
    {
      data := [];
    }

    /** writeIntegral: one byte at a time, the most significant first. */
    method WriteIntegral(value: nat, width: nat)
      modifies this
      ensures data == old(data) + BigEndian(value, width)
    {
      for i := 0 to width
        invariant data == old(data) + BigEndian(value, width)[..i]
      {
        BigEndianAt(value, width, i);
        data := data + [value / Pow(width - 1 - i) % 256];
      }
    }

    method WriteFixedArray(bytes: seq<Byte>)
      modifies this
      ensures data == old(data) + bytes
    {
      for i := 0 to |bytes|
        invariant data == old(data) + bytes[..i]
      {
        data := data + [bytes[i]];
      }
    }

    method WriteString(s: seq<Byte>)
      modifies this
      ensures data == old(data) + Encode(Str, B(s))
    {
      WriteIntegral(|s|, 8);
      data := data + s;
    }
  }

  class ReadBuffer {
    const data: seq<Byte>
    var index: nat

    ghost predicate Valid()
      reads this
    {
      index <= |data|
    }

    function Rest(): seq<Byte>
      reads this
      requires Valid()
    {
      data[index..]
    }

    constructor (data: seq<Byte>)
      ensures Valid() && this.data == data && index == 0
    {
      this.data, index := data, 0;
    }

    /** A read past the end fails and moves nothing. */
    method ReadIntegral(width: nat) returns (r: Option<nat>)
      requires Valid()
      modifies this`index
      ensures Valid()
      ensures r == None ==> DecodeNum(old(Rest()), width) == None && index == old(index)
      ensures r.Some? ==> DecodeNum(old(Rest()), width) == Some(Read(r.value, Rest()))
    {
      if index + width > |data| {
        return None;
      }
      ghost var field := Rest()[..width];
      var value: nat := 0;
      for i := 0 to width
        invariant index == old(index) && value == FromBigEndian(field[..i])
      {
        assert field[..i + 1][..i] == field[..i] && field[i] == data[index + i];
        value := value * 256 + data[index + i];
      }
      assert field[..width] == field;
      index := index + width;
      return Some(value);
    }

    method ReadFixedArray(size: nat) returns (r: Option<seq<Byte>>)
      requires Valid()
      modifies this`index
      ensures Valid()
      ensures r == None ==> Decode(Raw(size), old(Rest())) == None
      ensures r.Some? ==> Decode(Raw(size), old(Rest())) == Some(Read(B(r.value), Rest()))
    {
      if index + size > |data| {
        return None;
      }
      var bytes := [];
      for i := 0 to size
        invariant index == old(index) + i <= |data| && bytes == data[old(index)..index]
      {
        bytes := bytes + [data[index]];
        index := index + 1;
      }
      assert old(Rest())[..size] == bytes;
      return Some(bytes);
    }

    method ReadString() returns (r: Option<seq<Byte>>)
      requires Valid()
      modifies this`index
      ensures Valid()
      ensures r == None ==> Decode(Str, old(Rest())) == None
      ensures r.Some? ==> Decode(Str, old(Rest())) == Some(Read(B(r.value), Rest()))
    {
      var length := ReadIntegral(8);
      if length == None || length.value > |data| - index {
        return None;
      }
      var s := data[index..index + length.value];
      assert s == Rest()[..length.value];
      index := index + length.value;
      return Some(s);
    }
  }
}
