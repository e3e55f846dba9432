/**
 * Variable storage: a growable list of bytes handed out by `allocate`, and the
 * big-endian codec through which Int4 values are stored and fetched. Int4 is
 * the only type with a codec.
 */
module StaticMemories {
  import opened JavaInt
  import opened DataTypes
  import opened Exceptions

  /** `ByteBuffer.putInt`: the four bytes of `v`, most significant first. */
  function Encode(v: int32): (bytes: seq<byte>)
    ensures |bytes| == 4
  {
    var u := if v < 0 then v + TWO_32 else v as int;
    [(u / 0x100_0000) as byte, (u / 0x1_0000 % 256) as byte, (u / 256 % 256) as byte, (u % 256) as byte]
  }

  /** `ByteBuffer.getInt` on four bytes, most significant first. */
  function Decode(bytes: seq<byte>): int32
    requires |bytes| == 4
  {
    var u := ((bytes[0] as int * 256 + bytes[1] as int) * 256 + bytes[2] as int) * 256 + bytes[3] as int;
    if u > MAX_INT then u - TWO_32 else u
  }

  lemma Digit(x: int, d: int)
    requires 0 <= d < 256
    ensures (x * 256 + d) / 256 == x && (x * 256 + d) % 256 == d
  {
  }

  /** Decoding an encoded value gives it back. */
  lemma DecodeEncode(v: int32)
    ensures Decode(Encode(v)) == v
  {
    var u := if v < 0 then v + TWO_32 else v as int;
    var b := Encode(v);
    // u in base 256: q1, d1, d2, d3 from the most significant digit down.
    var q3, d3 := u / 256, u % 256;
    var q2, d2 := q3 / 256, q3 % 256;
    var q1, d1 := q2 / 256, q2 % 256;
    assert u == q3 * 256 + d3 && q3 == q2 * 256 + d2 && q2 == q1 * 256 + d1;
    assert u / 0x1_0000 == q2 && u / 0x100_0000 == q1;
    assert b[0] as int == q1 && b[1] as int == d1 && b[2] as int == d2 && b[3] as int == d3;
    assert ((q1 * 256 + d1) * 256 + d2) * 256 + d3 == u;
  }

  /** Encoding a decoded value gives back the four bytes. */
  lemma EncodeDecode(bytes: seq<byte>)
    requires |bytes| == 4
    ensures Encode(Decode(bytes)) == bytes
  {
    var x0, x1, x2, x3 := bytes[0] as int, bytes[1] as int, bytes[2] as int, bytes[3] as int;
    var u := ((x0 * 256 + x1) * 256 + x2) * 256 + x3;
    Digit((x0 * 256 + x1) * 256 + x2, x3);
    Digit(x0 * 256 + x1, x2);
    Digit(x0, x1);
    assert u / 256 == (x0 * 256 + x1) * 256 + x2;
    assert u / 0x1_0000 == (u / 256) / 256;
    assert u / 0x100_0000 == (u / 0x1_0000) / 256;
    var e := Encode(Decode(bytes));
    assert e[0] == bytes[0] && e[1] == bytes[1] && e[2] == bytes[2] && e[3] == bytes[3];
  }

  /** Writing `bytes` one by one from position `j` with `List.set`: the first
      position outside the list fails, after the bytes before it are written. */
  function Put(store: seq<byte>, j: int, bytes: seq<byte>): (r: (seq<byte>, Option<Exception>))
    ensures |r.0| == |store|
    ensures r.1 == None <==> bytes == [] || (0 <= j && j + |bytes| <= |store|)
    ensures r.1 == None ==> forall k :: 0 <= k < |bytes| ==> r.0[j + k] == bytes[k]
    ensures forall k :: 0 <= k < |store| && !(j <= k < j + |bytes|) ==> r.0[k] == store[k]
    decreases |bytes|
  {
    if bytes == [] then (store, None)
    else if !(0 <= j < |store|) then (store, Some(IndexOutOfBounds(j)))
    else Put(store[j := bytes[0]], j + 1, bytes[1..])
  }

  /** Reading `n` bytes from position `j` with `List.get`. */
  function Gather(store: seq<byte>, j: int, n: nat): (r: Try<seq<byte>>)
    ensures r.Ok? <==> n == 0 || (0 <= j && j + n <= |store|)
    ensures r.Ok? ==> |r.value| == n && forall k :: 0 <= k < n ==> r.value[k] == store[j + k]
    decreases n
  {
    if n == 0 then Ok([])
    else if !(0 <= j < |store|) then Thrown(IndexOutOfBounds(j))
    else
      match Gather(store, j + 1, n - 1)
      case Ok(rest) => Ok([store[j]] + rest)
      case Thrown(e) => Thrown(e)
  }

  /** `fetch(Int4, offset)` on the bytes `store`. */
  function Load(store: seq<byte>, offset: int): Try<int32>
  {
    match Gather(store, offset, 4)
    case Ok(bytes) => Ok(Decode(bytes))
    case Thrown(e) => Thrown(e)
  }

  /** A value stored in range is fetched back. */
  lemma LoadStored(store: seq<byte>, offset: int, v: int32)
    requires 0 <= offset && offset + 4 <= |store|
    ensures Put(store, offset, Encode(v)).1 == None
    ensures Load(Put(store, offset, Encode(v)).0, offset) == Ok(v)
  {
    var s := Put(store, offset, Encode(v)).0;
    assert s[offset..offset + 4] == Encode(v);
    DecodeEncode(v);
  }

  /** A store leaves every range of four bytes it does not touch fetching what
      it fetched before. */
  lemma LoadElsewhere(store: seq<byte>, o1: int, o2: int, v: int32)
    requires o1 + 4 <= o2 || o2 + 4 <= o1
    ensures Load(Put(store, o1, Encode(v)).0, o2) == Load(store, o2)
  {
    var s := Put(store, o1, Encode(v)).0;
    if 0 <= o2 && o2 + 4 <= |store| {
      assert s[o2..o2 + 4] == store[o2..o2 + 4];
    }
  }

  class StaticMemory {
    /** The variable store. */
    var store: seq<byte>
    /** The offset the next allocation hands out. */
    var nextAddr: int

    /** The next address is the end of the store: every byte handed out is
        backed, and nothing past it is. */
    predicate Valid()
      reads this
    {
      0 <= nextAddr == |store|
    }

    /** `initialize`: an empty store whose next address is 0. */
    constructor ()
      ensures Valid() && store == [] && nextAddr == 0
    {
      store := [];
      nextAddr := 0;
    }

    /** `allocate(t)`: appends `size(t)` zero bytes and returns the old next
        address, which moves on by `size(t)`. A string immediate, of size -1,
        adds nothing and moves the next address back by one, so only then is
        the next address no longer the end of the store. */
    method Allocate(t: DataType) returns (offset: int)
      modifies this
      ensures old(Valid()) ==> (Valid() <==> t != Imm_Str)
      ensures offset == old(nextAddr) && nextAddr == old(nextAddr) + Size(t)
      ensures |store| == old(|store|) + (if Size(t) > 0 then Size(t) else 0)
      ensures store[..old(|store|)] == old(store)
      ensures forall k :: old(|store|) <= k < |store| ==> store[k] == 0
    {
      var i := 0;
      while i < Size(t)
        invariant 0 <= i <= (if Size(t) > 0 then Size(t) else 0) && nextAddr == old(nextAddr)
        invariant |store| == old(|store|) + i
        invariant store[..old(|store|)] == old(store)
        invariant forall k :: old(|store|) <= k < |store| ==> store[k] == 0
      {
        store := store + [0];
        i := i + 1;
      }
      offset := nextAddr;
      nextAddr := nextAddr + Size(t);
    }

    /** `store(v, t, offset)`: only Int4 has a codec, so any other type fails
        on the missing one; the four bytes of `v` are then written from
        `offset`, and a position past the store fails after the ones before it. */
    method Store(v: int32, t: DataType, offset: int) returns (e: Option<Exception>)
      modifies this
      ensures nextAddr == old(nextAddr) && |store| == old(|store|)
      ensures old(Valid()) ==> Valid()
      ensures t != Int4 ==> e == Some(NullPointer) && store == old(store)
      ensures t == Int4 ==> (store, e) == Put(old(store), offset, Encode(v))
    {
      if t != Int4 {
        return Some(NullPointer);
      }
      var bytes := Encode(v);
      var i := 0;
      while i < |bytes|
        invariant 0 <= i <= |bytes| && nextAddr == old(nextAddr) && |store| == old(|store|)
        invariant Put(old(store), offset, bytes) == Put(store, offset + i, bytes[i..])
      {
        var j := offset + i;
        assert bytes[i..] == [bytes[i]] + bytes[i + 1..];
        if !(0 <= j < |store|) {
          return Some(IndexOutOfBounds(j));
        }
        store := store[j := bytes[i]];
        i := i + 1;
      }
      return None;
    }

    /** `fetch(t, offset)`: any type but Int4 fails on the missing codec; Int4
        reads four bytes from `offset` and decodes them. */
    method Fetch(t: DataType, offset: int) returns (r: Try<int32>)
      ensures t != Int4 ==> r == Thrown(NullPointer)
      ensures t == Int4 ==> r == Load(store, offset)
    {
      if t != Int4 {
        return Thrown(NullPointer);
      }
      var bytes: seq<byte> := [];
      var i := 0;
      var whole := Gather(store, offset, 4);
      assert whole.Ok? ==> [] + whole.value == whole.value;
      while i < Size(t)
        invariant 0 <= i <= 4
        invariant Gather(store, offset, 4) == Prefixed(bytes, Gather(store, offset + i, 4 - i))
        invariant |bytes| == i
      {
        var j := offset + i;
        if !(0 <= j < |store|) {
          return Thrown(IndexOutOfBounds(j));
        }
        PrefixedStep(bytes, store[j], Gather(store, j + 1, 4 - i - 1));
        bytes := bytes + [store[j]];
        i := i + 1;
      }
      return Ok(Decode(bytes));
    }
  }

  /** Moving one byte from the rest of a read to the part already done. */
  lemma PrefixedStep(done: seq<byte>, b: byte, rest: Try<seq<byte>>)
    ensures Prefixed(done, match rest case Ok(r) => Ok([b] + r) case Thrown(e) => Thrown(e))
         == Prefixed(done + [b], rest)
  {
    if rest.Ok? {
      assert done + ([b] + rest.value) == (done + [b]) + rest.value;
    }
  }

  /** The read so far, `done`, in front of the rest of a read. */
  function Prefixed(done: seq<byte>, rest: Try<seq<byte>>): Try<seq<byte>>
  {
    match rest
    case Ok(bytes) => Ok(done + bytes)
    case Thrown(e) => Thrown(e)
  }
}
