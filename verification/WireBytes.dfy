/** Big-endian numbers and C strings in a byte buffer, as Node's Buffer reads and writes them. */
module WireBytes {
  import opened Wrappers

  type Byte = b: int | 0 <= b < 256

  type U16 = n: int | 0 <= n < 0x1_0000

  type U32 = n: int | 0 <= n < 0x1_0000_0000

  type I32 = n: int | -0x8000_0000 <= n < 0x8000_0000

  datatype DecodeError = MissingTerminator | OutOfRange

  function U16At(b: seq<Byte>, o: nat): U16
    requires o + 2 <= |b|
  {
    (b[o] as int) * 0x100 + (b[o + 1] as int)
  }

  function U32At(b: seq<Byte>, o: nat): U32
    requires o + 4 <= |b|
  {
    U16At(b, o) * 0x1_0000 + U16At(b, o + 2)
  }

  /** Two's complement. */
  function I32At(b: seq<Byte>, o: nat): I32
    requires o + 4 <= |b|
  {
    var u := U32At(b, o);
    if u < 0x8000_0000 then u else u - 0x1_0000_0000
  }

  function PutU16(n: U16): (b: seq<Byte>)
    ensures |b| == 2 && U16At(b, 0) == n
  {
    [n / 0x100, n % 0x100]
  }

  function PutU32(n: U32): (b: seq<Byte>)
    ensures |b| == 4 && U32At(b, 0) == n
  {
    PutU16(n / 0x1_0000) + PutU16(n % 0x1_0000)
  }

  function PutI32(n: I32): (b: seq<Byte>)
    ensures |b| == 4 && I32At(b, 0) == n
  {
    PutU32(if n < 0 then n + 0x1_0000_0000 else n)
  }

  // ---- reads at an offset see only the bytes there ----

  lemma U16Window(b: seq<Byte>, o: nat)
    requires o + 2 <= |b|
    ensures U16At(b, o) == U16At(b[o..o + 2], 0)
    ensures PutU16(U16At(b, o)) == b[o..o + 2]
  {
  }

  lemma U32Window(b: seq<Byte>, o: nat)
    requires o + 4 <= |b|
    ensures U32At(b, o) == U32At(b[o..o + 4], 0)
    ensures PutU32(U32At(b, o)) == b[o..o + 4]
  {
    U16Window(b, o);
    U16Window(b, o + 2);
    assert b[o..o + 4] == b[o..o + 2] + b[o + 2..o + 4];
  }

  lemma I32Window(b: seq<Byte>, o: nat)
    requires o + 4 <= |b|
    ensures I32At(b, o) == I32At(b[o..o + 4], 0)
    ensures PutI32(I32At(b, o)) == b[o..o + 4]
  {
    U32Window(b, o);
  }

  // ---- Buffer.readUInt16BE and friends throw beyond the end ----

  function ReadU16(b: seq<Byte>, o: nat): Result<U16, DecodeError> {
    if o + 2 <= |b| then Ok(U16At(b, o)) else Err(OutOfRange)
  }

  function ReadU32(b: seq<Byte>, o: nat): Result<U32, DecodeError> {
    if o + 4 <= |b| then Ok(U32At(b, o)) else Err(OutOfRange)
  }

  function ReadI32(b: seq<Byte>, o: nat): Result<I32, DecodeError> {
    if o + 4 <= |b| then Ok(I32At(b, o)) else Err(OutOfRange)
  }

  // ---- C strings ----

  datatype CString = CString(value: seq<Byte>, next: nat)

  /** Buffer.indexOf(0, start), or -1. */
  function IndexOfZero(b: seq<Byte>, start: nat): (k: int)
    ensures k == -1 || (start <= k < |b| && b[k] == 0 && forall j :: start <= j < k ==> b[j] != 0)
    ensures k == -1 ==> forall j :: start <= j < |b| ==> b[j] != 0
    decreases |b| - start
  {
    if start >= |b| then -1
    else if b[start] == 0 then start
    else IndexOfZero(b, start + 1)
  }

  function ReadCString(b: seq<Byte>, start: nat): (r: Result<CString, DecodeError>)
    ensures r.Ok? ==> start < r.value.next <= |b| && PutCString(r.value.value) == b[start..r.value.next]
    ensures r.Ok? ==> 0 !in r.value.value
  {
    var end := IndexOfZero(b, start);
    if end < 0 then Err(MissingTerminator) else Ok(CString(b[start..end], end + 1))
  }

  function PutCString(value: seq<Byte>): seq<Byte> { value + [0] }

  lemma CStringBack(b: seq<Byte>, start: nat, value: seq<Byte>)
    requires 0 !in value && start + |value| + 1 <= |b|
    requires b[start..start + |value| + 1] == PutCString(value)
    ensures ReadCString(b, start) == Ok(CString(value, start + |value| + 1))
  {
    var w := b[start..start + |value| + 1];
    assert w[|value|] == 0;
    assert forall k :: 0 <= k < |value| ==> b[start + k] == w[k] == value[k];
    assert b[start + |value|] == 0;
    forall j | start <= j < start + |value| ensures b[j] != 0 {
      assert b[start + (j - start)] == w[j - start] == value[j - start];
    }
    assert b[start..start + |value|] == w[..|value|] == value;
  }
}
