/**
  DataEncoder and DataDecoder of Jetway/DataEncoder.swift: a passthrough coder between a
  single encoded value and raw `Data`.

  The encoder holds one optional `Data` slot that every single-value encode overwrites; the
  keyed and unkeyed containers it hands out throw on every operation. The decoder reads the
  whole buffer as one value. Fixed-width values are laid out as their in-memory bytes on a
  little-endian 64-bit platform.
*/
module DataCoding {
  import opened Wrappers

  /** A byte of a `Data` buffer. */
  type Byte = b: int | 0 <= b < 256

  type Data = seq<Byte>

  /** `DataEncoder.Error` and `DataDecoder.Error`, which have the same two cases. */
  datatype CodingError = UnsupportedContainerType | UnsupportedValue

  // ---------------------------------------------------------- Byte layout

  function Pow256(k: nat): (p: nat)
    ensures p >= 1
  {
    if k == 0 then 1 else 256 * Pow256(k - 1)
  }

  /** The `size` little-endian bytes of the unsigned number `n`. */
  function LittleEndian(n: nat, size: nat): (d: Data)
    requires n < Pow256(size)
    ensures |d| == size
  {
    if size == 0 then [] else [n % 256] + LittleEndian(n / 256, size - 1)
  }

  /** The unsigned number whose little-endian bytes are `d`. */
  function FromLittleEndian(d: Data): (n: nat)
    ensures n < Pow256(|d|)
  {
    if d == [] then 0 else d[0] + 256 * FromLittleEndian(d[1..])
  }

  lemma {:induction false} LittleEndianRoundTrip(n: nat, size: nat)
    requires n < Pow256(size)
    ensures FromLittleEndian(LittleEndian(n, size)) == n
  {
    if size > 0 {
      var d := LittleEndian(n, size);
      assert d[1..] == LittleEndian(n / 256, size - 1);
      LittleEndianRoundTrip(n / 256, size - 1);
    }
  }

  /** The fixed-width integer types of `Encoder`/`Decoder`; `Int` and `UInt` are 64-bit. */
  datatype IntType = Int | Int8 | Int16 | Int32 | Int64 | UInt | UInt8 | UInt16 | UInt32 | UInt64
  {
    /** `MemoryLayout.size(ofValue:)`, in bytes. */
    function Size(): nat
    {
      match this
      case Int8 | UInt8 => 1
      case Int16 | UInt16 => 2
      case Int32 | UInt32 => 4
      case Int | Int64 | UInt | UInt64 => 8
    }

    predicate Signed()
    {
      Int? || Int8? || Int16? || Int32? || Int64?
    }

    function Modulus(): nat
    {
      Pow256(Size())
    }

    /** The values the type can hold. */
    predicate InRange(n: int)
    {
      if Signed() then -(Modulus() / 2) <= n < Modulus() / 2 else 0 <= n < Modulus()
    }
  }

  /** The bit pattern of `n` as an unsigned number (two's complement for negatives). */
  function TwosComplement(t: IntType, n: int): (u: nat)
    requires t.InRange(n)
    ensures u < t.Modulus()
  {
    if n < 0 then n + t.Modulus() else n
  }

  /** The value of type `t` with bit pattern `u`. */
  function FromTwosComplement(t: IntType, u: nat): (n: int)
    requires u < t.Modulus()
    ensures t.InRange(n)
    ensures TwosComplement(t, n) == u
  {
    assert t.Modulus() == 256 * Pow256(t.Size() - 1);
    if t.Signed() && u >= t.Modulus() / 2 then u - t.Modulus() else u
  }

  /** The two floating-point types, carried as their IEEE 754 bit patterns. */
  datatype FloatType = Float | Double
  {
    function Size(): nat
    {
      if Float? then 4 else 8
    }
  }

  // ---------------------------------------------------------------- UTF-8

  predicate IsContinuation(b: Byte)
  {
    0x80 <= b < 0xC0
  }

  /** The UTF-8 encoding of one Unicode scalar value. */
  function EncodeScalar(c: char): (d: Data)
    ensures 1 <= |d| <= 4
  {
    var cp := c as int;
    if cp < 0x80 then [cp]
    else if cp < 0x800 then [0xC0 + cp / 0x40, 0x80 + cp % 0x40]
    else if cp < 0x10000 then [0xE0 + cp / 0x1000, 0x80 + (cp / 0x40) % 0x40, 0x80 + cp % 0x40]
    else [0xF0 + cp / 0x40000, 0x80 + (cp / 0x1000) % 0x40, 0x80 + (cp / 0x40) % 0x40, 0x80 + cp % 0x40]
  }

  /** `Data(string.utf8)`. */
  function Utf8Encode(s: string): Data
  {
    if s == [] then [] else EncodeScalar(s[0]) + Utf8Encode(s[1..])
  }

  /** The scalar value a well-formed UTF-8 sequence starts with, and its length; `None` for an
      ill-formed start (a stray continuation byte, a truncated sequence, an overlong form, a
      surrogate, or a value above U+10FFFF). */
  function DecodeFirst(d: Data): (r: Option<(char, nat)>)
    requires d != []
    ensures r.Some? ==> 1 <= r.value.1 <= |d|
  {
    var b0 := d[0] as int;
    if b0 < 0x80 then Some((b0 as char, 1))
    else if 0xC2 <= b0 < 0xE0 then
      if 2 <= |d| && IsContinuation(d[1]) then
        Some((((b0 - 0xC0) * 0x40 + (d[1] as int - 0x80)) as char, 2))
      else None
    else if 0xE0 <= b0 < 0xF0 then
      if 3 <= |d| && IsContinuation(d[1]) && IsContinuation(d[2]) then
        var cp := (b0 - 0xE0) * 0x1000 + (d[1] as int - 0x80) * 0x40 + (d[2] as int - 0x80);
        if 0x800 <= cp && !(0xD800 <= cp < 0xE000) then Some((cp as char, 3)) else None
      else None
    else if 0xF0 <= b0 < 0xF5 then
      if 4 <= |d| && IsContinuation(d[1]) && IsContinuation(d[2]) && IsContinuation(d[3]) then
        var cp := (b0 - 0xF0) * 0x40000 + (d[1] as int - 0x80) * 0x1000 + (d[2] as int - 0x80) * 0x40 + (d[3] as int - 0x80);
        if 0x10000 <= cp <= 0x10FFFF then Some((cp as char, 4)) else None
      else None
    else None
  }

  /** `String(data:encoding: .utf8)`: the string, when the whole buffer is well-formed UTF-8. */
  function Utf8Decode(d: Data): (r: Option<string>)
    ensures r.Some? ==> |r.value| <= |d|
    decreases |d|
  {
    if d == [] then Some([])
    else match DecodeFirst(d)
      case None => None
      case Some((c, k)) =>
        match Utf8Decode(d[k..])
        case None => None
        case Some(s) => Some([c] + s)
  }

  lemma TwoByteScalar(cp: int, d: Data)
    requires 0x80 <= cp < 0x800 && 2 <= |d|
    requires d[0] == 0xC0 + cp / 0x40 && d[1] == 0x80 + cp % 0x40
    ensures DecodeFirst(d) == Some((cp as char, 2))
  {
    var x, y := cp / 0x40, cp % 0x40;
    assert cp == x * 0x40 + y;
    assert 0xC2 <= d[0] < 0xE0 && IsContinuation(d[1]);
  }

  lemma ThreeByteScalar(cp: int, d: Data)
    requires 0x800 <= cp < 0x10000 && !(0xD800 <= cp < 0xE000) && 3 <= |d|
    requires d[0] == 0xE0 + cp / 0x1000 && d[1] == 0x80 + (cp / 0x40) % 0x40 && d[2] == 0x80 + cp % 0x40
    ensures DecodeFirst(d) == Some((cp as char, 3))
  {
    var x, y, z := cp / 0x1000, (cp / 0x40) % 0x40, cp % 0x40;
    assert cp / 0x40 == x * 0x40 + y;
    assert cp == x * 0x1000 + y * 0x40 + z;
    assert 0xE0 <= d[0] < 0xF0 && IsContinuation(d[1]) && IsContinuation(d[2]);
  }

  lemma FourByteScalar(cp: int, d: Data)
    requires 0x10000 <= cp <= 0x10FFFF && 4 <= |d|
    requires d[0] == 0xF0 + cp / 0x40000 && d[1] == 0x80 + (cp / 0x1000) % 0x40
    requires d[2] == 0x80 + (cp / 0x40) % 0x40 && d[3] == 0x80 + cp % 0x40
    ensures DecodeFirst(d) == Some((cp as char, 4))
  {
    var w, x, y, z := cp / 0x40000, (cp / 0x1000) % 0x40, (cp / 0x40) % 0x40, cp % 0x40;
    assert cp / 0x1000 == w * 0x40 + x;
    assert cp / 0x40 == (w * 0x40 + x) * 0x40 + y;
    assert cp == w * 0x40000 + x * 0x1000 + y * 0x40 + z;
    assert 0xF0 <= d[0] < 0xF5 && IsContinuation(d[1]) && IsContinuation(d[2]) && IsContinuation(d[3]);
  }

  lemma ScalarRoundTrip(c: char, rest: Data)
    ensures DecodeFirst(EncodeScalar(c) + rest) == Some((c, |EncodeScalar(c)|))
  {
    var cp := c as int;
    var d := EncodeScalar(c) + rest;
    if cp < 0x80 {
      assert d[0] == cp;
    } else if cp < 0x800 {
      TwoByteScalar(cp, d);
    } else if cp < 0x10000 {
      ThreeByteScalar(cp, d);
    } else {
      FourByteScalar(cp, d);
    }
  }

  lemma TwoByteEncoding(x: int, y: int)
    requires 2 <= x < 0x20 && 0 <= y < 0x40
    ensures EncodeScalar((x * 0x40 + y) as char) == [0xC0 + x, 0x80 + y]
  {
    var cp := x * 0x40 + y;
    assert cp / 0x40 == x && cp % 0x40 == y;
  }

  lemma ThreeByteEncoding(x: int, y: int, z: int)
    requires 0 <= x < 0x10 && 0 <= y < 0x40 && 0 <= z < 0x40
    requires var cp := x * 0x1000 + y * 0x40 + z; 0x800 <= cp && !(0xD800 <= cp < 0xE000)
    ensures EncodeScalar((x * 0x1000 + y * 0x40 + z) as char) == [0xE0 + x, 0x80 + y, 0x80 + z]
  {
    var cp := x * 0x1000 + y * 0x40 + z;
    assert cp / 0x40 == x * 0x40 + y && cp % 0x40 == z;
    assert cp / 0x1000 == x;
    assert (cp / 0x40) % 0x40 == y;
  }

  lemma FourByteEncoding(w: int, x: int, y: int, z: int)
    requires 0 <= w < 5 && 0 <= x < 0x40 && 0 <= y < 0x40 && 0 <= z < 0x40
    requires var cp := w * 0x40000 + x * 0x1000 + y * 0x40 + z; 0x10000 <= cp <= 0x10FFFF
    ensures EncodeScalar((w * 0x40000 + x * 0x1000 + y * 0x40 + z) as char) == [0xF0 + w, 0x80 + x, 0x80 + y, 0x80 + z]
  {
    var cp := w * 0x40000 + x * 0x1000 + y * 0x40 + z;
    assert cp / 0x40 == w * 0x1000 + x * 0x40 + y && cp % 0x40 == z;
    assert cp / 0x1000 == w * 0x40 + x;
    assert cp / 0x40000 == w;
    assert (cp / 0x1000) % 0x40 == x && (cp / 0x40) % 0x40 == y;
  }

  lemma ScalarOfDecoded(d: Data)
    requires d != [] && DecodeFirst(d).Some?
    ensures EncodeScalar(DecodeFirst(d).value.0) == d[..DecodeFirst(d).value.1]
  {
    var b0 := d[0] as int;
    if b0 < 0x80 {
    } else if b0 < 0xE0 {
      TwoByteEncoding(b0 - 0xC0, d[1] - 0x80);
    } else if b0 < 0xF0 {
      ThreeByteEncoding(b0 - 0xE0, d[1] - 0x80, d[2] - 0x80);
    } else {
      FourByteEncoding(b0 - 0xF0, d[1] - 0x80, d[2] - 0x80, d[3] - 0x80);
    }
  }

  /** Decoding the UTF-8 bytes of a string gives the string back. */
  lemma {:induction false} Utf8RoundTrip(s: string)
    ensures Utf8Decode(Utf8Encode(s)) == Some(s)
  {
    if s != [] {
      var head := EncodeScalar(s[0]);
      var d := Utf8Encode(s);
      ScalarRoundTrip(s[0], Utf8Encode(s[1..]));
      assert d[|head|..] == Utf8Encode(s[1..]);
      Utf8RoundTrip(s[1..]);
      assert [s[0]] + s[1..] == s;
    }
  }

  /** A decoded buffer is its first scalar's bytes followed by a decoded rest. */
  lemma DecodedSplits(d: Data)
    requires d != [] && Utf8Decode(d).Some?
    ensures DecodeFirst(d).Some?
    ensures var k := DecodeFirst(d).value.1;
      Utf8Decode(d[k..]).Some? && d[..k] == EncodeScalar(DecodeFirst(d).value.0)
      && Utf8Decode(d).value == [DecodeFirst(d).value.0] + Utf8Decode(d[k..]).value
  {
    ScalarOfDecoded(d);
  }

  /** Encoding a string is encoding its first scalar, then the rest. */
  lemma EncodeCons(c: char, rest: string)
    ensures Utf8Encode([c] + rest) == EncodeScalar(c) + Utf8Encode(rest)
  {
    assert ([c] + rest)[0] == c && ([c] + rest)[1..] == rest;
  }

  /** A buffer cut after a scalar's bytes, whose rest encodes a string, encodes the scalar
      followed by that string. */
  lemma Recombine(d: Data, k: nat, c: char, rest: string)
    requires k <= |d| && d[..k] == EncodeScalar(c) && Utf8Encode(rest) == d[k..]
    ensures Utf8Encode([c] + rest) == d
  {
    EncodeCons(c, rest);
    assert d[..k] + d[k..] == d;
  }

  /** A buffer that decodes to a string is exactly that string's UTF-8 bytes. */
  lemma {:induction false} Utf8DecodeIsExact(d: Data)
    requires Utf8Decode(d).Some?
    ensures Utf8Encode(Utf8Decode(d).value) == d
    decreases |d|
  {
    if d != [] {
      DecodedSplits(d);
      var c, k := DecodeFirst(d).value.0, DecodeFirst(d).value.1;
      var rest := Utf8Decode(d[k..]).value;
      Utf8DecodeIsExact(d[k..]);
      Recombine(d, k, c, rest);
    }
  }

  /** The buffers `String(data:encoding: .utf8)` accepts: the UTF-8 encodings of strings. */
  ghost predicate ValidUtf8(d: Data)
  {
    exists s :: Utf8Encode(s) == d
  }

  lemma Utf8DecodeSucceedsIffValid(d: Data)
    ensures Utf8Decode(d).Some? <==> ValidUtf8(d)
  {
    if Utf8Decode(d).Some? {
      Utf8DecodeIsExact(d);
    }
    if ValidUtf8(d) {
      var s :| Utf8Encode(s) == d;
      Utf8RoundTrip(s);
    }
  }

  // --------------------------------------------------------------- Values

  /** A value handed to a container: one of the types with a dedicated overload, or (through
      the generic `encode<T>`/`decode<T>`) a `Data` value or a value of some other type. */
  datatype Value =
    | Bytes(data: Data)
    | Boolean(b: bool)
    | Text(s: string)
    | Integer(intType: IntType, n: int)
    | Floating(floatType: FloatType, bits: nat)
    | Composite(id: nat)
  {
    /** The value fits its Swift type. */
    predicate WellFormed()
    {
      match this
      case Integer(t, n) => t.InRange(n)
      case Floating(t, bits) => bits < Pow256(t.Size())
      case _ => true
    }

    /** Whether the value goes through the generic overload. */
    predicate IsGeneric()
    {
      Bytes? || Composite?
    }
  }

  /** The type a decoder is asked for. */
  datatype ValueKind = DataKind | BoolKind | StringKind | IntKind(intType: IntType) | FloatKind(floatType: FloatType) | OtherKind

  function KindOf(v: Value): ValueKind
  {
    match v
    case Bytes(_) => DataKind
    case Boolean(_) => BoolKind
    case Text(_) => StringKind
    case Integer(t, _) => IntKind(t)
    case Floating(t, _) => FloatKind(t)
    case Composite(_) => OtherKind
  }

  /** What the single-value container stores for a value: the `Data` itself, the byte of a
      `Bool`, the UTF-8 of a `String`, the in-memory bytes of a number; any other type is
      refused with `unsupportedValue`. */
  function SingleValueEncoding(v: Value): (r: Result<Data, CodingError>)
    requires v.WellFormed()
    ensures r.Err? <==> v.Composite?
    ensures r.Err? ==> r.error == UnsupportedValue
    ensures v.Bytes? ==> r == Ok(v.data)
    ensures v.Boolean? ==> r.Ok? && |r.value| == 1
    ensures v.Integer? ==> r.Ok? && |r.value| == v.intType.Size()
    ensures v.Floating? ==> r.Ok? && |r.value| == v.floatType.Size()
  {
    match v
    case Bytes(d) => Ok(d)
    case Boolean(b) => Ok([if b then 1 else 0])
    case Text(s) => Ok(Utf8Encode(s))
    case Integer(t, n) => Ok(LittleEndian(TwosComplement(t, n), t.Size()))
    case Floating(t, bits) => Ok(LittleEndian(bits, t.Size()))
    case Composite(_) => Err(UnsupportedValue)
  }

  // -------------------------------------------------------------- Encoding

  /** The three containers an `Encoder` or `Decoder` hands out. */
  datatype Container = SingleValue | Unkeyed | Keyed

  /** An encoding operation on a container (the key of a keyed operation plays no part). */
  datatype EncodeOp = PutNil | Put(value: Value)

  /** One call made by a value's `encode(to:)`; calls through `superEncoder()` and through
      nested containers are calls of the same kinds. */
  datatype EncoderCall = EncoderCall(container: Container, op: EncodeOp)
  {
    predicate WellFormed()
    {
      op.Put? ==> op.value.WellFormed()
    }
  }

  /** The calls that do not throw: single-value calls with a value of a supported type. */
  predicate Accepted(call: EncoderCall)
  {
    call.container == SingleValue && !(call.op.Put? && call.op.value.Composite?)
  }

  /** The slot after one call, or the error the call throws. */
  function Step(slot: Option<Data>, call: EncoderCall): (r: Result<Option<Data>, CodingError>)
    requires call.WellFormed()
    ensures r.Ok? <==> Accepted(call)
    ensures r.Err? && call.op.Put? && call.op.value.IsGeneric() && call.container != Keyed ==> r.error == UnsupportedValue
    ensures r.Err? && !(call.op.Put? && call.op.value.IsGeneric() && call.container != Keyed) ==> r.error == UnsupportedContainerType
  {
    match call.container
    case SingleValue =>
      (match call.op
       case PutNil => Ok(None)
       case Put(v) => match SingleValueEncoding(v) case Ok(d) => Ok(Some(d)) case Err(e) => Err(e))
    case Unkeyed =>
      if call.op.Put? && call.op.value.IsGeneric() then Err(UnsupportedValue) else Err(UnsupportedContainerType)
    case Keyed => Err(UnsupportedContainerType)
  }

  /** The slot after a sequence of calls, or the first error thrown. */
  function Run(slot: Option<Data>, calls: seq<EncoderCall>): (r: Result<Option<Data>, CodingError>)
    requires forall i :: 0 <= i < |calls| ==> calls[i].WellFormed()
    ensures r.Ok? <==> forall i :: 0 <= i < |calls| ==> Accepted(calls[i])
    decreases |calls|
  {
    if calls == [] then Ok(slot)
    else match Step(slot, calls[0])
      case Err(e) => Err(e)
      case Ok(next) => Run(next, calls[1..])
  }

  /** `DataEncoder.encode(_:)`: the slot's `Data`, empty when nothing (or nil) was left in it. */
  function EncodeSpec(calls: seq<EncoderCall>): (r: Result<Data, CodingError>)
    requires forall i :: 0 <= i < |calls| ==> calls[i].WellFormed()
    ensures r.Ok? <==> forall i :: 0 <= i < |calls| ==> Accepted(calls[i])
    ensures calls == [] ==> r == Ok([])
  {
    match Run(None, calls)
    case Ok(slot) => Ok(slot.GetOr([]))
    case Err(e) => Err(e)
  }

  /** Running two sequences of calls is running the first, then the second from its slot. */
  lemma {:induction false} RunAppend(slot: Option<Data>, first: seq<EncoderCall>, second: seq<EncoderCall>)
    requires forall i :: 0 <= i < |first| ==> first[i].WellFormed()
    requires forall i :: 0 <= i < |second| ==> second[i].WellFormed()
    ensures forall i :: 0 <= i < |first + second| ==> (first + second)[i].WellFormed()
    ensures Run(slot, first + second) == match Run(slot, first) case Ok(s) => Run(s, second) case Err(e) => Err(e)
    decreases |first|
  {
    assert forall i :: 0 <= i < |first + second| ==> (first + second)[i].WellFormed() by {
      forall i | 0 <= i < |first + second| ensures (first + second)[i].WellFormed() {
        if i < |first| { assert (first + second)[i] == first[i]; }
        else { assert (first + second)[i] == second[i - |first|]; }
      }
    }
    if first != [] {
      assert (first + second)[0] == first[0];
      assert (first + second)[1..] == first[1..] + second;
      match Step(slot, first[0])
      case Err(e) =>
        assert Run(slot, first + second) == Err(e);
      case Ok(next) =>
        RunAppend(next, first[1..], second);
        assert Run(slot, first + second) == Run(next, first[1..] + second);
    } else {
      assert first + second == second;
    }
  }

  /** The last successful single-value encode decides the result. */
  lemma LastWriteWins(calls: seq<EncoderCall>, v: Value)
    requires forall i :: 0 <= i < |calls| ==> calls[i].WellFormed()
    requires v.WellFormed() && !v.Composite? && Run(None, calls).Ok?
    ensures forall i :: 0 <= i < |calls + [EncoderCall(SingleValue, Put(v))]| ==> (calls + [EncoderCall(SingleValue, Put(v))])[i].WellFormed()
    ensures EncodeSpec(calls + [EncoderCall(SingleValue, Put(v))]) == SingleValueEncoding(v)
  {
    RunAppend(None, calls, [EncoderCall(SingleValue, Put(v))]);
  }

  /** A trailing `encodeNil()` clears the slot, so the encoder returns empty `Data`. */
  lemma NilClearsSlot(calls: seq<EncoderCall>)
    requires forall i :: 0 <= i < |calls| ==> calls[i].WellFormed()
    requires Run(None, calls).Ok?
    ensures forall i :: 0 <= i < |calls + [EncoderCall(SingleValue, PutNil)]| ==> (calls + [EncoderCall(SingleValue, PutNil)])[i].WellFormed()
    ensures EncodeSpec(calls + [EncoderCall(SingleValue, PutNil)]) == Ok([])
  {
    RunAppend(None, calls, [EncoderCall(SingleValue, PutNil)]);
  }

  /** Any call on a keyed or unkeyed container makes the whole encode throw. */
  lemma ContainerCallFails(calls: seq<EncoderCall>, call: EncoderCall, rest: seq<EncoderCall>)
    requires forall i :: 0 <= i < |calls| ==> calls[i].WellFormed()
    requires forall i :: 0 <= i < |rest| ==> rest[i].WellFormed()
    requires call.WellFormed() && call.container != SingleValue && Run(None, calls).Ok?
    ensures forall i :: 0 <= i < |calls + [call] + rest| ==> (calls + [call] + rest)[i].WellFormed()
    ensures EncodeSpec(calls + [call] + rest).Err?
  {
    RunAppend(None, calls, [call]);
    RunAppend(None, calls + [call], rest);
  }

  /** `EncoderImplementation`: the single-value container is the encoder itself. */
  class EncoderImplementation {
    var data: Option<Data>

    constructor ()
      ensures data == None
    {
      data := None;
    }

    /** `encodeNil()`. */
    method EncodeNil()
      modifies this
      ensures data == None
    {
      data := None;
    }

    /** The single-value `encode` overloads, one case per overload (the `Data`, `Bool`,
        `String`, integer and floating-point ones, and the generic one that throws): the slot is
        overwritten with what SingleValueEncoding specifies, or the call throws and leaves it
        alone. */
    method Encode(v: Value) returns (r: Result<(), CodingError>)
      requires v.WellFormed()
      modifies this
      ensures SingleValueEncoding(v).Ok? ==> r.Ok? && data == Some(SingleValueEncoding(v).value)
      ensures SingleValueEncoding(v).Err? ==> r == Err(SingleValueEncoding(v).error) && data == old(data)
    {
      match v
      case Bytes(d) =>
        data := Some(d);
        r := Ok(());
      case Boolean(b) =>
        data := Some([if b then 1 else 0]);
        r := Ok(());
      case Text(s) =>
        data := Some(Utf8Encode(s));
        r := Ok(());
      case Integer(t, n) =>
        data := Some(LittleEndian(TwosComplement(t, n), t.Size()));
        r := Ok(());
      case Floating(t, bits) =>
        data := Some(LittleEndian(bits, t.Size()));
        r := Ok(());
      case Composite(_) =>
        r := Err(UnsupportedValue);
    }

    /** A call on one of the encoder's containers: the unkeyed and keyed containers throw
        without touching the slot. */
    method Perform(call: EncoderCall) returns (r: Result<(), CodingError>)
      requires call.WellFormed()
      modifies this
      ensures Step(old(data), call).Ok? ==> r.Ok? && data == Step(old(data), call).value
      ensures Step(old(data), call).Err? ==> r == Err(Step(old(data), call).error) && data == old(data)
    {
      match call.container
      case SingleValue =>
        match call.op {
          case PutNil =>
            EncodeNil();
            r := Ok(());
          case Put(v) =>
            r := Encode(v);
        }
      case Unkeyed =>
        if call.op.Put? && call.op.value.IsGeneric() {
          r := Err(UnsupportedValue);
        } else {
          r := Err(UnsupportedContainerType);
        }
      case Keyed =>
        r := Err(UnsupportedContainerType);
    }
  }

  /** `DataEncoder.encode(_:)`: a fresh encoder receives the calls the value's `encode(to:)`
      makes, stopping at the first that throws; the result is the slot's `Data`, or empty
      `Data` when the slot is empty. */
  method Encode(calls: seq<EncoderCall>) returns (r: Result<Data, CodingError>)
    requires forall i :: 0 <= i < |calls| ==> calls[i].WellFormed()
    ensures r == EncodeSpec(calls)
  {
    var encoder := new EncoderImplementation();
    var i := 0;
    while i < |calls|
      invariant 0 <= i <= |calls|
      invariant Run(None, calls) == Run(encoder.data, calls[i..])
    {
      assert calls[i..][1..] == calls[i + 1..];
      var outcome := encoder.Perform(calls[i]);
      if outcome.Err? {
        return Err(outcome.error);
      }
      i := i + 1;
    }
    return Ok(encoder.data.GetOr([]));
  }

  // -------------------------------------------------------------- Decoding

  /** `DecoderImplementation`: the single-value container is the decoder itself, over the
      whole buffer. */
  datatype DecoderImplementation = DecoderImplementation(data: Data)
  {
    /** `decodeNil()`: the buffer never holds nil. */
    function DecodeNil(): (isNil: bool)
      ensures !isNil
    {
      false
    }

    /** The buffers the unchecked reads accept: enough bytes for a fixed-width value, and a
        `Bool` byte of 0 or 1. */
    predicate Readable(kind: ValueKind)
    {
      match kind
      case BoolKind => 1 <= |data| && data[0] <= 1
      case IntKind(t) => t.Size() <= |data|
      case FloatKind(t) => t.Size() <= |data|
      case _ => true
    }

    /** The single-value `decode` overloads. `DataDecoder.decode(_:from:)` of a type that reads
        one value of `kind` is `DecoderImplementation(data).Decode(kind)`. A `Bool` is true
        when its byte is 1; a fixed-width number is read from the buffer's first bytes. */
    function Decode(kind: ValueKind): (r: Result<Value, CodingError>)
      requires Readable(kind)
      ensures r.Ok? ==> KindOf(r.value) == kind && r.value.WellFormed()
      ensures kind == DataKind ==> r == Ok(Bytes(data))
      ensures kind == BoolKind ==> r == Ok(Boolean(data[0] == 1))
      ensures kind.IntKind? ==>
        r == Ok(Integer(kind.intType, FromTwosComplement(kind.intType, FromLittleEndian(data[..kind.intType.Size()]))))
      ensures kind.FloatKind? ==> r == Ok(Floating(kind.floatType, FromLittleEndian(data[..kind.floatType.Size()])))
      ensures kind == StringKind ==> (r.Ok? <==> Utf8Decode(data).Some?)
      ensures kind == StringKind && Utf8Decode(data).Some? ==> r == Ok(Text(Utf8Decode(data).value))
      ensures kind == OtherKind ==> r == Err(UnsupportedValue)
      ensures r.Err? ==> r.error == UnsupportedValue
    {
      match kind
      case DataKind => Ok(Bytes(data))
      case BoolKind => Ok(Boolean(data[0] == 1))
      case StringKind =>
        (match Utf8Decode(data)
         case Some(s) => Ok(Text(s))
         case None => Err(UnsupportedValue))
      case IntKind(t) => Ok(Integer(t, FromTwosComplement(t, FromLittleEndian(data[..t.Size()]))))
      case FloatKind(t) => Ok(Floating(t, FromLittleEndian(data[..t.Size()])))
      case OtherKind => Err(UnsupportedValue)
    }
  }

  /** A decoding operation on a container (keys play no part). */
  datatype DecodeOp = TakeNil | Take(kind: ValueKind)

  /** The answer to a decoding operation: whether the value is nil, or the value. */
  datatype Decoded = IsNil(isNil: bool) | Got(value: Value)

  /** A decoding operation on one of the decoder's containers: the single-value container
      reads the buffer; the unkeyed and keyed containers throw `unsupportedContainerType`. */
  function DecodeIn(decoder: DecoderImplementation, container: Container, op: DecodeOp): (r: Result<Decoded, CodingError>)
    requires container == SingleValue && op.Take? ==> decoder.Readable(op.kind)
    ensures container != SingleValue ==> r == Err(UnsupportedContainerType)
    ensures container == SingleValue && op.TakeNil? ==> r == Ok(IsNil(false))
  {
    match container
    case SingleValue =>
      (match op
       case TakeNil => Ok(IsNil(decoder.DecodeNil()))
       case Take(kind) => match decoder.Decode(kind) case Ok(v) => Ok(Got(v)) case Err(e) => Err(e))
    case _ => Err(UnsupportedContainerType)
  }

  /** The unkeyed decoding container is empty: `count` 0, `isAtEnd`, `currentIndex` 0. */
  const UnkeyedCount: Option<nat> := Some(0)
  const UnkeyedIsAtEnd: bool := true
  const UnkeyedCurrentIndex: nat := 0

  /** The keyed decoding container has no keys. */
  const KeyedAllKeys: seq<string> := []

  function KeyedContains(key: string): (present: bool)
    ensures !present
    ensures present <==> key in KeyedAllKeys
  {
    false
  }

  /** Every value the encoder accepts decodes back to itself from the encoded `Data`. */
  lemma DecodeAfterEncode(v: Value)
    requires v.WellFormed() && !v.Composite?
    ensures var d := EncodeSpec([EncoderCall(SingleValue, Put(v))]);
      d.Ok? && DecoderImplementation(d.value).Readable(KindOf(v)) && DecoderImplementation(d.value).Decode(KindOf(v)) == Ok(v)
  {
    var d := SingleValueEncoding(v).value;
    var call := EncoderCall(SingleValue, Put(v));
    assert [call][0] == call && [call][1..] == [];
    assert Step(None, call) == Ok(Some(d));
    assert Run(None, [call]) == Run(Some(d), []);
    assert EncodeSpec([EncoderCall(SingleValue, Put(v))]) == Ok(d);
    match v
    case Bytes(_) =>
    case Boolean(_) =>
    case Text(s) => Utf8RoundTrip(s);
    case Integer(t, n) =>
      assert d[..t.Size()] == d;
      LittleEndianRoundTrip(TwosComplement(t, n), t.Size());
      IntRoundTrip(t, n);
    case Floating(t, bits) =>
      assert d[..t.Size()] == d;
      LittleEndianRoundTrip(bits, t.Size());
    case Composite(_) =>
  }

  lemma IntRoundTrip(t: IntType, n: int)
    requires t.InRange(n)
    ensures FromTwosComplement(t, TwosComplement(t, n)) == n
  {
    assert t.Modulus() == 256 * Pow256(t.Size() - 1);
  }

  /** Decoding a `String` succeeds exactly on well-formed UTF-8, and otherwise throws
      `unsupportedValue`. */
  lemma DecodeStringIffUtf8(data: Data)
    ensures DecoderImplementation(data).Decode(StringKind).Ok? <==> ValidUtf8(data)
    ensures DecoderImplementation(data).Decode(StringKind).Err? ==> DecoderImplementation(data).Decode(StringKind).error == UnsupportedValue
  {
    Utf8DecodeSucceedsIffValid(data);
  }

  /** A `Data` wrapped in a type that encodes it through the single-value container comes back
      unchanged, and is the encoded buffer itself. */
  lemma DataRoundTrip(d: Data)
    ensures EncodeSpec([EncoderCall(SingleValue, Put(Bytes(d)))]) == Ok(d)
    ensures DecoderImplementation(d).Decode(DataKind) == Ok(Bytes(d))
  {
    DecodeAfterEncode(Bytes(d));
  }
}
