/** The protobuf wire-format walker of the Antigravity adapter (internal/adapters/antigravity/antigravity.go). */
module Protobuf {
  import opened Wrappers
  import opened RecordReader

  const TWO_64: nat := 0x1_0000_0000_0000_0000
  const MAX_VARINT: nat := 10

  // ----- Varints -----

  /** The base-128 number whose digits are the low seven bits of the bytes, least significant first. */
  function VarintValue(bytes: seq<byte>): nat {
    if bytes == [] then 0 else (bytes[0] as int) % 128 + 128 * VarintValue(bytes[1..])
  }

  /** The length of the varint at the start of `data`: up to the first byte without a continuation bit. */
  function VarintEnd(data: seq<byte>): (n: nat)
    ensures n <= |data|
    ensures n > 0 ==> data[n - 1] < 128 && forall k :: 0 <= k < n - 1 ==> data[k] >= 128
    ensures n == 0 ==> forall k :: 0 <= k < |data| ==> data[k] >= 128
  {
    if data == [] then 0
    else if data[0] < 128 then 1
    else
      var n := VarintEnd(data[1..]);
      if n == 0 then 0 else n + 1
  }

  /** Exactly the varints of at most ten bytes whose value fits 64 bits. */
  function DecodeVarint(data: seq<byte>): Option<(nat, nat)> {
    var n := VarintEnd(data);
    if n == 0 || n > MAX_VARINT || VarintValue(data[..n]) >= TWO_64 then None
    else Some((VarintValue(data[..n]), n))
  }

  function Pow128(n: nat): (p: nat)
    ensures p > 0
  {
    if n == 0 then 1 else 128 * Pow128(n - 1)
  }

  lemma {:induction false} ValueOfMore(bytes: seq<byte>, b: byte)
    ensures VarintValue(bytes + [b]) == VarintValue(bytes) + (b as int) % 128 * Pow128(|bytes|)
    ensures VarintValue(bytes) < Pow128(|bytes|)
  {
    if bytes == [] {
      assert [b][1..] == [];
    } else {
      assert (bytes + [b])[1..] == bytes[1..] + [b];
      ValueOfMore(bytes[1..], b);
      var p, d := Pow128(|bytes| - 1), (b as int) % 128;
      assert 128 * (d * p) == d * (128 * p);
    }
  }

  lemma TenDigits()
    ensures Pow128(9) * 2 == TWO_64
  {
    assert Pow128(4) == 128 * 128 * 128 * 128;
    assert Pow128(8) == 128 * 128 * 128 * 128 * Pow128(4);
  }

  lemma {:induction false} PowersGrow(m: nat, n: nat)
    requires m <= n
    ensures Pow128(m) <= Pow128(n)
  {
    if m < n {
      PowersGrow(m, n - 1);
    }
  }

  /** The digits land on bits that are still zero, so adding them is the program's bitwise or, and no bit is shifted
      out. */
  method ConsumeVarint(data: seq<byte>) returns (value: nat, size: nat, ok: bool)
    ensures (if ok then Some((value, size)) else None) == DecodeVarint(data)
  {
    value := 0;
    for i := 0 to |data|
      invariant i <= 9
      invariant forall k :: 0 <= k < i ==> data[k] >= 128
      invariant value == VarintValue(data[..i])
    {
      var b := data[i];
      TenDigits();
      ValueOfMore(data[..i], b);
      assert data[..i] + [b] == data[..i + 1];
      if i == 10 || (i == 9 && b > 1) {
        LateEnd(data, i);
        return 0, 0, false;
      }
      value := value + (b as int) % 128 * Pow128(i);
      if b < 0x80 {
        EndsAt(data, i);
        ValueFits(data[..i + 1]);
        return value, i + 1, true;
      }
    }
    return 0, 0, false;
  }

  lemma EndsAt(data: seq<byte>, i: nat)
    requires i < |data| && data[i] < 128 && forall k :: 0 <= k < i ==> data[k] >= 128
    ensures VarintEnd(data) == i + 1
  {
    var n := VarintEnd(data);
    assert n > i;
  }

  /** A tenth byte above one, continued or not, makes the number too long or too large. */
  lemma LateEnd(data: seq<byte>, i: nat)
    requires i < |data| && i == 9 && data[9] > 1 && forall k :: 0 <= k < 9 ==> data[k] >= 128
    ensures DecodeVarint(data) == None
  {
    if data[9] < 128 {
      EndsAt(data, 9);
      ValueOfMore(data[..9], data[9]);
      assert data[..9] + [data[9]] == data[..10];
      TenDigits();
      assert (data[9] as int) % 128 * Pow128(9) >= 2 * Pow128(9);
    } else {
      assert !(0 < VarintEnd(data) <= 10);
    }
  }

  lemma ValueFits(bytes: seq<byte>)
    requires 0 < |bytes| <= 10 && (|bytes| == 10 ==> bytes[9] <= 1)
    ensures VarintValue(bytes) < TWO_64
  {
    var n := |bytes| - 1;
    ValueOfMore(bytes, 0);
    ValueOfMore(bytes[..n], bytes[n]);
    assert bytes[..n] + [bytes[n]] == bytes;
    TenDigits();
    if n < 9 {
      PowersGrow(n + 1, 9);
    }
  }

  /** The inverse: least significant digit first, every byte but the last with its continuation bit set. */
  function EncodeVarint(v: nat): (bytes: seq<byte>)
    ensures |bytes| > 0
  {
    if v < 128 then [v as byte] else [(128 + v % 128) as byte] + EncodeVarint(v / 128)
  }

  lemma {:induction false} EncodedLength(v: nat, n: nat)
    requires n > 0 && v < Pow128(n)
    ensures |EncodeVarint(v)| <= n
  {
    if v >= 128 {
      assert n > 1;
      EncodedLength(v / 128, n - 1);
    }
  }

  lemma {:induction false} EncodedValue(v: nat, rest: seq<byte>)
    ensures
      var bytes := EncodeVarint(v);
      VarintEnd(bytes + rest) == |bytes| && VarintValue(bytes) == v
  {
    var bytes := EncodeVarint(v);
    if v < 128 {
      assert bytes[1..] == [];
    } else {
      EncodedValue(v / 128, rest);
      var digit := 128 + v % 128;
      assert digit % 128 == v % 128 && bytes[0] as int == digit;
      assert bytes[1..] == EncodeVarint(v / 128);
      assert (bytes + rest)[1..] == EncodeVarint(v / 128) + rest;
    }
  }

  /** Every 64-bit value survives the round trip, whatever bytes follow. */
  lemma VarintRoundTrip(v: nat, rest: seq<byte>)
    requires v < TWO_64
    ensures |EncodeVarint(v)| <= MAX_VARINT
    ensures DecodeVarint(EncodeVarint(v) + rest) == Some((v, |EncodeVarint(v)|))
  {
    TenDigits();
    EncodedLength(v, 10);
    EncodedValue(v, rest);
    assert (EncodeVarint(v) + rest)[..|EncodeVarint(v)|] == EncodeVarint(v);
  }

  // ----- Fields -----

  /** What follows the key of a field of the given wire type: the bytes to skip and the bytes to report. */
  function TakeValue(data: seq<byte>, wire: nat): (r: Option<(nat, seq<byte>)>)
    ensures r.Some? ==> r.value.0 <= |data|
  {
    if wire == 0 then
      match DecodeVarint(data)
      case None => None
      case Some((_, size)) => Some((size, data[..size]))
    else if wire == 1 then
      if |data| < 8 then None else Some((8, []))
    else if wire == 2 then
      match DecodeVarint(data)
      case None => None
      case Some((length, size)) =>
        if length > |data| - size then None else Some((size + length, data[size..size + length]))
    else if wire == 5 then
      if |data| < 4 then None else Some((4, []))
    else None
  }

  /** One field of a message: its number, its wire type, what it reports and how many bytes it takes. */
  datatype Piece = Piece(number: nat, wire: nat, value: seq<byte>, size: nat)

  function NextField(data: seq<byte>): (piece: Option<Piece>)
    ensures piece.Some? ==> 0 < piece.value.size <= |data|
  {
    match DecodeVarint(data)
    case None => None
    case Some((key, n)) =>
      match TakeValue(data[n..], key % 8)
      case None => None
      case Some((skip, value)) => Some(Piece(key / 8, key % 8, value, n + skip))
  }

  predicate Wanted(piece: Piece, wanted: nat, wantedWire: nat) {
    (piece.wire == 0 || piece.wire == 2) && piece.number == wanted && piece.wire == wantedWire
  }

  function FindField(data: seq<byte>, wanted: nat, wantedWire: nat): Option<seq<byte>>
    decreases |data|
  {
    if data == [] then None
    else
      var piece := NextField(data);
      if piece.None? then None
      else if Wanted(piece.value, wanted, wantedWire) then Some(piece.value.value)
      else FindField(data[piece.value.size..], wanted, wantedWire)
  }

  /** The switch over the wire type. */
  method ConsumeValue(data: seq<byte>, wire: nat) returns (taken: Option<(nat, seq<byte>)>)
    ensures taken == TakeValue(data, wire)
  {
    if wire == 0 {
      var _, size, ok := ConsumeVarint(data);
      return if ok then Some((size, data[..size])) else None;
    } else if wire == 1 {
      return if |data| < 8 then None else Some((8, []));
    } else if wire == 2 {
      var length, size, ok := ConsumeVarint(data);
      if !ok || length > |data| - size {
        return None;
      }
      return Some((size + length, data[size..size + length]));
    } else if wire == 5 {
      return if |data| < 4 then None else Some((4, []));
    }
    taken := None;
  }

  method ConsumeField(data: seq<byte>) returns (piece: Option<Piece>)
    ensures piece == NextField(data)
  {
    var key, n, ok := ConsumeVarint(data);
    if !ok {
      return None;
    }
    var field, wire := key / 8, key % 8;
    var taken := ConsumeValue(data[n..], wire);
    if taken.None? {
      return None;
    }
    piece := Some(Piece(field, wire, taken.value.1, n + taken.value.0));
  }

  method ProtobufField(message: seq<byte>, wanted: nat, wantedWire: nat) returns (found: Option<seq<byte>>)
    ensures found == FindField(message, wanted, wantedWire)
  {
    var data := message;
    while |data| > 0
      invariant FindField(data, wanted, wantedWire) == FindField(message, wanted, wantedWire)
      decreases |data|
    {
      var piece := ConsumeField(data);
      if piece.None? {
        return None;
      }
      if Wanted(piece.value, wanted, wantedWire) {
        return Some(piece.value.value);
      }
      data := data[piece.value.size..];
    }
    found := None;
  }

  // ----- Encoded messages -----

  datatype Field =
    | VarintField(number: nat, value: nat)
    | Fixed64Field(number: nat, fixed: seq<byte>)
    | BytesField(number: nat, bytes: seq<byte>)
    | Fixed32Field(number: nat, fixed: seq<byte>)
  {
    function Wire(): nat {
      match this
      case VarintField(_, _) => 0
      case Fixed64Field(_, _) => 1
      case BytesField(_, _) => 2
      case Fixed32Field(_, _) => 5
    }

    predicate Valid() {
      && number * 8 + Wire() < TWO_64
      && (VarintField? ==> value < TWO_64)
      && (Fixed64Field? ==> |fixed| == 8)
      && (BytesField? ==> |bytes| < TWO_64)
      && (Fixed32Field? ==> |fixed| == 4)
    }

    function Payload(): seq<byte> {
      match this
      case VarintField(_, v) => EncodeVarint(v)
      case Fixed64Field(_, b) => b
      case BytesField(_, b) => EncodeVarint(|b|) + b
      case Fixed32Field(_, b) => b
    }

    /** What the walker reports for a field it is asked for. */
    function Reported(): seq<byte> {
      if BytesField? then bytes else Payload()
    }
  }

  function EncodeMessage(fields: seq<Field>): seq<byte> {
    if fields == [] then []
    else EncodeVarint(fields[0].number * 8 + fields[0].Wire()) + (fields[0].Payload() + EncodeMessage(fields[1..]))
  }

  /** The first varint or bytes field with the wanted number and type. */
  function FirstField(fields: seq<Field>, wanted: nat, wantedWire: nat): Option<Field> {
    if fields == [] then None
    else if (fields[0].VarintField? || fields[0].BytesField?) && fields[0].number == wanted &&
      fields[0].Wire() == wantedWire then
      Some(fields[0])
    else FirstField(fields[1..], wanted, wantedWire)
  }

  lemma PayloadTaken(field: Field, rest: seq<byte>)
    requires field.Valid()
    ensures
      var taken := TakeValue(field.Payload() + rest, field.Wire());
      taken.Some? && taken.value.0 == |field.Payload()| &&
      (field.VarintField? || field.BytesField? ==> taken.value.1 == field.Reported())
  {
    match field
    case VarintField(_, v) =>
      VarintRoundTrip(v, rest);
      assert (EncodeVarint(v) + rest)[..|EncodeVarint(v)|] == EncodeVarint(v);
    case BytesField(_, b) =>
      VarintRoundTrip(|b|, b + rest);
      var data := EncodeVarint(|b|) + b + rest;
      assert data == EncodeVarint(|b|) + (b + rest);
      assert data[|EncodeVarint(|b|)|..|EncodeVarint(|b|)| + |b|] == b;
    case Fixed64Field(_, _) =>
    case Fixed32Field(_, _) =>
  }

  /** On every encoded message the walk finds the first field asked for, or none. */
  lemma {:induction false} FieldFound(fields: seq<Field>, wanted: nat, wantedWire: nat)
    requires forall i :: 0 <= i < |fields| ==> fields[i].Valid()
    ensures FindField(EncodeMessage(fields), wanted, wantedWire) ==
      match FirstField(fields, wanted, wantedWire) case None => None case Some(f) => Some(f.Reported())
  {
    if fields == [] {
    } else {
      OneField(fields[0], EncodeMessage(fields[1..]), wanted, wantedWire);
      FieldFound(fields[1..], wanted, wantedWire);
    }
  }

  lemma OneField(field: Field, rest: seq<byte>, wanted: nat, wantedWire: nat)
    requires field.Valid()
    ensures
      var data := EncodeVarint(field.number * 8 + field.Wire()) + (field.Payload() + rest);
      FindField(data, wanted, wantedWire) ==
        if (field.VarintField? || field.BytesField?) && field.number == wanted && field.Wire() == wantedWire then
          Some(field.Reported())
        else FindField(rest, wanted, wantedWire)
  {
    var piece := FieldParsed(field, rest);
    var data := EncodeVarint(field.number * 8 + field.Wire()) + (field.Payload() + rest);
    assert data[piece.size..] == rest;
  }

  lemma FieldParsed(field: Field, rest: seq<byte>) returns (piece: Piece)
    requires field.Valid()
    ensures
      var code := EncodeVarint(field.number * 8 + field.Wire());
      NextField(code + (field.Payload() + rest)) == Some(piece) && piece.size == |code| + |field.Payload()|
    ensures piece.number == field.number && piece.wire == field.Wire()
    ensures field.VarintField? || field.BytesField? ==> piece.value == field.Reported()
  {
    var key := field.number * 8 + field.Wire();
    assert key / 8 == field.number && key % 8 == field.Wire();
    var code := EncodeVarint(key);
    var data := code + (field.Payload() + rest);
    VarintRoundTrip(key, field.Payload() + rest);
    assert data[|code|..] == field.Payload() + rest;
    PayloadTaken(field, rest);
    piece := NextField(data).value;
  }

  // ----- Nested fields -----

  function FindBytes(data: seq<byte>, path: seq<nat>): Option<seq<byte>>
    decreases |path|
  {
    if path == [] then None
    else
      match FindField(data, path[0], 2)
      case None => None
      case Some(value) => if |path| == 1 then Some(value) else FindBytes(value, path[1..])
  }

  method ProtobufBytesField(message: seq<byte>, path: seq<nat>) returns (found: Option<seq<byte>>)
    ensures found == FindBytes(message, path)
  {
    var data := message;
    for i := 0 to |path|
      invariant i < |path| ==> FindBytes(data, path[i..]) == FindBytes(message, path)
      invariant i == |path| ==> path == []
    {
      var value := ProtobufField(data, path[i], 2);
      if value.None? {
        return None;
      }
      data := value.value;
      assert path[i..][1..] == path[i + 1..];
      if i == |path| - 1 {
        return Some(data);
      }
    }
    found := None;
  }

  /** A bytes field reached through encoded messages: each step descends into the first field of its number. */
  lemma NestedFieldFound(fields: seq<Field>, first: Field, inner: seq<Field>, path: seq<nat>)
    requires forall i :: 0 <= i < |fields| ==> fields[i].Valid()
    requires |path| > 1 && FirstField(fields, path[0], 2) == Some(first)
    requires first.BytesField? && first.bytes == EncodeMessage(inner)
    ensures FindBytes(EncodeMessage(fields), path) == FindBytes(EncodeMessage(inner), path[1..])
  {
    FieldFound(fields, path[0], 2);
  }

  method ProtobufVarintField(message: seq<byte>, path: seq<nat>) returns (found: Option<nat>)
    ensures path == [] ==> found == None
    ensures path != [] ==>
      var last := path[|path| - 1];
      var holder := if |path| == 1 then Some(message) else FindBytes(message, path[..|path| - 1]);
      var value := if holder.None? then None else FindField(holder.value, last, 0);
      found == (if value.None? || DecodeVarint(value.value).None? then None
                else Some(DecodeVarint(value.value).value.0))
  {
    if path == [] {
      return None;
    }
    var data := message;
    if |path| > 1 {
      var holder := ProtobufBytesField(message, path[..|path| - 1]);
      if holder.None? {
        return None;
      }
      data := holder.value;
    }
    var value := ProtobufField(data, path[|path| - 1], 0);
    if value.None? {
      return None;
    }
    var number, _, ok := ConsumeVarint(value.value);
    found := if ok then Some(number) else None;
  }

  /** Reading back a varint field of an encoded message gives the number that was encoded. */
  lemma VarintFieldValue(fields: seq<Field>, wanted: nat, v: nat)
    requires forall i :: 0 <= i < |fields| ==> fields[i].Valid()
    requires FirstField(fields, wanted, 0) == Some(VarintField(wanted, v)) && v < TWO_64
    ensures
      var value := FindField(EncodeMessage(fields), wanted, 0);
      value.Some? && DecodeVarint(value.value) == Some((v, |value.value|))
  {
    FieldFound(fields, wanted, 0);
    VarintRoundTrip(v, []);
    assert EncodeVarint(v) + [] == EncodeVarint(v);
  }
}
