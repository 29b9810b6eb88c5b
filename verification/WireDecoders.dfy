/**
 Decoders of the Parse and Bind messages and the DataRow encoder, against the
 message formats of section 53.7 of the PostgreSQL 14 documentation.  Strings
 are kept as bytes.
 */
module WireDecoders {
  import opened Wrappers
  import opened WireBytes

  datatype ParseMessage = ParseMessage(name: seq<Byte>, sql: seq<Byte>, parameterOids: seq<U32>)

  datatype BindMessage = BindMessage(
    portal: seq<Byte>,
    statement: seq<Byte>,
    parameterFormats: seq<U16>,
    parameterValues: seq<Option<seq<Byte>>>,
    resultFormats: seq<U16>
  )

  // ---- the formats ----

  function Put16s(ns: seq<U16>): (b: seq<Byte>)
    ensures |b| == 2 * |ns|
  {
    if ns == [] then [] else Put16s(ns[..|ns| - 1]) + PutU16(ns[|ns| - 1])
  }

  function Put32s(ns: seq<U32>): (b: seq<Byte>)
    ensures |b| == 4 * |ns|
  {
    if ns == [] then [] else Put32s(ns[..|ns| - 1]) + PutU32(ns[|ns| - 1])
  }

  function PutCounted16(ns: seq<U16>): seq<Byte>
    requires |ns| < 0x1_0000
  {
    PutU16(|ns|) + Put16s(ns)
  }

  /** A length word and the value; any negative length says NULL. */
  predicate ValueFits(v: Option<seq<Byte>>, length: I32) {
    if v.Some? then length == |v.value| else length < 0
  }

  function PutValue(v: Option<seq<Byte>>, length: I32): seq<Byte>
    requires ValueFits(v, length)
  {
    PutI32(length) + if v.Some? then v.value else []
  }

  predicate ValuesFit(vs: seq<Option<seq<Byte>>>, lengths: seq<I32>) {
    |vs| == |lengths| && forall k :: 0 <= k < |vs| ==> ValueFits(vs[k], lengths[k])
  }

  function PutValues(vs: seq<Option<seq<Byte>>>, lengths: seq<I32>): seq<Byte>
    requires ValuesFit(vs, lengths)
  {
    if vs == [] then []
    else
      var last := |vs| - 1;
      PutValues(vs[..last], lengths[..last]) + PutValue(vs[last], lengths[last])
  }

  predicate ParseFits(m: ParseMessage) {
    0 !in m.name && 0 !in m.sql && |m.parameterOids| < 0x1_0000
  }

  function PutParse(m: ParseMessage): seq<Byte>
    requires ParseFits(m)
  {
    PutCString(m.name) + PutCString(m.sql) + PutU16(|m.parameterOids|) + Put32s(m.parameterOids)
  }

  predicate BindFits(m: BindMessage, lengths: seq<I32>) {
    && 0 !in m.portal && 0 !in m.statement && |m.parameterFormats| < 0x1_0000 && |m.resultFormats| < 0x1_0000
    && |m.parameterValues| < 0x1_0000 && ValuesFit(m.parameterValues, lengths)
  }

  function PutBind(m: BindMessage, lengths: seq<I32>): seq<Byte>
    requires BindFits(m, lengths)
  {
    PutCString(m.portal) + PutCString(m.statement) + PutCounted16(m.parameterFormats)
    + PutU16(|m.parameterValues|) + PutValues(m.parameterValues, lengths) + PutCounted16(m.resultFormats)
  }

  // ---- the decoders, as functions of the body ----

  datatype Read<T> = Read(value: T, next: nat)

  function Read16s(b: seq<Byte>, o: nat, count: nat): Result<seq<U16>, DecodeError> {
    if count == 0 then Ok([])
    else
      match Read16s(b, o, count - 1)
      case Err(e) => Err(e)
      case Ok(front) =>
        match ReadU16(b, o + 2 * (count - 1))
        case Err(e) => Err(e)
        case Ok(n) => Ok(front + [n])
  }

  function Read32s(b: seq<Byte>, o: nat, count: nat): Result<seq<U32>, DecodeError> {
    if count == 0 then Ok([])
    else
      match Read32s(b, o, count - 1)
      case Err(e) => Err(e)
      case Ok(front) =>
        match ReadU32(b, o + 4 * (count - 1))
        case Err(e) => Err(e)
        case Ok(n) => Ok(front + [n])
  }

  /** Buffer.subarray clamps both ends to the buffer. */
  function Subarray(b: seq<Byte>, from: nat, to: nat): seq<Byte>
    requires from <= to
  {
    b[Clamp(from, |b|)..Clamp(to, |b|)]
  }

  function Clamp(n: nat, bound: nat): (r: nat)
    ensures r <= bound && r <= n
  {
    if n <= bound then n else bound
  }

  datatype Values = Values(values: seq<Option<seq<Byte>>>, lengths: seq<I32>, next: nat)

  function ReadValues(b: seq<Byte>, o: nat, count: nat): (r: Result<Values, DecodeError>)
    ensures r.Ok? ==> |r.value.values| == |r.value.lengths| == count && r.value.next >= o
  {
    if count == 0 then Ok(Values([], [], o))
    else
      match ReadValues(b, o, count - 1)
      case Err(e) => Err(e)
      case Ok(front) =>
        match ReadI32(b, front.next)
        case Err(e) => Err(e)
        case Ok(length) =>
          var at := front.next + 4;
          if length < 0 then Ok(Values(front.values + [None], front.lengths + [length], at))
          else Ok(Values(front.values + [Some(Subarray(b, at, at + length))], front.lengths + [length], at + length))
  }

  function ReadCounted16(b: seq<Byte>, o: nat): Result<Read<seq<U16>>, DecodeError> {
    match ReadU16(b, o)
    case Err(e) => Err(e)
    case Ok(count) =>
      match Read16s(b, o + 2, count)
      case Err(e) => Err(e)
      case Ok(ns) => Ok(Read(ns, o + 2 + 2 * count))
  }

  function ParseOf(b: seq<Byte>): Result<ParseMessage, DecodeError> {
    match ReadCString(b, 0)
    case Err(e) => Err(e)
    case Ok(name) =>
      match ReadCString(b, name.next)
      case Err(e) => Err(e)
      case Ok(sql) =>
        match ReadU16(b, sql.next)
        case Err(e) => Err(e)
        case Ok(count) =>
          match Read32s(b, sql.next + 2, count)
          case Err(e) => Err(e)
          case Ok(oids) => Ok(ParseMessage(name.value, sql.value, oids))
  }

  /** The values section of a Bind message: count, then values. */
  function ReadParameters(b: seq<Byte>, o: nat): Result<Values, DecodeError> {
    match ReadU16(b, o)
    case Err(e) => Err(e)
    case Ok(count) => ReadValues(b, o + 2, count)
  }

  function BindOf(b: seq<Byte>): Result<BindMessage, DecodeError> {
    match ReadCString(b, 0)
    case Err(e) => Err(e)
    case Ok(portal) =>
      match ReadCString(b, portal.next)
      case Err(e) => Err(e)
      case Ok(statement) =>
        match ReadCounted16(b, statement.next)
        case Err(e) => Err(e)
        case Ok(formats) =>
          match ReadParameters(b, formats.next)
          case Err(e) => Err(e)
          case Ok(parameters) =>
            match ReadCounted16(b, parameters.next)
            case Err(e) => Err(e)
            case Ok(results) =>
              Ok(BindMessage(portal.value, statement.value, formats.value, parameters.values, results.value))
  }

  // ---- the decoders, as loops over an offset ----

  method DecodeParse(body: seq<Byte>) returns (r: Result<ParseMessage, DecodeError>)
    ensures r == ParseOf(body)
  {
    hide ReadCString, U32At, U16At;
    var name := ReadCString(body, 0);
    if name.Err? { return Err(name.error); }
    var sql := ReadCString(body, name.value.next);
    if sql.Err? { return Err(sql.error); }
    var o: nat := sql.value.next;
    var count := ReadU16(body, o);
    if count.Err? { return Err(count.error); }
    o := o + 2;
    var oids: seq<U32> := [];
    var i: nat := 0;
    while i < count.value
      invariant 0 <= i <= count.value && o == sql.value.next + 2 + 4 * i
      invariant Read32s(body, sql.value.next + 2, i) == Ok(oids)
    {
      var oid := ReadU32(body, o);
      if oid.Err? {
        Stuck32(body, sql.value.next + 2, i + 1, count.value);
        return Err(oid.error);
      }
      oids := oids + [oid.value];
      i := i + 1;
      o := o + 4;
    }
    return Ok(ParseMessage(name.value.value, sql.value.value, oids));
  }

  /** The loop shared by the two format lists. */
  method DecodeFormats(body: seq<Byte>, start: nat) returns (r: Result<Read<seq<U16>>, DecodeError>)
    ensures r == ReadCounted16(body, start)
  {
    var count := ReadU16(body, start);
    if count.Err? { return Err(count.error); }
    var o: nat := start + 2;
    var formats: seq<U16> := [];
    var i: nat := 0;
    while i < count.value
      invariant 0 <= i <= count.value && o == start + 2 + 2 * i
      invariant Read16s(body, start + 2, i) == Ok(formats)
    {
      var format := ReadU16(body, o);
      if format.Err? {
        Stuck16(body, start + 2, i + 1, count.value);
        return Err(format.error);
      }
      formats := formats + [format.value];
      i := i + 1;
      o := o + 2;
    }
    return Ok(Read(formats, o));
  }

  method DecodeParameters(body: seq<Byte>, start: nat) returns (r: Result<Values, DecodeError>)
    ensures r == ReadParameters(body, start)
  {
    hide I32At, U16At, Subarray;
    var nParams := ReadU16(body, start);
    if nParams.Err? { return Err(nParams.error); }
    var o: nat := start + 2;
    var parameterValues: seq<Option<seq<Byte>>> := [];
    var lengths: seq<I32> := [];
    var i: nat := 0;
    while i < nParams.value
      invariant 0 <= i <= nParams.value
      invariant ReadValues(body, start + 2, i) == Ok(Values(parameterValues, lengths, o))
    {
      var length := ReadI32(body, o);
      if length.Err? {
        StuckValues(body, start + 2, i + 1, nParams.value);
        return Err(length.error);
      }
      o := o + 4;
      lengths := lengths + [length.value];
      if length.value < 0 {
        parameterValues := parameterValues + [None];
      } else {
        parameterValues := parameterValues + [Some(Subarray(body, o, o + length.value))];
        o := o + length.value;
      }
      i := i + 1;
    }
    return Ok(Values(parameterValues, lengths, o));
  }

  method DecodeBind(body: seq<Byte>) returns (r: Result<BindMessage, DecodeError>)
    ensures r == BindOf(body)
  {
    hide ReadCString, ReadCounted16, ReadParameters;
    var portal := ReadCString(body, 0);
    if portal.Err? { return Err(portal.error); }
    var stmt := ReadCString(body, portal.value.next);
    if stmt.Err? { return Err(stmt.error); }
    var parameterFormats := DecodeFormats(body, stmt.value.next);
    if parameterFormats.Err? { return Err(parameterFormats.error); }
    var parameters := DecodeParameters(body, parameterFormats.value.next);
    if parameters.Err? { return Err(parameters.error); }
    var resultFormats := DecodeFormats(body, parameters.value.next);
    if resultFormats.Err? { return Err(resultFormats.error); }
    return Ok(BindMessage(portal.value.value, stmt.value.value, parameterFormats.value.value, parameters.value.values,
                          resultFormats.value.value));
  }

  // ---- a read that fails stays failed ----

  lemma {:induction false} Stuck16(b: seq<Byte>, o: nat, i: nat, count: nat)
    requires i <= count && Read16s(b, o, i) == Err(OutOfRange)
    ensures Read16s(b, o, count) == Err(OutOfRange)
  {
    if i < count { Stuck16(b, o, i, count - 1); }
  }

  lemma {:induction false} Stuck32(b: seq<Byte>, o: nat, i: nat, count: nat)
    requires i <= count && Read32s(b, o, i) == Err(OutOfRange)
    ensures Read32s(b, o, count) == Err(OutOfRange)
  {
    if i < count { Stuck32(b, o, i, count - 1); }
  }

  lemma {:induction false} StuckValues(b: seq<Byte>, o: nat, i: nat, count: nat)
    requires i <= count && ReadValues(b, o, i) == Err(OutOfRange)
    ensures ReadValues(b, o, count) == Err(OutOfRange)
  {
    if i < count { StuckValues(b, o, i, count - 1); }
  }

  // ---- decoding what was encoded, and encoding what was decoded ----

  /** `piece` stands in `b` at offset `o`. */
  predicate At(b: seq<Byte>, o: nat, piece: seq<Byte>) {
    o + |piece| <= |b| && b[o..o + |piece|] == piece
  }

  lemma AtConcat(b: seq<Byte>, o: nat, p: seq<Byte>, q: seq<Byte>)
    ensures At(b, o, p + q) <==> At(b, o, p) && At(b, o + |p|, q)
  {
    if o + |p| + |q| <= |b| {
      assert b[o..o + |p| + |q|] == b[o..o + |p|] + b[o + |p|..o + |p| + |q|];
      if At(b, o, p + q) {
        assert b[o..o + |p|] == (p + q)[..|p|];
        assert b[o + |p|..o + |p| + |q|] == (p + q)[|p|..];
      }
    }
  }

  lemma U16Here(b: seq<Byte>, o: nat, n: U16)
    ensures At(b, o, PutU16(n)) <==> ReadU16(b, o) == Ok(n)
  {
    if o + 2 <= |b| { U16Window(b, o); }
  }

  lemma U32Here(b: seq<Byte>, o: nat, n: U32)
    ensures At(b, o, PutU32(n)) <==> ReadU32(b, o) == Ok(n)
  {
    if o + 4 <= |b| { U32Window(b, o); }
  }

  lemma I32Here(b: seq<Byte>, o: nat, n: I32)
    ensures At(b, o, PutI32(n)) <==> ReadI32(b, o) == Ok(n)
  {
    if o + 4 <= |b| { I32Window(b, o); }
  }

  lemma CStringHere(b: seq<Byte>, o: nat, value: seq<Byte>)
    requires 0 !in value
    ensures At(b, o, PutCString(value)) <==> ReadCString(b, o) == Ok(CString(value, o + |value| + 1))
  {
    if At(b, o, PutCString(value)) { CStringBack(b, o, value); }
  }

  lemma {:induction false} Here16s(b: seq<Byte>, o: nat, ns: seq<U16>)
    ensures At(b, o, Put16s(ns)) ==> Read16s(b, o, |ns|) == Ok(ns)
  {
    hide PutU16, U16At;
    if ns != [] {
      var front := ns[..|ns| - 1];
      Here16s(b, o, front);
      AtConcat(b, o, Put16s(front), PutU16(ns[|ns| - 1]));
      U16Here(b, o + 2 * |front|, ns[|ns| - 1]);
      assert front + [ns[|ns| - 1]] == ns;
    }
  }

  lemma {:induction false} Read16sHere(b: seq<Byte>, o: nat, count: nat)
    requires Read16s(b, o, count).Ok? && o <= |b|
    ensures var ns := Read16s(b, o, count).value;
      |ns| == count && At(b, o, Put16s(ns))
  {
    hide PutU16, U16At;
    if count > 0 {
      Read16sHere(b, o, count - 1);
      var front := Read16s(b, o, count - 1).value;
      var n := ReadU16(b, o + 2 * (count - 1)).value;
      U16Here(b, o + 2 * (count - 1), n);
      AtConcat(b, o, Put16s(front), PutU16(n));
      assert (front + [n])[..count - 1] == front;
    }
  }

  lemma {:induction false} Here32s(b: seq<Byte>, o: nat, ns: seq<U32>)
    ensures At(b, o, Put32s(ns)) ==> Read32s(b, o, |ns|) == Ok(ns)
  {
    hide PutU32, U32At;
    if ns != [] {
      var front := ns[..|ns| - 1];
      Here32s(b, o, front);
      AtConcat(b, o, Put32s(front), PutU32(ns[|ns| - 1]));
      U32Here(b, o + 4 * |front|, ns[|ns| - 1]);
      assert front + [ns[|ns| - 1]] == ns;
    }
  }

  lemma {:induction false} Read32sHere(b: seq<Byte>, o: nat, count: nat)
    requires Read32s(b, o, count).Ok? && o <= |b|
    ensures var ns := Read32s(b, o, count).value;
      |ns| == count && At(b, o, Put32s(ns))
  {
    hide PutU32, U32At;
    if count > 0 {
      Read32sHere(b, o, count - 1);
      var front := Read32s(b, o, count - 1).value;
      var n := ReadU32(b, o + 4 * (count - 1)).value;
      U32Here(b, o + 4 * (count - 1), n);
      AtConcat(b, o, Put32s(front), PutU32(n));
      assert (front + [n])[..count - 1] == front;
    }
  }

  lemma SubarrayHere(b: seq<Byte>, o: nat, v: seq<Byte>)
    requires At(b, o, v)
    ensures Subarray(b, o, o + |v|) == v
  {
  }

  lemma ValueHere(b: seq<Byte>, o: nat, v: Option<seq<Byte>>, length: I32)
    requires ValueFits(v, length) && At(b, o, PutValue(v, length))
    ensures ReadI32(b, o) == Ok(length)
    ensures v.Some? ==> Subarray(b, o + 4, o + 4 + length) == v.value
  {
    hide PutI32, I32At, Subarray, ReadI32;
    AtConcat(b, o, PutI32(length), if v.Some? then v.value else []);
    I32Here(b, o, length);
    if v.Some? { SubarrayHere(b, o + 4, v.value); }
  }

  lemma ReadOneMore(b: seq<Byte>, o: nat, count: nat, front: Values, v: Option<seq<Byte>>, length: I32)
    requires count > 0 && ReadValues(b, o, count - 1) == Ok(front)
    requires ValueFits(v, length) && At(b, front.next, PutValue(v, length))
    ensures ReadValues(b, o, count) ==
      Ok(Values(front.values + [v], front.lengths + [length], front.next + |PutValue(v, length)|))
  {
    ValueHere(b, front.next, v, length);
    hide Subarray, ReadI32, At, PutI32;
  }

  lemma {:induction false} ValuesHere(b: seq<Byte>, o: nat, vs: seq<Option<seq<Byte>>>, lengths: seq<I32>)
    requires ValuesFit(vs, lengths) && At(b, o, PutValues(vs, lengths))
    ensures ReadValues(b, o, |vs|) == Ok(Values(vs, lengths, o + |PutValues(vs, lengths)|))
  {
    hide PutValue, ValueFits, ReadValues, At;
    if vs != [] {
      var last := |vs| - 1;
      var front := PutValues(vs[..last], lengths[..last]);
      AtConcat(b, o, front, PutValue(vs[last], lengths[last]));
      ValuesHere(b, o, vs[..last], lengths[..last]);
      ReadOneMore(b, o, |vs|, Values(vs[..last], lengths[..last], o + |front|), vs[last], lengths[last]);
      assert vs[..last] + [vs[last]] == vs && lengths[..last] + [lengths[last]] == lengths;
    } else {
      NoValues(b, o);
    }
  }

  lemma NoValues(b: seq<Byte>, o: nat)
    ensures ReadValues(b, o, 0) == Ok(Values([], [], o))
  {
  }

  /** The value behind a length word; subarray clamps it to the buffer. */
  function ValueAt(b: seq<Byte>, o: nat, length: I32): Option<seq<Byte>> {
    if length < 0 then None else Some(Subarray(b, o, o + length))
  }

  lemma ReadLast(b: seq<Byte>, o: nat, count: nat)
    requires count > 0 && ReadValues(b, o, count).Ok?
    ensures ReadValues(b, o, count - 1).Ok?
    ensures var front := ReadValues(b, o, count - 1).value; var r := ReadValues(b, o, count).value;
      && ReadI32(b, front.next).Ok?
      && var length := ReadI32(b, front.next).value;
      && r == Values(front.values + [ValueAt(b, front.next + 4, length)], front.lengths + [length],
                     front.next + 4 + if length < 0 then 0 else length)
  {
    hide Subarray, I32At;
  }

  lemma ValueStands(b: seq<Byte>, o: nat, length: I32)
    requires ReadI32(b, o) == Ok(length) && (length < 0 || o + 4 + length <= |b|)
    ensures var v := ValueAt(b, o + 4, length);
      ValueFits(v, length) && At(b, o, PutValue(v, length))
      && |PutValue(v, length)| == 4 + if length < 0 then 0 else length
  {
    I32Here(b, o, length);
    var v := ValueAt(b, o + 4, length);
    AtConcat(b, o, PutI32(length), if v.Some? then v.value else []);
    hide I32At, PutI32;
  }

  /** As long as reading ends inside the buffer, no value was clamped. */
  lemma {:induction false} ReadValuesHere(b: seq<Byte>, o: nat, count: nat)
    requires o <= |b| && ReadValues(b, o, count).Ok? && ReadValues(b, o, count).value.next <= |b|
    ensures var r := ReadValues(b, o, count).value;
      ValuesFit(r.values, r.lengths) && At(b, o, PutValues(r.values, r.lengths))
      && r.next == o + |PutValues(r.values, r.lengths)|
  {
    hide ReadValues, ReadI32, ValueFits, ValueAt, PutValue, At, ValuesFit, PutValues;
    if count == 0 {
      NoValuesHere(b, o);
    } else {
      ReadLast(b, o, count);
      var front := ReadValues(b, o, count - 1).value;
      ReadValuesHere(b, o, count - 1);
      var r := ReadValues(b, o, count).value;
      var length := ReadI32(b, front.next).value;
      ValueStands(b, front.next, length);
      AtConcat(b, o, PutValues(front.values, front.lengths), PutValue(ValueAt(b, front.next + 4, length), length));
      PutOneMore(front.values, front.lengths, ValueAt(b, front.next + 4, length), length);
    }
  }

  lemma NoValuesHere(b: seq<Byte>, o: nat)
    requires o <= |b|
    ensures ReadValues(b, o, 0) == Ok(Values([], [], o))
    ensures ValuesFit([], []) && PutValues([], []) == [] && At(b, o, [])
  {
  }

  lemma PutOneMore(vs: seq<Option<seq<Byte>>>, lengths: seq<I32>, v: Option<seq<Byte>>, length: I32)
    requires ValuesFit(vs, lengths) && ValueFits(v, length)
    ensures ValuesFit(vs + [v], lengths + [length])
    ensures PutValues(vs + [v], lengths + [length]) == PutValues(vs, lengths) + PutValue(v, length)
  {
    assert (vs + [v])[..|vs|] == vs && (lengths + [length])[..|vs|] == lengths;
    hide PutValue, ValueFits;
  }

  /** A counted list stands at `o` exactly when it is read there. */
  lemma Counted16Here(b: seq<Byte>, o: nat, ns: seq<U16>)
    requires |ns| < 0x1_0000
    ensures At(b, o, PutCounted16(ns)) <==> ReadCounted16(b, o) == Ok(Read(ns, o + 2 + 2 * |ns|))
  {
    hide U16At, PutU16, At, Put16s, Read16s;
    AtConcat(b, o, PutU16(|ns|), Put16s(ns));
    U16Here(b, o, |ns|);
    Here16s(b, o + 2, ns);
    if ReadCounted16(b, o) == Ok(Read(ns, o + 2 + 2 * |ns|)) {
      ReadCountedSize(b, o);
      Read16sHere(b, o + 2, |ns|);
    }
  }

  lemma ReadCountedSize(b: seq<Byte>, o: nat)
    requires ReadCounted16(b, o).Ok?
    ensures var r := ReadCounted16(b, o).value;
      o + 2 <= |b| && r.next == o + 2 + 2 * |r.value| && |r.value| < 0x1_0000 && ReadU16(b, o) == Ok(|r.value|)
  {
    Read16sHere(b, o + 2, ReadU16(b, o).value);
    hide U16At, Put16s;
  }

  /** A message is decoded from `b` exactly when `b` starts with its encoding. */
  lemma ParseExact(b: seq<Byte>, m: ParseMessage)
    ensures ParseOf(b) == Ok(m) <==> ParseFits(m) && PutParse(m) <= b
  {
    if ParseFits(m) && PutParse(m) <= b {
      ParseBack(b, m);
    }
    if ParseOf(b) == Ok(m) {
      ParseStands(b, m);
    }
  }

  lemma ParseParts(b: seq<Byte>, m: ParseMessage)
    requires ParseFits(m)
    ensures PutParse(m) <= b <==>
      var a := |PutCString(m.name)|; var c := a + |PutCString(m.sql)|;
      && At(b, 0, PutCString(m.name)) && At(b, a, PutCString(m.sql))
      && At(b, c, PutU16(|m.parameterOids|)) && At(b, c + 2, Put32s(m.parameterOids))
  {
    var p1 := PutCString(m.name); var p2 := PutCString(m.sql);
    var p3 := PutU16(|m.parameterOids|); var p4 := Put32s(m.parameterOids);
    AtPrefix(b, PutParse(m));
    hide At, PutU16, Put32s, PutCString;
    AtConcat(b, 0, p1, p2);
    AtConcat(b, 0, p1 + p2, p3);
    AtConcat(b, 0, p1 + p2 + p3, p4);
  }

  lemma ParseBack(b: seq<Byte>, m: ParseMessage)
    requires ParseFits(m) && PutParse(m) <= b
    ensures ParseOf(b) == Ok(m)
  {
    hide At, PutU16, Put32s, PutParse, ReadCString, ReadU16, Read32s;
    ParseParts(b, m);
    var a := |PutCString(m.name)|; var c := a + |PutCString(m.sql)|;
    CStringHere(b, 0, m.name);
    CStringHere(b, a, m.sql);
    U16Here(b, c, |m.parameterOids|);
    Here32s(b, c + 2, m.parameterOids);
  }

  lemma ParseStands(b: seq<Byte>, m: ParseMessage)
    requires ParseOf(b) == Ok(m)
    ensures ParseFits(m) && PutParse(m) <= b
  {
    hide At, PutU16, Put32s, PutParse, ReadCString, U16At, Read32s;
    var name := ReadCString(b, 0).value;
    var sql := ReadCString(b, name.next).value;
    var count := ReadU16(b, sql.next).value;
    Read32sHere(b, sql.next + 2, count);
    CStringHere(b, 0, m.name);
    CStringHere(b, name.next, m.sql);
    U16Here(b, sql.next, count);
    ParseParts(b, m);
  }

  lemma AtPrefix(b: seq<Byte>, p: seq<Byte>)
    ensures At(b, 0, p) <==> p <= b
  {
  }

  /**
   A Bind decodes exactly when the body starts with an encoding of it; so every
   parameter is the full slice its length word announces.
   */
  lemma BindExact(b: seq<Byte>, m: BindMessage)
    ensures BindOf(b) == Ok(m) <==> exists lengths :: BindFits(m, lengths) && PutBind(m, lengths) <= b
  {
    forall lengths | BindFits(m, lengths) && PutBind(m, lengths) <= b ensures BindOf(b) == Ok(m) {
      BindBack(b, m, lengths);
    }
    if BindOf(b) == Ok(m) {
      BindStands(b, m);
    }
  }

  lemma BindParts(b: seq<Byte>, m: BindMessage, lengths: seq<I32>)
    requires BindFits(m, lengths)
    ensures PutBind(m, lengths) <= b <==>
      var a := |PutCString(m.portal)|; var c := a + |PutCString(m.statement)|;
      var d := c + |PutCounted16(m.parameterFormats)|; var e := d + 2 + |PutValues(m.parameterValues, lengths)|;
      && At(b, 0, PutCString(m.portal)) && At(b, a, PutCString(m.statement))
      && At(b, c, PutCounted16(m.parameterFormats))
      && At(b, d, PutU16(|m.parameterValues|)) && At(b, d + 2, PutValues(m.parameterValues, lengths))
      && At(b, e, PutCounted16(m.resultFormats))
  {
    var p1 := PutCString(m.portal); var p2 := PutCString(m.statement); var p3 := PutCounted16(m.parameterFormats);
    var p4 := PutU16(|m.parameterValues|); var p5 := PutValues(m.parameterValues, lengths);
    var p6 := PutCounted16(m.resultFormats);
    AtPrefix(b, PutBind(m, lengths));
    hide At, PutU16, PutCounted16, PutCString, PutValues;
    AtConcat(b, 0, p1, p2);
    AtConcat(b, 0, p1 + p2, p3);
    AtConcat(b, 0, p1 + p2 + p3, p4);
    AtConcat(b, 0, p1 + p2 + p3 + p4, p5);
    AtConcat(b, 0, p1 + p2 + p3 + p4 + p5, p6);
  }

  lemma BindBack(b: seq<Byte>, m: BindMessage, lengths: seq<I32>)
    requires BindFits(m, lengths) && PutBind(m, lengths) <= b
    ensures BindOf(b) == Ok(m)
  {
    hide At, PutU16, U16At, Put16s, PutBind, PutValues, ReadCString, ReadCounted16, ReadU16, ReadValues;
    BindParts(b, m, lengths);
    var a := |PutCString(m.portal)|; var c := a + |PutCString(m.statement)|;
    var d := c + |PutCounted16(m.parameterFormats)|; var e := d + 2 + |PutValues(m.parameterValues, lengths)|;
    CStringHere(b, 0, m.portal);
    CStringHere(b, a, m.statement);
    Counted16Here(b, c, m.parameterFormats);
    U16Here(b, d, |m.parameterValues|);
    ValuesHere(b, d + 2, m.parameterValues, lengths);
    Counted16Here(b, e, m.resultFormats);
  }

  lemma BindStands(b: seq<Byte>, m: BindMessage)
    requires BindOf(b) == Ok(m)
    ensures exists lengths :: BindFits(m, lengths) && PutBind(m, lengths) <= b
  {
    hide At, PutU16, PutBind, PutCounted16, PutValues, ReadCString, ReadCounted16, U16At, ReadValues;
    var portal := ReadCString(b, 0).value;
    var statement := ReadCString(b, portal.next).value;
    var formats := ReadCounted16(b, statement.next).value;
    var count := ReadU16(b, formats.next).value;
    var parameters := ReadValues(b, formats.next + 2, count).value;
    ReadCountedSize(b, statement.next);
    ReadCountedSize(b, parameters.next);
    ReadValuesHere(b, formats.next + 2, count);
    CStringHere(b, 0, m.portal);
    CStringHere(b, portal.next, m.statement);
    Counted16Here(b, statement.next, m.parameterFormats);
    U16Here(b, formats.next, count);
    Counted16Here(b, parameters.next, m.resultFormats);
    CountedSize(m.parameterFormats);
    hide BindOf, ReadU16;
    assert BindFits(m, parameters.lengths);
    BindParts(b, m, parameters.lengths);
  }

  lemma CountedSize(ns: seq<U16>)
    requires |ns| < 0x1_0000
    ensures |PutCounted16(ns)| == 2 + 2 * |ns|
  {
  }

  /** `v` is the whole of a slice of `b` that follows a length word announcing it. */
  predicate WholeSlice(b: seq<Byte>, o: nat, v: seq<Byte>) {
    4 <= o && o + |v| <= |b| && b[o..o + |v|] == v && I32At(b, o - 4) == |v|
  }

  /** In a Bind that decodes, each non-null parameter lies whole inside the body. */
  lemma BindSlicesInBounds(b: seq<Byte>, k: nat)
    requires BindOf(b).Ok? && k < |BindOf(b).value.parameterValues|
    requires BindOf(b).value.parameterValues[k].Some?
    ensures exists o :: WholeSlice(b, o, BindOf(b).value.parameterValues[k].value)
  {
    hide BindOf, PutBind, PutCString, PutCounted16, PutValues, WholeSlice, At;
    var m := BindOf(b).value;
    BindExact(b, m);
    var lengths :| BindFits(m, lengths) && PutBind(m, lengths) <= b;
    BindParts(b, m, lengths);
    var d := |PutCString(m.portal)| + |PutCString(m.statement)| + |PutCounted16(m.parameterFormats)|;
    ValueInside(b, d + 2, m.parameterValues, lengths, k);
  }

  lemma ValueWhole(b: seq<Byte>, o: nat, v: seq<Byte>)
    requires |v| < 0x8000_0000 && At(b, o, PutValue(Some(v), |v|))
    ensures WholeSlice(b, o + 4, v)
  {
    AtConcat(b, o, PutI32(|v|), v);
    I32Here(b, o, |v|);
    hide I32At, PutI32;
  }

  lemma {:induction false} ValueInside(b: seq<Byte>, o: nat, vs: seq<Option<seq<Byte>>>, lengths: seq<I32>, k: nat)
    requires ValuesFit(vs, lengths) && At(b, o, PutValues(vs, lengths)) && k < |vs| && vs[k].Some?
    ensures exists p :: WholeSlice(b, p, vs[k].value)
    decreases |vs|
  {
    hide At, PutValue, WholeSlice;
    var last := |vs| - 1;
    var front := PutValues(vs[..last], lengths[..last]);
    AtConcat(b, o, front, PutValue(vs[last], lengths[last]));
    if k < last {
      ValueInside(b, o, vs[..last], lengths[..last], k);
    } else {
      ValueWhole(b, o + |front|, vs[last].value);
    }
  }

  // ---- DataRow ----

  predicate Short(vs: seq<Option<seq<Byte>>>) {
    forall k :: 0 <= k < |vs| && vs[k].Some? ==> |vs[k].value| < 0x8000_0000
  }

  /** The length words dataRow writes: -1 for NULL. */
  function Lengths(vs: seq<Option<seq<Byte>>>): (lengths: seq<I32>)
    requires Short(vs)
    ensures ValuesFit(vs, lengths)
  {
    seq(|vs|, k requires 0 <= k < |vs| => LengthOf(vs[k]))
  }

  function LengthOf(v: Option<seq<Byte>>): (length: I32)
    requires v.Some? ==> |v.value| < 0x8000_0000
    ensures ValueFits(v, length)
  {
    if v.Some? then |v.value| else -1
  }

  /** The values of a row as dataRow writes them. */
  function RowValues(vs: seq<Option<seq<Byte>>>): seq<Byte>
    requires Short(vs)
  {
    PutValues(vs, Lengths(vs))
  }

  predicate Fits(v: Option<seq<Byte>>) { v.Some? ==> |v.value| < 0x8000_0000 }

  lemma RowOneMore(vs: seq<Option<seq<Byte>>>, v: Option<seq<Byte>>)
    requires Short(vs) && Fits(v)
    ensures Short(vs + [v]) && RowValues(vs + [v]) == RowValues(vs) + PutValue(v, LengthOf(v))
  {
    PutOneMore(vs, Lengths(vs), v, LengthOf(v));
    assert Lengths(vs + [v]) == Lengths(vs) + [LengthOf(v)];
    hide PutValues, PutValue;
  }

  lemma NoRow()
    ensures Short([]) && RowValues([]) == []
  {
  }

  lemma NotShort(vs: seq<Option<seq<Byte>>>, k: nat)
    requires k < |vs| && !Fits(vs[k])
    ensures !Short(vs)
  {
  }

  /** One value: a length word and the bytes, or -1 alone. */
  method PutDataValue(value: Option<seq<Byte>>) returns (r: Option<seq<Byte>>)
    ensures r.Some? <==> Fits(value)
    ensures r.Some? ==> r.value == PutValue(value, LengthOf(value))
  {
    if value.None? {
      assert PutI32(-1) + [] == PutI32(-1);
      return Some(PutI32(-1));
    }
    if |value.value| >= 0x8000_0000 { return None; }
    return Some(PutI32(|value.value|) + value.value);
  }

  /** dataRow's payload, written value by value; the number writers throw out of their range. */
  method DataRow(values: seq<Option<seq<Byte>>>) returns (r: Result<seq<Byte>, DecodeError>)
    ensures r.Ok? <==> |values| < 0x1_0000 && Short(values)
    ensures r.Ok? ==> r.value == PutU16(|values|) + RowValues(values)
  {
    hide PutU16, PutValue, RowValues, Short, Fits;
    if |values| >= 0x1_0000 { return Err(OutOfRange); }
    var chunks := PutU16(|values|);
    var i: nat := 0;
    NoRow();
    assert values[..0] == [];
    while i < |values|
      invariant 0 <= i <= |values| && Short(values[..i])
      invariant chunks == PutU16(|values|) + RowValues(values[..i])
    {
      var piece := PutDataValue(values[i]);
      if piece.None? {
        NotShort(values, i);
        return Err(OutOfRange);
      }
      RowOneMore(values[..i], values[i]);
      assert values[..i + 1] == values[..i] + [values[i]];
      chunks := chunks + piece.value;
      i := i + 1;
    }
    assert values[..i] == values;
    return Ok(chunks);
  }

  /** A client that reads a DataRow gets the values back, NULLs included. */
  lemma DataRowBack(values: seq<Option<seq<Byte>>>)
    requires |values| < 0x1_0000 && Short(values)
    ensures var payload := PutU16(|values|) + RowValues(values);
      ReadParameters(payload, 0) == Ok(Values(values, Lengths(values), |payload|))
  {
    var p := PutU16(|values|); var q := PutValues(values, Lengths(values));
    AtPrefix(p + q, p + q);
    hide PutU16, PutValues, U16At, At, Lengths;
    AtConcat(p + q, 0, p, q);
    U16Here(p + q, 0, |values|);
    ValuesHere(p + q, 2, values, Lengths(values));
  }
}
