/** The google.protobuf.Any frame, written by common/connectionmanager.h and read back without
    protobuf by common/anyframe.h. */
module AnyFrame {
  import opened Bytes

  const TWO_64 := 0x1_0000_0000_0000_0000
  /** Field number 1 or 2, length-delimited. */
  const TYPE_URL_TAG: Byte := 0x0a
  const VALUE_TAG: Byte := 0x12
  const TYPE_URL_PREFIX := "type.googleapis.com/"

  // Base 128 varints.

  function WriteVarint(n: nat): Bytes {
    if n < 0x80 then [n] else [n % 0x80 + 0x80] + WriteVarint(n / 0x80)
  }

  datatype Varint = NoVarint | Varint(value: nat, used: nat)

  /** The varint at the front of s, of which the first k bytes have been read already. Ten bytes at
      most; of the tenth only the lowest bit fits in 64. */
  function Varint64(s: Bytes, k: nat): (r: Varint)
    ensures r.Varint? ==> 0 < r.used <= |s|
    decreases |s|
  {
    if k >= 10 || s == [] then NoVarint
    else if s[0] < 0x80 then Varint(if k == 9 then s[0] % 2 else s[0], 1)
    else
      var rest := Varint64(s[1..], k + 1);
      if rest.NoVarint? then NoVarint
      else Varint(s[0] % 0x80 + 0x80 * rest.value, 1 + rest.used)
  }

  lemma {:induction false} VarintPrefix(s: Bytes, t: Bytes, k: nat)
    requires Varint64(s, k).Varint?
    ensures Varint64(s + t, k) == Varint64(s, k)
    decreases |s|
  {
    if s[0] >= 0x80 {
      assert (s + t)[1..] == s[1..] + t;
      VarintPrefix(s[1..], t, k + 1);
    }
  }

  /** The largest number whose varint fits in the bytes left after k. */
  function Room(k: nat): nat
    requires k <= 9
    decreases 9 - k
  {
    if k == 9 then 2 else 0x80 * Room(k + 1)
  }

  lemma RoomIs64Bits()
    ensures Room(0) == TWO_64
  {
    assert Room(7) == 0x80 * Room(8) == 0x80 * 0x80 * 2;
    assert Room(5) == 0x80 * Room(6) == 0x80 * 0x80 * Room(7);
    assert Room(3) == 0x80 * Room(4) == 0x80 * 0x80 * Room(5);
    assert Room(1) == 0x80 * Room(2) == 0x80 * 0x80 * Room(3);
  }

  lemma {:induction false} VarintRoundTripAt(n: nat, t: Bytes, k: nat)
    requires k <= 9 && n < Room(k)
    ensures Varint64(WriteVarint(n) + t, k) == Varint(n, |WriteVarint(n)|)
    decreases n
  {
    var s := WriteVarint(n) + t;
    if n >= 0x80 {
      assert k < 9;
      assert s[1..] == WriteVarint(n / 0x80) + t;
      VarintRoundTripAt(n / 0x80, t, k + 1);
    }
  }

  /** Every 64-bit number reads back from its varint, whatever follows it. */
  lemma VarintRoundTrip(n: nat, t: Bytes)
    requires n < TWO_64
    ensures Varint64(WriteVarint(n) + t, 0) == Varint(n, |WriteVarint(n)|)
  {
    RoomIs64Bits();
    VarintRoundTripAt(n, t, 0);
  }

  // Messages: a sequence of fields.

  /** What the reader sees of a field: the bytes of a length-delimited one, nothing of the others. */
  datatype Field = Skipped | Delimited(number: nat, bytes: Bytes)

  datatype Parsed1 = NoField | Field(field: Field, used: nat)

  function FieldAt(s: Bytes): (r: Parsed1)
    ensures r.Field? ==> 0 < r.used <= |s|
  {
    var key := Varint64(s, 0);
    if key.NoVarint? then NoField
    else
      var s' := s[key.used..];
      match key.value % 8
      case 0 => (var v := Varint64(s', 0); if v.Varint? then Field(Skipped, key.used + v.used) else NoField)
      case 1 => if |s'| < 8 then NoField else Field(Skipped, key.used + 8)
      case 2 =>
        (var len := Varint64(s', 0);
         if len.NoVarint? || len.value > |s'| - len.used then NoField
         else Field(Delimited(key.value / 8, s'[len.used..len.used + len.value]), key.used + len.used + len.value))
      case 5 => if |s'| < 4 then NoField else Field(Skipped, key.used + 4)
      case _ => NoField
  }

  /** The fields up to the end, or up to where the bytes stop being a message. */
  datatype Parsed = Parsed(ok: bool, fields: seq<Field>)

  function Parse(s: Bytes): Parsed
    decreases |s|
  {
    if s == [] then Parsed(true, [])
    else
      var f := FieldAt(s);
      if f.NoField? then Parsed(false, [])
      else
        var rest := Parse(s[f.used..]);
        Parsed(rest.ok, [f.field] + rest.fields)
  }

  lemma FieldPrefix(s: Bytes, t: Bytes)
    requires FieldAt(s).Field?
    ensures FieldAt(s + t) == FieldAt(s)
  {
    var key := Varint64(s, 0);
    VarintPrefix(s, t, 0);
    var s' := s[key.used..];
    assert (s + t)[key.used..] == s' + t;
    if key.value % 8 == 0 || key.value % 8 == 2 {
      var len := Varint64(s', 0);
      VarintPrefix(s', t, 0);
      if key.value % 8 == 2 {
        assert (s' + t)[len.used..len.used + len.value] == s'[len.used..len.used + len.value];
      }
    }
  }

  /** Messages concatenate: after a message, whatever follows parses as it would alone. */
  lemma {:induction false} ParseConcat(a: Bytes, b: Bytes)
    requires Parse(a).ok
    ensures Parse(a + b) == Parsed(Parse(b).ok, Parse(a).fields + Parse(b).fields)
    decreases |a|
  {
    hide FieldAt, Parse;
    ParseNothing();
    if a == [] {
      assert a + b == b;
      assert [] + Parse(b).fields == Parse(b).fields;
    } else {
      ParseMore(a);
      var f := FieldAt(a);
      FieldPrefix(a, b);
      ParseMore(a + b);
      assert (a + b)[f.used..] == a[f.used..] + b;
      ParseConcat(a[f.used..], b);
      assert [f.field] + (Parse(a[f.used..]).fields + Parse(b).fields) == Parse(a).fields + Parse(b).fields;
    }
  }

  lemma ParseNothing()
    ensures Parse([]) == Parsed(true, [])
  {
  }

  lemma ParseMore(s: Bytes)
    requires s != []
    ensures var f := FieldAt(s);
            if f.NoField? then Parse(s) == Parsed(false, [])
            else var rest := Parse(s[f.used..]); Parse(s) == Parsed(rest.ok, [f.field] + rest.fields)
  {
  }

  // The two fields of an Any; of several with one number the last wins.

  predicate Has(fields: seq<Field>, number: nat) {
    exists f :: f in fields && f.Delimited? && f.number == number
  }

  function Last(fields: seq<Field>, number: nat): Bytes {
    if fields == [] then []
    else
      var f := fields[|fields| - 1];
      if f.Delimited? && f.number == number then f.bytes else Last(fields[..|fields| - 1], number)
  }

  lemma {:induction false} LastConcat(a: seq<Field>, b: seq<Field>, number: nat)
    ensures Last(a + b, number) == if Has(b, number) then Last(b, number) else Last(a, number)
    decreases |b|
  {
    if b == [] {
      assert a + b == a;
    } else {
      var init := b[..|b| - 1];
      assert (a + b)[..|a + b| - 1] == a + init;
      assert b == init + [b[|b| - 1]];
      LastConcat(a, init, number);
    }
  }

  /** Reading a concatenation succeeds when both parts do, and the second part's fields override the
      first's. */
  lemma ReadConcat(a: Bytes, b: Bytes, number: nat)
    requires Parse(a).ok
    ensures Parse(a + b).ok <==> Parse(b).ok
    ensures Last(Parse(a + b).fields, number) ==
            Last(if Has(Parse(b).fields, number) then Parse(b).fields else Parse(a).fields, number)
  {
    ParseConcat(a, b);
    LastConcat(Parse(a).fields, Parse(b).fields, number);
  }

  // What the encoder writes.

  function Record(tag: Byte, bytes: Bytes): Bytes {
    [tag] + WriteVarint(|bytes|) + bytes
  }

  function EncodeAny(typeName: Bytes, body: Bytes): Bytes {
    Record(TYPE_URL_TAG, Ascii(TYPE_URL_PREFIX) + typeName) + Record(VALUE_TAG, body)
  }

  /** One record parses to the one field it holds. */
  lemma RecordParses(tag: Byte, bytes: Bytes)
    requires tag < 0x80 && tag % 8 == 2 && |bytes| < TWO_64
    ensures Parse(Record(tag, bytes)) == Parsed(true, [Delimited(tag / 8, bytes)])
  {
    var s := Record(tag, bytes);
    var s' := WriteVarint(|bytes|) + bytes;
    assert Varint64(s, 0) == Varint(tag, 1);
    assert s[1..] == s';
    VarintRoundTrip(|bytes|, bytes);
    var w := |WriteVarint(|bytes|)|;
    assert s'[w..w + |bytes|] == bytes;
    hide WriteVarint, Varint64;
    assert FieldAt(s) == Field(Delimited(tag / 8, bytes), |s|);
    assert s[|s|..] == [];
  }

  /** The reader gets back exactly the type url and the body the encoder wrote. */
  lemma AnyRoundTrip(typeName: Bytes, body: Bytes)
    requires |TYPE_URL_PREFIX| + |typeName| < TWO_64 && |body| < TWO_64
    ensures Parse(EncodeAny(typeName, body)).ok
    ensures Last(Parse(EncodeAny(typeName, body)).fields, 1) == Ascii(TYPE_URL_PREFIX) + typeName
    ensures Last(Parse(EncodeAny(typeName, body)).fields, 2) == body
  {
    var url := Ascii(TYPE_URL_PREFIX) + typeName;
    var a, b := Record(TYPE_URL_TAG, url), Record(VALUE_TAG, body);
    RecordParses(TYPE_URL_TAG, url);
    RecordParses(VALUE_TAG, body);
    hide Record, Parse, Ascii;
    ReadConcat(a, b, 1);
    ReadConcat(a, b, 2);
    assert Delimited(2, body) in Parse(b).fields;
  }

  // The code.

  /** A view over the input. */
  datatype Slice = Slice(start: nat, len: nat)

  const EMPTY := Slice(0, 0)

  predicate Inside(v: Slice, raw: Bytes) { v.start + v.len <= |raw| }

  function Viewed(raw: Bytes, v: Slice): Bytes
    requires Inside(v, raw)
  {
    raw[v.start..v.start + v.len]
  }

  function Unit(k: nat): nat { if k == 0 then 1 else 0x80 * Unit(k - 1) }

  lemma UnitTop()
    ensures Unit(9) == TWO_64 / 2
  {
    assert Unit(2) == 0x4000;
    assert Unit(4) == 0x80 * Unit(3) == 0x4000 * Unit(2);
    assert Unit(6) == 0x80 * Unit(5) == 0x4000 * Unit(4);
    assert Unit(8) == 0x80 * Unit(7) == 0x4000 * Unit(6);
  }

  lemma {:induction false} UnitFits(k: nat)
    requires k < 9
    ensures 0x80 * Unit(k) <= TWO_64 / 2
    decreases 9 - k
  {
    UnitTop();
    if k < 8 {
      UnitFits(k + 1);
    }
  }

  /** Seven payload bits shifted into place in 64 bits: nothing is lost but from the tenth byte. */
  lemma ShiftedIn(bits: nat, k: nat)
    requires bits < 0x80 && k <= 9
    ensures bits * Unit(k) % TWO_64 == (if k == 9 then bits % 2 else bits) * Unit(k)
  {
    if k == 9 {
      UnitTop();
      assert bits * (TWO_64 / 2) == bits / 2 * TWO_64 + bits % 2 * (TWO_64 / 2);
    } else {
      UnitFits(k);
      Scale(bits, 0x80, Unit(k));
    }
  }

  lemma Scale(a: nat, b: nat, c: nat)
    requires a <= b
    ensures 0 <= a * c <= b * c
  {
  }

  /** What is left to read at the cursor makes `whole` once added to what has been read. */
  ghost predicate Reading(whole: Varint, rest: Varint, value: nat, k: nat) {
    whole == if rest.NoVarint? then rest else Varint(value + Unit(k) * rest.value, k + rest.used)
  }

  lemma ReadingOn(whole: Varint, s: Bytes, value: nat, k: nat)
    requires s != [] && k < 10 && Reading(whole, Varint64(s, k), value, k)
    ensures var value' := value + s[0] % 0x80 * Unit(k) % TWO_64;
            if s[0] < 0x80 then whole == Varint(value', k + 1)
            else Reading(whole, Varint64(s[1..], k + 1), value', k + 1)
  {
    ShiftedIn(s[0] % 0x80, k);
    assert Unit(k + 1) == 0x80 * Unit(k);
    hide Unit;
    var rest := Varint64(s[1..], k + 1);
    Distribute(Unit(k), s[0] % 0x80, if rest.Varint? then rest.value else 0);
  }

  /** Reads a varint at the cursor. Each byte's seven bits land above all those before, so OR-ing
      them in adds them. */
  method ReadVarint(raw: Bytes, at: nat) returns (ok: bool, value: nat, pos: nat)
    requires at <= |raw|
    ensures at <= pos <= |raw|
    ensures var v := Varint64(raw[at..], 0);
            ok == v.Varint? && (ok ==> value == v.value && pos == at + v.used)
  {
    value, pos := 0, at;
    ghost var whole := Varint64(raw[at..], 0);
    var k := 0;
    while k < 10
      invariant k <= 10 && pos == at + k <= |raw|
      invariant Reading(whole, Varint64(raw[pos..], k), value, k)
    {
      if pos >= |raw| {
        return false, value, pos;
      }
      var byte := raw[pos];
      ReadingOn(whole, raw[pos..], value, k);
      assert raw[pos..][1..] == raw[pos + 1..];
      value := value + byte % 0x80 * Unit(k) % TWO_64;
      pos := pos + 1;
      if byte < 0x80 {
        return true, value, pos;
      }
      k := k + 1;
    }
    ok := false;
  }

  lemma Distribute(u: nat, low: nat, high: nat)
    ensures u * (low + 0x80 * high) == low * u + 0x80 * u * high
  {
  }

  /** What one field leaves behind: a view when it is length-delimited. */
  datatype Seen = Nothing | Seen(number: nat, view: Slice)

  predicate Shows(raw: Bytes, seen: Seen, f: Field) {
    if seen.Nothing? then f == Skipped
    else Inside(seen.view, raw) && f == Delimited(seen.number, Viewed(raw, seen.view))
  }

  method ReadField(raw: Bytes, at: nat) returns (ok: bool, seen: Seen, pos: nat)
    requires at <= |raw|
    ensures var f := FieldAt(raw[at..]);
            ok == f.Field? && (ok ==> pos == at + f.used && Shows(raw, seen, f.field))
  {
    hide Varint64;
    seen := Nothing;
    var key;
    ok, key, pos := ReadVarint(raw, at);
    if !ok {
      return;
    }
    var body := pos;
    assert raw[at..][body - at..] == raw[body..];
    match key % 8 {
      case 0 =>
        var skipped;
        ok, skipped, pos := ReadVarint(raw, body);
      case 1 =>
        ok, pos := |raw| - body >= 8, body + 8;
      case 2 =>
        var len;
        ok, len, pos := ReadVarint(raw, body);
        if !ok || len > |raw| - pos {
          return false, Nothing, pos;
        }
        seen := Seen(key / 8, Slice(pos, len));
        assert raw[body..][pos - body..pos - body + len] == raw[pos..pos + len];
        pos := pos + len;
      case 5 =>
        ok, pos := |raw| - body >= 4, body + 4;
      case _ =>
        ok := false;
    }
  }

  /** The fields read so far and what is left make up the whole message. */
  ghost predicate Parsing(whole: Parsed, fields: seq<Field>, s: Bytes) {
    whole == Parsed(Parse(s).ok, fields + Parse(s).fields)
  }

  lemma ParsingOn(whole: Parsed, fields: seq<Field>, s: Bytes)
    requires Parsing(whole, fields, s) && s != []
    ensures var f := FieldAt(s);
            if f.NoField? then whole == Parsed(false, fields)
            else Parsing(whole, fields + [f.field], s[f.used..])
  {
    hide FieldAt;
    var f := FieldAt(s);
    if f.NoField? {
      assert fields + [] == fields;
    } else {
      var rest := Parse(s[f.used..]).fields;
      assert fields + ([f.field] + rest) == fields + [f.field] + rest;
    }
  }

  /** The view holds the field's latest value; an absent field shows as empty. */
  ghost predicate Latest(raw: Bytes, v: Slice, fields: seq<Field>, number: nat) {
    Inside(v, raw) && Viewed(raw, v) == Last(fields, number)
  }

  lemma LatestOn(raw: Bytes, v: Slice, fields: seq<Field>, number: nat, seen: Seen, f: Field)
    requires Latest(raw, v, fields, number) && Shows(raw, seen, f)
    ensures Latest(raw, if seen.Seen? && seen.number == number then seen.view else v, fields + [f], number)
  {
    assert (fields + [f])[..|fields|] == fields;
  }

  /** Reads the two fields of a serialized Any in place. The views hold the last type url and value
      before the end, or before the first byte that is not part of a message. */
  method Read(raw: Bytes) returns (ok: bool, typeUrl: Slice, valueBytes: Slice)
    ensures Inside(typeUrl, raw) && Inside(valueBytes, raw)
    ensures ok == Parse(raw).ok
    ensures Viewed(raw, typeUrl) == Last(Parse(raw).fields, 1)
    ensures Viewed(raw, valueBytes) == Last(Parse(raw).fields, 2)
  {
    hide FieldAt, Shows;
    typeUrl, valueBytes := EMPTY, EMPTY;
    var pos := 0;
    ghost var fields: seq<Field> := [];
    assert raw[0..] == raw;
    while pos < |raw|
      invariant pos <= |raw| && Parsing(Parse(raw), fields, raw[pos..])
      invariant Latest(raw, typeUrl, fields, 1) && Latest(raw, valueBytes, fields, 2)
      decreases |raw| - pos
    {
      ghost var f := FieldAt(raw[pos..]);
      var seen, next;
      ok, seen, next := ReadField(raw, pos);
      ParsingOn(Parse(raw), fields, raw[pos..]);
      if !ok {
        return;
      }
      assert raw[pos..][f.used..] == raw[next..];
      LatestOn(raw, typeUrl, fields, 1, seen, f.field);
      LatestOn(raw, valueBytes, fields, 2, seen, f.field);
      fields := fields + [f.field];
      if seen.Seen? && seen.number == 1 {
        typeUrl := seen.view;
      } else if seen.Seen? && seen.number == 2 {
        valueBytes := seen.view;
      }
      pos := next;
    }
    assert raw[pos..] == [] && fields + [] == fields;
    ok := true;
  }

  /** The type a payload claims, and its body; both empty unless it is an Any with a known prefix. */
  method TypeNameOf(payload: Bytes) returns (name: Bytes, value: Bytes)
    ensures var p := Parse(payload);
            if p.ok && Ascii(TYPE_URL_PREFIX) <= Last(p.fields, 1)
            then Ascii(TYPE_URL_PREFIX) + name == Last(p.fields, 1) && value == Last(p.fields, 2)
            else name == [] && value == []
  {
    var prefix := Ascii(TYPE_URL_PREFIX);
    var ok, typeUrl, valueBytes := Read(payload);
    var url := Viewed(payload, typeUrl);
    if !ok || !(prefix <= url) {
      return [], [];
    }
    return url[|prefix|..], Viewed(payload, valueBytes);
  }

  method AppendLengthDelimited(out: Bytes, tag: Byte, bytes: Bytes) returns (grown: Bytes)
    ensures grown == out + Record(tag, bytes)
  {
    grown := out + [tag];
    var n: nat := |bytes|;
    while n >= 0x80
      invariant grown + WriteVarint(n) == out + [tag] + WriteVarint(|bytes|)
    {
      assert WriteVarint(n) == [n % 0x80 + 0x80] + WriteVarint(n / 0x80);
      grown := grown + [n % 0x80 + 0x80];
      n := n / 0x80;
    }
    grown := grown + [n] + bytes;
  }

  /** The frame a protobuf value travels in names its type and yields its body again. */
  method EncodePayload(typeName: Bytes, body: Bytes) returns (out: Bytes)
    ensures out == EncodeAny(typeName, body)
  {
    out := AppendLengthDelimited([], TYPE_URL_TAG, Ascii(TYPE_URL_PREFIX) + typeName);
    out := AppendLengthDelimited(out, VALUE_TAG, body);
  }
}
