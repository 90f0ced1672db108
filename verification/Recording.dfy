/** Capture files (cli/recording.cpp): the writer's record format, the reader, and what a capture cut
    off at any byte still yields. */
module Recording {
  import opened Bytes

  const MAGIC := "WISPREC1"
  const MAX_MESSAGE_SIZE := 16 * 1024 * 1024
  const TWO_32 := 0x1_0000_0000
  const TWO_63 := 0x8000_0000_0000_0000
  const TWO_64 := 0x1_0000_0000_0000_0000
  const FIXED := 16

  /** A record: the wall-clock offset, and the two frames as they travelled. */
  datatype Record = Record(offset: int, header: Bytes, payload: Bytes)

  // Little-endian numbers.

  /** What `width` bytes can count up to. */
  function Cap(width: nat): (r: nat)
    ensures r > 0
  {
    if width == 0 then 1 else 256 * Cap(width - 1)
  }

  lemma CapIs()
    ensures Cap(4) == TWO_32 && Cap(8) == TWO_64
  {
    assert Cap(2) == 65536;
    assert Cap(4) == 256 * Cap(3) == 65536 * Cap(2);
    assert Cap(6) == 256 * Cap(5) == 65536 * Cap(4);
    assert Cap(8) == 256 * Cap(7) == 65536 * Cap(6);
  }

  function Le(n: nat, width: nat): (r: Bytes)
    ensures |r| == width
    decreases width
  {
    if width == 0 then [] else [n % 256] + Le(n / 256, width - 1)
  }

  function UnLe(bytes: Bytes): (n: nat)
    ensures n < Cap(|bytes|)
  {
    if bytes == [] then 0 else bytes[0] + 256 * UnLe(bytes[1..])
  }

  lemma {:induction false} LeRoundTrip(n: nat, width: nat)
    ensures n < Cap(width) ==> UnLe(Le(n, width)) == n
    decreases width
  {
    if width > 0 {
      assert Le(n, width)[1..] == Le(n / 256, width - 1);
      LeRoundTrip(n / 256, width - 1);
    }
  }

  /** Two's complement in 64 bits. */
  function Unsigned(n: int): nat { n % TWO_64 }

  function Signed(n: nat): int { if n < TWO_63 then n else n - TWO_64 }

  // The format.

  function Size(r: Record): nat { FIXED + |r.header| + |r.payload| }

  /** Offset and lengths, 16 bytes in all. */
  function FixedPart(r: Record): (s: Bytes)
    ensures |s| == FIXED
  {
    Le(Unsigned(r.offset), 8) + Le(|r.header| % TWO_32, 4) + Le(|r.payload| % TWO_32, 4)
  }

  function Encode(r: Record): (s: Bytes)
    ensures |s| == Size(r)
  {
    FixedPart(r) + r.header + r.payload
  }

  function Body(rs: seq<Record>): Bytes {
    if rs == [] then [] else Encode(rs[0]) + Body(rs[1..])
  }

  function Capture(rs: seq<Record>): Bytes { Ascii(MAGIC) + Body(rs) }

  lemma {:induction false} BodyConcat(a: seq<Record>, b: seq<Record>)
    ensures Body(a + b) == Body(a) + Body(b)
    decreases |a|
  {
    if a == [] {
      assert a + b == b;
    } else {
      assert (a + b)[1..] == a[1..] + b;
      BodyConcat(a[1..], b);
    }
  }

  lemma CaptureSnoc(rs: seq<Record>, r: Record)
    ensures Capture(rs + [r]) == Capture(rs) + Encode(r)
  {
    BodyConcat(rs, [r]);
    hide Encode, Ascii;
    assert Body([r]) == Encode(r) + Body([r][1..]) == Encode(r);
  }

  // Reading one record from what is left of the file.

  datatype Error = MidRecord | ImplausibleSize | InsideHeader | InsidePayload | UndecodableHeader

  datatype Outcome = Got(record: Record) | CleanEnd | Failed(error: Error)

  function OffsetOf(fixed: Bytes): int
    requires |fixed| == FIXED
  {
    Signed(UnLe(fixed[..8]))
  }

  function HeaderLength(fixed: Bytes): nat
    requires |fixed| == FIXED
  {
    UnLe(fixed[8..12])
  }

  function PayloadLength(fixed: Bytes): nat
    requires |fixed| == FIXED
  {
    UnLe(fixed[12..])
  }

  /** The frames after a fixed part that gives their lengths. */
  function Framed(offset: int, h: nat, p: nat, t: Bytes, decodes: Bytes -> bool): Outcome {
    if h == 0 || h > MAX_MESSAGE_SIZE || p > MAX_MESSAGE_SIZE then Failed(ImplausibleSize)
    else if |t| < h then Failed(InsideHeader)
    else if |t| < h + p then Failed(InsidePayload)
    else if !decodes(t[..h]) then Failed(UndecodableHeader)
    else Got(Record(offset, t[..h], t[h..h + p]))
  }

  /** `decodes` says which header frames this build can decode. */
  function Next(s: Bytes, decodes: Bytes -> bool): Outcome {
    if s == [] then CleanEnd
    else if |s| < FIXED then Failed(MidRecord)
    else Framed(OffsetOf(s[..FIXED]), HeaderLength(s[..FIXED]), PayloadLength(s[..FIXED]), s[FIXED..], decodes)
  }

  /** Records a capture can hold: offsets of 64 bits, frames within the transport's cap, a header. */
  predicate InLimits(r: Record) {
    -TWO_63 <= r.offset < TWO_63 && 0 < |r.header| <= MAX_MESSAGE_SIZE && |r.payload| <= MAX_MESSAGE_SIZE
  }

  predicate Readable(r: Record, decodes: Bytes -> bool) { InLimits(r) && decodes(r.header) }

  lemma SignedUnsigned(n: int)
    requires -TWO_63 <= n < TWO_63
    ensures Signed(Unsigned(n)) == n
  {
  }

  lemma Slices(o: Bytes, h: Bytes, p: Bytes)
    requires |o| == 8 && |h| == |p| == 4
    ensures (o + h + p)[..8] == o && (o + h + p)[8..12] == h && (o + h + p)[12..] == p
  {
  }

  lemma FixedPartReads(r: Record)
    ensures InLimits(r) ==> OffsetOf(FixedPart(r)) == r.offset
    ensures HeaderLength(FixedPart(r)) == |r.header| % TWO_32 && PayloadLength(FixedPart(r)) == |r.payload| % TWO_32
  {
    hide Le, UnLe, Cap, Signed, Unsigned;
    CapIs();
    LeRoundTrip(Unsigned(r.offset), 8);
    LeRoundTrip(|r.header| % TWO_32, 4);
    LeRoundTrip(|r.payload| % TWO_32, 4);
    Slices(Le(Unsigned(r.offset), 8), Le(|r.header| % TWO_32, 4), Le(|r.payload| % TWO_32, 4));
    UnsignedFits(r.offset);
    if InLimits(r) { SignedUnsigned(r.offset); }
  }

  lemma UnsignedFits(n: int)
    ensures Unsigned(n) < TWO_64
  {
  }

  /** With the whole fixed part there, a readable record's outcome depends on what follows it alone. */
  lemma NextOf(r: Record, t: Bytes, decodes: Bytes -> bool)
    requires InLimits(r)
    ensures Next(FixedPart(r) + t, decodes) == Framed(r.offset, |r.header|, |r.payload|, t, decodes)
  {
    hide FixedPart, OffsetOf, HeaderLength, PayloadLength, Framed;
    FixedPartReads(r);
    var s := FixedPart(r) + t;
    assert s[..FIXED] == FixedPart(r) && s[FIXED..] == t;
  }

  /** A whole record reads back, whatever follows. */
  lemma WholeRecord(r: Record, t: Bytes, decodes: Bytes -> bool)
    requires Readable(r, decodes)
    ensures Next(Encode(r) + t, decodes) == Got(r)
  {
    hide FixedPart, Next;
    var frames := r.header + r.payload + t;
    assert Encode(r) + t == FixedPart(r) + frames;
    NextOf(r, frames, decodes);
    assert frames[..|r.header|] == r.header && frames[|r.header|..|r.header| + |r.payload|] == r.payload;
  }

  /** A record cut off before its end is reported, by the part the cut falls in. */
  lemma CutRecord(r: Record, n: nat, decodes: Bytes -> bool)
    requires Readable(r, decodes) && 0 < n < |Encode(r)|
    ensures Next(Encode(r)[..n], decodes) ==
            Failed(if n < FIXED then MidRecord else if n < FIXED + |r.header| then InsideHeader else InsidePayload)
  {
    hide FixedPart, OffsetOf, HeaderLength, PayloadLength;
    if n >= FIXED {
      hide Next;
      var frames := (r.header + r.payload)[..n - FIXED];
      assert Encode(r)[..n] == FixedPart(r) + frames;
      NextOf(r, frames, decodes);
    }
  }

  /** A record reads back from what was written for it exactly when it is within the limits. */
  lemma ReadsBackIff(r: Record, decodes: Bytes -> bool)
    ensures Next(Encode(r), decodes) == Got(r) <==> Readable(r, decodes)
  {
    if Readable(r, decodes) {
      WholeRecord(r, [], decodes);
      assert Encode(r) + [] == Encode(r);
    } else {
      OffsetFits(Encode(r)[..FIXED]);
    }
  }

  lemma OffsetFits(fixed: Bytes)
    requires |fixed| == FIXED
    ensures -TWO_63 <= OffsetOf(fixed) < TWO_63
  {
    CapIs();
  }

  // Reading to the end.

  datatype Replay = Replay(records: seq<Record>, end: Outcome)

  lemma GotFits(s: Bytes, decodes: Bytes -> bool)
    requires Next(s, decodes).Got?
    ensures Size(Next(s, decodes).record) <= |s|
  {
  }

  function ReadAll(s: Bytes, decodes: Bytes -> bool): Replay
    decreases |s|
  {
    var next := Next(s, decodes);
    if !next.Got? then Replay([], next)
    else
      GotFits(s, decodes);
      var rest := ReadAll(s[Size(next.record)..], decodes);
      Replay([next.record] + rest.records, rest.end)
  }

  /** How many records lie wholly within the first n bytes of the body. */
  function Whole(rs: seq<Record>, n: nat): (k: nat)
    ensures k <= |rs|
  {
    if rs == [] || n < Size(rs[0]) then 0 else 1 + Whole(rs[1..], n - Size(rs[0]))
  }

  /** That many fit, and one more does not. */
  lemma {:induction false} WholeIsMost(rs: seq<Record>, n: nat)
    ensures |Body(rs[..Whole(rs, n)])| <= n
    ensures Whole(rs, n) < |rs| ==> n < |Body(rs[..Whole(rs, n) + 1])|
    decreases |rs|
  {
    hide Encode;
    var k := Whole(rs, n);
    if rs == [] {
    } else {
      assert rs[..1] == [rs[0]] && Body([rs[0]]) == Encode(rs[0]) + Body([rs[0]][1..]);
      if k > 0 {
        WholeIsMost(rs[1..], n - Size(rs[0]));
        assert rs[..k][1..] == rs[1..][..k - 1];
        if k < |rs| { assert rs[..k + 1][1..] == rs[1..][..k]; }
      }
    }
  }

  /** Cut a capture anywhere in its body: the reader returns exactly the records wholly before the
      cut, in order and intact, and reports a clean end exactly when the cut is on a boundary. */
  lemma {:induction false} TruncatedCapture(rs: seq<Record>, n: nat, decodes: Bytes -> bool)
    requires n <= |Body(rs)| && forall i :: 0 <= i < |rs| ==> Readable(rs[i], decodes)
    ensures var r, k := ReadAll(Body(rs)[..n], decodes), Whole(rs, n);
            && r.records == rs[..k]
            && !r.end.Got?
            && (r.end == CleanEnd <==> n == |Body(rs[..k])|)
    decreases |rs|
  {
    hide Encode, Next, Readable, ReadAll, Whole;
    var s, k := Body(rs)[..n], Whole(rs, n);
    WholeStep(rs, n);
    if k == 0 {
      if n == 0 { ReadNothing(decodes); } else { ReadCut(rs[0], Body(rs[1..]), n, decodes); }
    } else {
      var n' := n - Size(rs[0]);
      var t := Body(rs[1..])[..n'];
      assert s == Encode(rs[0]) + t;
      ReadWhole(rs[0], t, decodes);
      TruncatedCapture(rs[1..], n', decodes);
      assert rs[..k] == [rs[0]] + rs[1..][..k - 1];
      assert rs[..k][1..] == rs[1..][..k - 1];
    }
  }

  lemma WholeStep(rs: seq<Record>, n: nat)
    ensures Whole(rs, n) == if rs == [] || n < Size(rs[0]) then 0 else 1 + Whole(rs[1..], n - Size(rs[0]))
  {
  }

  lemma ReadNothing(decodes: Bytes -> bool)
    ensures ReadAll([], decodes) == Replay([], CleanEnd)
  {
  }

  lemma ReadWhole(r: Record, t: Bytes, decodes: Bytes -> bool)
    requires Readable(r, decodes)
    ensures ReadAll(Encode(r) + t, decodes) == Replay([r] + ReadAll(t, decodes).records, ReadAll(t, decodes).end)
  {
    WholeRecord(r, t, decodes);
    hide Encode, Next;
    assert (Encode(r) + t)[Size(r)..] == t;
  }

  lemma ReadCut(r: Record, t: Bytes, n: nat, decodes: Bytes -> bool)
    requires Readable(r, decodes) && 0 < n < Size(r)
    ensures var read := ReadAll((Encode(r) + t)[..n], decodes); read.records == [] && read.end.Failed?
  {
    CutRecord(r, n, decodes);
    hide Encode, Next;
    assert (Encode(r) + t)[..n] == Encode(r)[..n];
  }

  /** The same for the file: from the magic on. */
  lemma TruncatedFile(rs: seq<Record>, cut: nat, decodes: Bytes -> bool)
    requires |MAGIC| <= cut <= |Capture(rs)| && forall i :: 0 <= i < |rs| ==> Readable(rs[i], decodes)
    ensures var file, k := Capture(rs)[..cut], Whole(rs, cut - |MAGIC|);
            && file[..|MAGIC|] == Ascii(MAGIC)
            && ReadAll(file[|MAGIC|..], decodes).records == rs[..k]
            && (ReadAll(file[|MAGIC|..], decodes).end == CleanEnd <==> file == Capture(rs[..k]))
  {
    hide Body, ReadAll, Readable, Whole, Ascii;
    var n := cut - |MAGIC|;
    var file, k := Capture(rs)[..cut], Whole(rs, n);
    assert file[|MAGIC|..] == Body(rs)[..n];
    TruncatedCapture(rs, n, decodes);
    assert rs == rs[..k] + rs[k..];
    BodyConcat(rs[..k], rs[k..]);
    if n == |Body(rs[..k])| { assert file == Capture(rs[..k]); }
  }

  // The code.

  /** n >> (8 * i). */
  function Shifted(n: nat, i: nat): nat { if i == 0 then n else Shifted(n, i - 1) / 256 }

  /** Appends the low `width` bytes of a number, lowest first. */
  method AppendLe(out: Bytes, value: nat, width: nat) returns (grown: Bytes)
    ensures grown == out + Le(value, width)
  {
    grown := out;
    for i := 0 to width
      invariant grown + Le(Shifted(value, i), width - i) == out + Le(value, width)
    {
      ghost var rest := Le(Shifted(value, i + 1), width - i - 1);
      assert grown + ([Shifted(value, i) % 256] + rest) == grown + [Shifted(value, i) % 256] + rest;
      grown := grown + [Shifted(value, i) % 256];
    }
  }

  method AppendLe32(out: Bytes, value: nat) returns (grown: Bytes)
    ensures grown == out + Le(value, 4)
  {
    grown := AppendLe(out, value, 4);
  }

  method AppendLe64(out: Bytes, value: int) returns (grown: Bytes)
    ensures grown == out + Le(Unsigned(value), 8)
  {
    grown := AppendLe(out, Unsigned(value), 8);
  }

  /** Each byte lands above those before it, so OR-ing it in adds it. */
  method ReadLe(bytes: Bytes) returns (value: nat)
    ensures value == UnLe(bytes)
  {
    value := 0;
    for i := 0 to |bytes|
      invariant UnLe(bytes) == value + Cap(i) * UnLe(bytes[i..])
    {
      assert bytes[i..][1..] == bytes[i + 1..];
      Split(Cap(i), bytes[i], UnLe(bytes[i + 1..]));
      value := value + bytes[i] * Cap(i);
    }
    assert bytes[|bytes|..] == [];
  }

  lemma Split(c: nat, low: nat, high: nat)
    ensures c * (low + 256 * high) == low * c + 256 * c * high
  {
  }

  lemma RecordIs(r: Record, record: Bytes)
    requires record == Le(Unsigned(r.offset), 8) + Le(|r.header| % TWO_32, 4) + Le(|r.payload| % TWO_32, 4) + r.header + r.payload
    ensures record == Encode(r)
  {
  }

  class RecordWriter {
    var open: bool
    var file: Bytes
    var count: nat
    var startMicros: int
    /** What has been captured, and whether a write has fallen short. */
    ghost var captured: seq<Record>
    ghost var torn: bool

    ghost predicate Valid()
      reads this
    {
      && (open && !torn ==> file == Capture(captured))
      && count == |captured|
      && (captured != [] ==> captured[0].offset == 0)
    }

    constructor ()
      ensures Valid() && !open
    {
      open, file, count, startMicros, captured, torn := false, [], 0, 0, [], false;
    }

    /** `opens` and `wrote`: whether the file can be opened and how much of the magic reaches it. */
    method Open(opens: bool, wrote: nat) returns (ok: bool)
      requires Valid() && wrote <= |MAGIC|
      modifies this
      ensures Valid() && ok == (opens && wrote == |MAGIC|)
      ensures ok ==> open && !torn && captured == []
    {
      open := opens;
      if !opens {
        return false;
      }
      file, torn := Ascii(MAGIC)[..wrote], wrote != |MAGIC|;
      if wrote != |MAGIC| {
        return false;
      }
      assert Ascii(MAGIC) + [] == Ascii(MAGIC);
      count, startMicros, captured := 0, 0, [];
      ok := true;
    }

    /** Appends one record in one write, of which `wrote` bytes reach the file. */
    method Write(header: Bytes, payload: Bytes, now: int, wrote: nat) returns (ok: bool)
      requires Valid() && wrote <= FIXED + |header| + |payload|
      modifies this
      ensures Valid() && open == old(open)
      ensures ok == (open && wrote == FIXED + |header| + |payload|)
      ensures open ==> startMicros == if old(count) == 0 then now else old(startMicros)
      ensures open ==> file == old(file) + Encode(Record(now - startMicros, header, payload))[..wrote]
      ensures captured == old(captured) + if ok then [Record(now - startMicros, header, payload)] else []
      ensures torn == (old(torn) || (open && !ok)) && (!open ==> file == old(file))
    {
      hide Body, FixedPart, Ascii, Le, Unsigned;
      if !open {
        return false;
      }
      if count == 0 {
        startMicros := now;
      }
      ghost var r := Record(now - startMicros, header, payload);
      var record: Bytes := [];
      record := AppendLe64(record, now - startMicros);
      assert record == Le(Unsigned(r.offset), 8);
      record := AppendLe32(record, |header| % TWO_32);
      record := AppendLe32(record, |payload| % TWO_32);
      record := record + header + payload;
      RecordIs(r, record);
      hide Encode;
      file := file + record[..wrote];
      if wrote != |record| {
        torn := true;
        return false;
      }
      assert record[..wrote] == record;
      CaptureSnoc(captured, r);
      count, captured := count + 1, captured + [r];
      ok := true;
    }
  }

  class RecordReader {
    const file: Bytes
    const decodes: Bytes -> bool
    var pos: nat

    ghost predicate Valid()
      reads this
    {
      pos <= |file|
    }

    constructor (file: Bytes, decodes: Bytes -> bool)
      ensures Valid() && this.file == file && this.decodes == decodes && pos == 0
    {
      this.file, this.decodes, pos := file, decodes, 0;
    }

    /** Up to n bytes from the cursor on. */
    method Fread(n: nat) returns (bytes: Bytes)
      requires Valid()
      modifies this`pos
      ensures Valid() && pos == old(pos) + |bytes| && bytes == file[old(pos)..pos]
      ensures |bytes| == n || (|bytes| < n && pos == |file|)
    {
      var to := if n <= |file| - pos then pos + n else |file|;
      bytes := file[pos..to];
      pos := to;
    }

    method Open() returns (ok: bool)
      requires Valid() && pos == 0
      modifies this`pos
      ensures Valid() && ok == (Ascii(MAGIC) <= file) && (ok ==> pos == |MAGIC|)
    {
      var magic := Fread(|MAGIC|);
      ok := magic == Ascii(MAGIC);
    }

    /** The next record. A clean end and a damaged record are told apart. */
    method Read() returns (r: Outcome)
      requires Valid()
      modifies this`pos
      ensures Valid() && r == Next(file[old(pos)..], decodes)
      ensures r.Got? ==> pos == old(pos) + Size(r.record)
    {
      ghost var s := file[pos..];
      var fixed := Fread(FIXED);
      if fixed == [] {
        return CleanEnd;
      }
      if |fixed| != FIXED {
        return Failed(MidRecord);
      }
      assert s[..FIXED] == fixed;
      var bits := ReadLe(fixed[..8]);
      var headerLength := ReadLe(fixed[8..12]);
      var payloadLength := ReadLe(fixed[12..]);
      if headerLength == 0 || headerLength > MAX_MESSAGE_SIZE || payloadLength > MAX_MESSAGE_SIZE {
        return Failed(ImplausibleSize);
      }
      var header := Fread(headerLength);
      if |header| != headerLength {
        return Failed(InsideHeader);
      }
      assert header == s[FIXED..][..headerLength];
      var payload := Fread(payloadLength);
      if |payload| != payloadLength {
        return Failed(InsidePayload);
      }
      assert payload == s[FIXED..][headerLength..headerLength + payloadLength];
      if !decodes(header) {
        return Failed(UndecodableHeader);
      }
      r := Got(Record(Signed(bits), header, payload));
    }
  }
}
