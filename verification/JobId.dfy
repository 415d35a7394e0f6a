/** The container-name codec of src/bpm/jobid/encoding.go.
    Go strings are byte strings, so names are sequences of characters below 256. */
module JobId {

  type Byte = c: char | c as int < 256 witness 'a'

  type Bytes = seq<Byte>

  /** What a call of Decode can do: return a name, return an error, or slice out of range. */
  datatype DecodeResult = Decoded(name: Bytes) | Invalid | SliceOutOfRange

  const PREFIX: Bytes := "bpm-"

  predicate IsAlphaNumSym(b: Byte) {
    'a' <= b <= 'z' || 'A' <= b <= 'Z' || '0' <= b <= '9' || b == '_' || b == '-'
  }

  predicate NeedsEscaping(b: Byte) {
    !IsAlphaNumSym(b)
  }

  /** The characters runc accepts in a container ID: letters, digits, '_', '-' and '.'. */
  predicate IsIdChar(b: Byte) {
    || ('a' <= b && b <= 'z') || ('A' <= b && b <= 'Z') || ('0' <= b && b <= '9')
    || b in {'_', '-', '.'}
  }

  predicate IsLowerHex(b: Byte) {
    '0' <= b <= '9' || 'a' <= b <= 'f'
  }

  predicate IsHex(b: Byte) {
    IsLowerHex(b) || 'A' <= b <= 'F'
  }

  function HexDigit(n: nat): (d: Byte)
    requires n < 16
    ensures IsLowerHex(d) && HexValue(d) == n
  {
    if n < 10 then ('0' as int + n) as char else ('a' as int + (n - 10)) as char
  }

  function HexValue(d: Byte): (n: nat)
    requires IsHex(d)
    ensures n < 16
  {
    if d <= '9' then d as int - '0' as int
    else if d <= 'F' then d as int - 'A' as int + 10
    else d as int - 'a' as int + 10
  }

  /** The byte that two hex digits denote. */
  function HexByte(hi: Byte, lo: Byte): (b: Byte)
    requires IsHex(hi) && IsHex(lo)
  {
    (HexValue(hi) * 16 + HexValue(lo)) as char
  }

  function Escape(b: Byte): (e: Bytes)
    ensures |e| == 3 && e[0] == '.' && IsLowerHex(e[1]) && IsLowerHex(e[2])
    ensures HexByte(e[1], e[2]) == b
  {
    ['.', HexDigit(b as int / 16), HexDigit(b as int % 16)]
  }

  function EncodeByte(b: Byte): Bytes {
    if NeedsEscaping(b) then Escape(b) else [b]
  }

  function EncodeBody(name: Bytes): Bytes {
    if name == [] then [] else EncodeByte(name[0]) + EncodeBody(name[1..])
  }

  function Encode(name: Bytes): Bytes {
    PREFIX + EncodeBody(name)
  }

  /** One byte put in front of whatever the rest decodes to. */
  function Prepend(b: Bytes, r: DecodeResult): DecodeResult {
    if r.Decoded? then Decoded(b + r.name) else r
  }

  /** The loop of Decode from one index to the end. The guard of the source only rejects a
      '.' in the last position: a '.' followed by exactly one byte is sliced past the end.
      Two bytes that are not both hex digits are dropped. */
  function DecodeBody(id: Bytes): DecodeResult {
    if id == [] then Decoded([])
    else if id[0] != '.' then Prepend([id[0]], DecodeBody(id[1..]))
    else if |id| == 1 then Invalid
    else if |id| == 2 then SliceOutOfRange
    else if IsHex(id[1]) && IsHex(id[2]) then Prepend([HexByte(id[1], id[2])], DecodeBody(id[3..]))
    else DecodeBody(id[3..])
  }

  function Decode(id: Bytes): DecodeResult {
    if PREFIX <= id then DecodeBody(id[4..]) else Invalid
  }

  // ---------------------------------------------------------------- the loops of the source

  lemma {:induction false} EncodeBodyAppend(a: Bytes, b: Byte)
    ensures EncodeBody(a + [b]) == EncodeBody(a) + EncodeByte(b)
  {
    if a == [] {
      assert a + [b] == [b];
      assert EncodeBody([b][1..]) == [];
    } else {
      EncodeBodyAppend(a[1..], b);
      assert (a + [b])[1..] == a[1..] + [b];
      assert EncodeBody(a + [b]) == EncodeByte(a[0]) + EncodeBody(a[1..] + [b]);
    }
  }

  /** Encode: an index loop appending to a builder. */
  method EncodeName(name: Bytes) returns (id: Bytes)
    ensures id == Encode(name)
  {
    id := PREFIX;
    var i := 0;
    while i < |name|
      invariant 0 <= i <= |name|
      invariant id == PREFIX + EncodeBody(name[..i])
    {
      var chr := name[i];
      EncodeBodyAppend(name[..i], chr);
      assert name[..i + 1] == name[..i] + [chr];
      if NeedsEscaping(chr) {
        id := id + Escape(chr);
      } else {
        id := id + [chr];
      }
      i := i + 1;
    }
    assert name[..i] == name;
  }

  lemma PrependTwice(a: Bytes, b: Bytes, r: DecodeResult)
    ensures Prepend(a, Prepend(b, r)) == Prepend(a + b, r)
  {
    if r.Decoded? {
      assert a + (b + r.name) == a + b + r.name;
    }
  }

  /** What the two bytes of a code add to the name. */
  function CodeBytes(hi: Byte, lo: Byte): Bytes { if IsHex(hi) && IsHex(lo) then [HexByte(hi, lo)] else [] }

  lemma PlainTurn(body: Bytes, i: nat, name: Bytes)
    requires i < |body| && body[i] != '.'
    ensures Prepend(name, DecodeBody(body[i..])) == Prepend(name + [body[i]], DecodeBody(body[i + 1..]))
  {
    assert body[i..][1..] == body[i + 1..];
    PrependTwice(name, [body[i]], DecodeBody(body[i + 1..]));
  }

  lemma CodeTurn(body: Bytes, i: nat, name: Bytes)
    requires i + 3 <= |body| && body[i] == '.'
    ensures Prepend(name, DecodeBody(body[i..]))
            == Prepend(name + CodeBytes(body[i + 1], body[i + 2]), DecodeBody(body[i + 3..]))
  {
    assert body[i..][3..] == body[i + 3..];
    assert name + [] == name;
    PrependTwice(name, CodeBytes(body[i + 1], body[i + 2]), DecodeBody(body[i + 3..]));
  }

  /** Decode: an index loop in which an escape also bumps the index. */
  method DecodeId(id: Bytes) returns (r: DecodeResult)
    ensures r == Decode(id)
  {
    if !(PREFIX <= id) {
      return Invalid;
    }
    r := DecodeLoop(id[4..]);
  }

  method DecodeLoop(body: Bytes) returns (r: DecodeResult)
    ensures r == DecodeBody(body)
  {
    var name: Bytes := [];
    var i := 0;
    while i < |body|
      invariant 0 <= i <= |body|
      invariant DecodeBody(body) == Prepend(name, DecodeBody(body[i..]))
    {
      var chr := body[i];
      if chr == '.' {
        if i + 2 > |body| {
          return Invalid;
        }
        if i + 3 > |body| {
          return SliceOutOfRange;
        }
        CodeTurn(body, i, name);
        var code := body[i + 1..i + 3];
        if IsHex(code[0]) && IsHex(code[1]) {
          name := name + [HexByte(code[0], code[1])];
        } else {
          assert name + [] == name;
        }
        i := i + 2;
      } else {
        PlainTurn(body, i, name);
        name := name + [chr];
      }
      i := i + 1;
    }
    r := Decoded(name);
  }

  // ---------------------------------------------------------------- round trips

  lemma {:induction false} DecodeEncodedBody(name: Bytes)
    ensures DecodeBody(EncodeBody(name)) == Decoded(name)
  {
    if name != [] {
      DecodeEncodedBody(name[1..]);
      var id := EncodeBody(name);
      var e := EncodeByte(name[0]);
      assert id[|e|..] == EncodeBody(name[1..]);
      assert name == [name[0]] + name[1..];
    }
  }

  /** Every byte string survives encoding and decoding; no index of Decode is out of range. */
  lemma DecodeOfEncode(name: Bytes)
    ensures Decode(Encode(name)) == Decoded(name)
  {
    assert Encode(name)[4..] == EncodeBody(name);
    DecodeEncodedBody(name);
  }

  lemma EncodeInjective(a: Bytes, b: Bytes)
    requires Encode(a) == Encode(b)
    ensures a == b
  {
    DecodeOfEncode(a);
    DecodeOfEncode(b);
  }

  /** An encoded name only holds characters that runc accepts in a container ID. */
  lemma {:induction false} EncodedCharacters(name: Bytes)
    ensures forall c :: c in Encode(name) ==> IsIdChar(c)
    decreases |name|
  {
    if name != [] {
      EncodedCharacters(name[1..]);
      forall c | c in EncodeBody(name[1..]) ensures IsIdChar(c) {
        assert c in Encode(name[1..]);
      }
    }
  }

  /** A byte stands for itself exactly if runc accepts it and it is not the escape character; every
      other byte becomes three. */
  lemma ByteLaw(b: Byte)
    ensures EncodeByte(b) == [b] <==> IsIdChar(b) && b != '.'
    ensures |EncodeByte(b)| == if IsIdChar(b) && b != '.' then 1 else 3
  {
  }

  /** The number of bytes that cannot stand for themselves. */
  function Escapes(name: Bytes): nat {
    if name == [] then 0
    else (if IsIdChar(name[0]) && name[0] != '.' then 0 else 1) + Escapes(name[1..])
  }

  /** Every escaped byte costs two more. */
  lemma {:induction false} EncodedLength(name: Bytes)
    ensures |Encode(name)| == 4 + |name| + 2 * Escapes(name)
    decreases |name|
  {
    if name != [] {
      ByteLaw(name[0]);
      EncodedLength(name[1..]);
    }
  }

  /** A name is left as it is exactly if runc accepts all its bytes and none is a '.'. */
  lemma {:induction false} UnescapedIff(name: Bytes)
    ensures Encode(name) == "bpm-" + name <==> forall i :: 0 <= i < |name| ==> IsIdChar(name[i]) && name[i] != '.'
    decreases |name|
  {
    if name != [] {
      var rest := name[1..];
      ByteLaw(name[0]);
      UnescapedIff(rest);
      EncodedLength(rest);
      assert name == [name[0]] + rest;
      assert Encode(name)[4..] == EncodeByte(name[0]) + EncodeBody(rest) && Encode(rest)[4..] == EncodeBody(rest);
      assert forall i :: 1 <= i < |name| ==> name[i] == rest[i - 1];
      if Encode(name) == "bpm-" + name {
        assert Encode(name)[4..] == name;
        EncodedLength(name);
        assert EncodeByte(name[0]) == [name[0]] && EncodeBody(rest) == name[1..];
      }
    }
  }

  /** The body uses escapes only where they are needed, and writes them in lower case. */
  predicate MinimalEscapes(body: Bytes) {
    body == [] ||
    (if body[0] == '.' then
       && |body| >= 3 && IsLowerHex(body[1]) && IsLowerHex(body[2])
       && NeedsEscaping(HexByte(body[1], body[2]))
       && MinimalEscapes(body[3..])
     else
       IsAlphaNumSym(body[0]) && MinimalEscapes(body[1..]))
  }

  predicate Canonical(id: Bytes) {
    PREFIX <= id && MinimalEscapes(id[4..])
  }

  lemma {:induction false} EncodedBodyIsMinimal(name: Bytes)
    ensures MinimalEscapes(EncodeBody(name))
  {
    if name != [] {
      EncodedBodyIsMinimal(name[1..]);
      var e := EncodeByte(name[0]);
      assert EncodeBody(name)[|e|..] == EncodeBody(name[1..]);
    }
  }

  lemma HexByteEscape(hi: Byte, lo: Byte)
    requires IsLowerHex(hi) && IsLowerHex(lo)
    ensures Escape(HexByte(hi, lo)) == ['.', hi, lo]
  {
    var h, l := HexValue(hi), HexValue(lo);
    assert (h * 16 + l) / 16 == h && (h * 16 + l) % 16 == l;
  }

  lemma {:induction false} EncodeDecodedBody(body: Bytes)
    requires MinimalEscapes(body)
    ensures DecodeBody(body).Decoded? && EncodeBody(DecodeBody(body).name) == body
  {
    if body == [] {
    } else if body[0] == '.' {
      EncodeDecodedBody(body[3..]);
      HexByteEscape(body[1], body[2]);
      var rest := DecodeBody(body[3..]).name;
      var b := HexByte(body[1], body[2]);
      assert ([b] + rest)[1..] == rest;
      assert body == ['.', body[1], body[2]] + body[3..];
    } else {
      EncodeDecodedBody(body[1..]);
      var rest := DecodeBody(body[1..]).name;
      assert ([body[0]] + rest)[1..] == rest;
      assert body == [body[0]] + body[1..];
    }
  }

  /** Re-encoding a decoded ID gives the ID back exactly for the canonical ones. */
  lemma EncodeOfDecode(id: Bytes)
    ensures (Decode(id).Decoded? && Encode(Decode(id).name) == id) <==> Canonical(id)
  {
    if Canonical(id) {
      EncodeDecodedBody(id[4..]);
      assert id == PREFIX + id[4..];
    }
    if Decode(id).Decoded? && Encode(Decode(id).name) == id {
      EncodedBodyIsMinimal(Decode(id).name);
      assert id[4..] == EncodeBody(Decode(id).name);
    }
  }

  // ---------------------------------------------------------------- what an ID means

  /** The hex digit denotes the number, in lower or upper case. */
  predicate Denotes(c: Byte, n: nat) {
    n < 16 && (c == "0123456789abcdef"[n] || c == "0123456789ABCDEF"[n])
  }

  lemma HexTable(c: Byte)
    ensures IsHex(c) <==> exists n :: Denotes(c, n)
    ensures forall n :: Denotes(c, n) ==> IsHex(c) && HexValue(c) == n
  {
    if IsHex(c) {
      assert Denotes(c, HexValue(c));
    }
  }

  /** A byte that stands for itself, or a '.' and the two bytes after it. */
  datatype Piece = Plain(b: Byte) | Code(hi: Byte, lo: Byte)

  function Text(pieces: seq<Piece>): Bytes {
    if pieces == [] then []
    else (match pieces[0] case Plain(b) => [b] case Code(hi, lo) => ['.', hi, lo]) + Text(pieces[1..])
  }

  /** Every code denotes the byte its two hex digits write, and nothing if they are no hex digits. */
  ghost predicate Means(p: Piece, bytes: Bytes) {
    match p
    case Plain(b) => bytes == [b]
    case Code(hi, lo) =>
      || (exists n, m :: Denotes(hi, n) && Denotes(lo, m) && bytes == [(16 * n + m) as char])
      || (bytes == [] && forall n, m :: !(Denotes(hi, n) && Denotes(lo, m)))
  }

  ghost predicate Readable(p: Piece, bytes: Bytes) { (p.Plain? ==> p.b != '.') && Means(p, bytes) }

  lemma PieceDecodes(p: Piece, rest: Bytes, bytes: Bytes)
    requires Readable(p, bytes)
    ensures DecodeBody(Text([p]) + rest) == Prepend(bytes, DecodeBody(rest))
  {
    assert [p][1..] == [];
    var id := Text([p]) + rest;
    if p.Plain? {
      assert Text([p]) == [p.b] + Text([]);
      assert id == [p.b] + rest && id[1..] == rest;
    } else {
      assert Text([p]) == ['.', p.hi, p.lo] + Text([]);
      assert id == ['.', p.hi, p.lo] + rest && id[3..] == rest;
      HexTable(p.hi);
      HexTable(p.lo);
    }
  }

  function Concat(parts: seq<Bytes>): Bytes { if parts == [] then [] else parts[0] + Concat(parts[1..]) }

  lemma TextCons(p: Piece, rest: seq<Piece>)
    ensures Text([p] + rest) == Text([p]) + Text(rest)
  {
    assert [p][1..] == [] && ([p] + rest)[1..] == rest;
    assert Text([]) == [];
  }

  lemma {:induction false} BodyMeaning(pieces: seq<Piece>, parts: seq<Bytes>)
    requires |parts| == |pieces| && forall i :: 0 <= i < |pieces| ==> Readable(pieces[i], parts[i])
    ensures DecodeBody(Text(pieces)) == Decoded(Concat(parts))
    decreases |pieces|
  {
    if pieces != [] {
      BodyMeaning(pieces[1..], parts[1..]);
      assert Readable(pieces[0], parts[0]);
      PieceDecodes(pieces[0], Text(pieces[1..]), parts[0]);
      TextCons(pieces[0], pieces[1..]);
      assert pieces == [pieces[0]] + pieces[1..];
    }
  }

  /** An ID made of plain bytes and codes decodes to the bytes they denote, in order. */
  lemma DecodeMeaning(pieces: seq<Piece>, parts: seq<Bytes>)
    requires |parts| == |pieces| && forall i :: 0 <= i < |pieces| ==> Readable(pieces[i], parts[i])
    ensures Decode("bpm-" + Text(pieces)) == Decoded(Concat(parts))
  {
    assert ("bpm-" + Text(pieces))[4..] == Text(pieces);
    BodyMeaning(pieces, parts);
  }

  // ---------------------------------------------------------------- the failing inputs

  /** Plain bytes and complete three-byte escapes, well formed or not. */
  predicate WholeEscapes(body: Bytes) {
    body == [] ||
    (if body[0] == '.' then |body| >= 3 && WholeEscapes(body[3..]) else WholeEscapes(body[1..]))
  }

  /** What is left of a body once its plain bytes and complete escapes are consumed is
      the truncated escape `cut`. */
  ghost predicate EndsIn(body: Bytes, cut: Bytes) {
    |cut| <= |body| && body[|body| - |cut|..] == cut && WholeEscapes(body[..|body| - |cut|])
  }

  /** Consuming one plain byte or one escape keeps how the body ends. */
  lemma StepKeepsEnd(body: Bytes, n: nat, cut: Bytes)
    requires n <= |body| && ((n == 1 && body[0] != '.') || (n == 3 && body[0] == '.'))
    requires 1 <= |cut| <= 2 && cut[0] == '.'
    ensures EndsIn(body, cut) <==> EndsIn(body[n..], cut)
  {
    if |cut| <= |body| {
      var keep := |body| - |cut|;
      if n <= keep {
        assert body[..keep][n..] == body[n..][..keep - n];
        assert body[n..][keep - n..] == body[keep..];
      } else if n == 3 {
        assert body[..keep][0] == '.';
      }
    }
  }

  lemma {:induction false} BodyDecodes(body: Bytes)
    ensures DecodeBody(body).Decoded? <==> WholeEscapes(body)
  {
    if body != [] && body[0] != '.' {
      BodyDecodes(body[1..]);
    } else if |body| >= 3 {
      BodyDecodes(body[3..]);
    }
  }

  lemma {:induction false} BodyInvalid(body: Bytes)
    ensures DecodeBody(body).Invalid? <==> EndsIn(body, ".")
  {
    if body != [] && body[0] != '.' {
      BodyInvalid(body[1..]);
      StepKeepsEnd(body, 1, ".");
    } else if |body| >= 3 {
      BodyInvalid(body[3..]);
      StepKeepsEnd(body, 3, ".");
    }
  }

  lemma {:induction false} BodySliced(body: Bytes, last: Byte)
    requires body == [] || body[|body| - 1] == last
    ensures DecodeBody(body).SliceOutOfRange? <==> EndsIn(body, ['.', last])
  {
    if body != [] && body[0] != '.' {
      BodySliced(body[1..], last);
      StepKeepsEnd(body, 1, ['.', last]);
    } else if |body| >= 3 {
      BodySliced(body[3..], last);
      StepKeepsEnd(body, 3, ['.', last]);
    }
  }

  /** Decode returns a name, an error or slices out of range, each on exactly these IDs:
      an error needs a missing prefix or a final '.', the slice needs a final '.' and one byte. */
  lemma DecodeOutcome(id: Bytes)
    ensures Decode(id).Decoded? <==> PREFIX <= id && WholeEscapes(id[4..])
    ensures Decode(id).Invalid? <==> !(PREFIX <= id) || EndsIn(id[4..], ".")
    ensures Decode(id).SliceOutOfRange? <==>
            PREFIX <= id && |id| >= 6 && EndsIn(id[4..], ['.', id[|id| - 1]])
  {
    if PREFIX <= id {
      var body := id[4..];
      BodyDecodes(body);
      BodyInvalid(body);
      BodySliced(body, if body == [] then '-' else body[|body| - 1]);
    }
  }
}
