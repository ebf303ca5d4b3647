/**
  Conversion between browser selections (UTF-16 code units) and evidence spans (UTF-8 bytes),
  packages/contracts/utf8.ts.

  Text is any sequence of UTF-16 code units, paired or not: a JavaScript string may hold a
  lone surrogate, and the encoder then writes U+FFFD for it. The encoder and the decoder
  follow RFC 3629 sections 3 and 4, surrogate pairs follow RFC 2781 section 2.
 */
module Utf8Spans {
  import opened Common

  type Unit = u: int | 0 <= u < 0x1_0000
  type Byte = b: int | 0 <= b < 0x100
  type Scalar = c: int | 0 <= c < 0xD800 || 0xE000 <= c <= 0x10_FFFF
  type Text = seq<Unit>

  // ----- UTF-16 -----

  predicate IsHigh(u: Unit) { 0xD800 <= u <= 0xDBFF }

  predicate IsLow(u: Unit) { 0xDC00 <= u <= 0xDFFF }

  const REPLACEMENT: Scalar := 0xFFFD
  const BYTE_ORDER_MARK: Scalar := 0xFEFF

  /** How many units the first character of `t` takes. */
  function HeadLength(t: Text): (n: nat)
    requires t != []
    ensures 1 <= n <= |t| && n <= 2
  {
    if IsHigh(t[0]) && |t| > 1 && IsLow(t[1]) then 2 else 1
  }

  function HeadScalar(t: Text): Scalar
    requires t != []
  {
    if HeadLength(t) == 2 then 0x1_0000 + (t[0] - 0xD800) * 0x400 + (t[1] - 0xDC00)
    else if IsHigh(t[0]) || IsLow(t[0]) then REPLACEMENT
    else t[0]
  }

  /** The scalar values the encoder sees: pairs combined, lone surrogates replaced. */
  function Scalars(t: Text): seq<Scalar> {
    if t == [] then [] else [HeadScalar(t)] + Scalars(t[HeadLength(t)..])
  }

  function Utf16Of(c: Scalar): (u: Text)
    ensures |u| == if c < 0x1_0000 then 1 else 2
  {
    if c < 0x1_0000 then [c]
    else [0xD800 + (c - 0x1_0000) / 0x400, 0xDC00 + (c - 0x1_0000) % 0x400]
  }

  function Utf16(cs: seq<Scalar>): Text {
    if cs == [] then [] else Utf16Of(cs[0]) + Utf16(cs[1..])
  }

  /** No surrogate stands alone. */
  ghost predicate WellFormed(t: Text) {
    && (forall i :: 0 <= i < |t| && IsHigh(t[i]) ==> i + 1 < |t| && IsLow(t[i + 1]))
    && (forall i :: 0 <= i < |t| && IsLow(t[i]) ==> i > 0 && IsHigh(t[i - 1]))
  }

  predicate SplitsPair(t: Text, i: int) {
    0 < i < |t| && IsHigh(t[i - 1]) && IsLow(t[i])
  }

  lemma HeadOfPrefix(t: Text, i: nat)
    requires 0 < i <= |t| && !SplitsPair(t, i)
    ensures HeadLength(t) <= i && HeadLength(t[..i]) == HeadLength(t) && HeadScalar(t[..i]) == HeadScalar(t)
    ensures t[..i][HeadLength(t)..] == t[HeadLength(t)..][..i - HeadLength(t)]
  {
    var n := HeadLength(t);
    assert n <= i;
    assert t[..i][n..] == t[n..i] == t[n..][..i - n];
  }

  /** Cutting anywhere but inside a pair cuts the scalar sequence. */
  lemma {:induction false} ScalarsSplit(t: Text, i: nat)
    requires i <= |t| && !SplitsPair(t, i)
    ensures Scalars(t) == Scalars(t[..i]) + Scalars(t[i..])
    decreases |t|
  {
    if i == 0 {
      assert t[..i] == [] && t[i..] == t;
    } else {
      var h := HeadLength(t);
      HeadOfPrefix(t, i);
      assert t[i..] == t[h..][i - h..];
      ScalarsSplit(t[h..], i - h);
      assert Scalars(t) == [HeadScalar(t)] + (Scalars(t[..i][h..]) + Scalars(t[i..]));
    }
  }

  /** Every prefix of the scalars is the scalars of a prefix of the text. */
  lemma {:induction false} PrefixForScalars(t: Text, p: nat) returns (i: nat)
    requires p <= |Scalars(t)|
    ensures i <= |t| && !SplitsPair(t, i)
    ensures Scalars(t[..i]) == Scalars(t)[..p]
    decreases |t|
  {
    if p == 0 {
      i := 0;
    } else {
      var h := HeadLength(t);
      var j := PrefixForScalars(t[h..], p - 1);
      i := h + j;
      var front := t[..i];
      assert HeadLength(front) == h && HeadScalar(front) == HeadScalar(t);
      assert front[h..] == t[h..][..j];
    }
  }

  predicate LoneHead(t: Text)
    requires t != []
  {
    HeadLength(t) == 1 && (IsHigh(t[0]) || IsLow(t[0]))
  }

  lemma WellFormedStep(t: Text)
    requires t != []
    ensures WellFormed(t) <==> !LoneHead(t) && WellFormed(t[HeadLength(t)..])
  {
    var h := HeadLength(t);
    var rest := t[h..];
    assert forall i :: 0 <= i < |rest| ==> rest[i] == t[h + i];
    assert forall i :: h <= i < |t| ==> t[i] == rest[i - h];
  }

  lemma HeadRoundTrip(t: Text)
    requires t != []
    ensures |Utf16Of(HeadScalar(t))| == HeadLength(t)
    ensures Utf16Of(HeadScalar(t)) == t[..HeadLength(t)] <==> !LoneHead(t)
  {
    var u := Utf16Of(HeadScalar(t));
    if HeadLength(t) == 2 {
      assert u[0] == t[0] && u[1] == t[1];
    }
  }

  /** Turning scalars back into units keeps the length, and is exact just on well-formed text. */
  lemma {:induction false} Utf16OfScalars(t: Text)
    ensures |Utf16(Scalars(t))| == |t|
    ensures Utf16(Scalars(t)) == t <==> WellFormed(t)
    decreases |t|
  {
    if t != [] {
      var h := HeadLength(t);
      Utf16OfScalars(t[h..]);
      HeadRoundTrip(t);
      WellFormedStep(t);
      var u, w := Utf16Of(HeadScalar(t)), Utf16(Scalars(t[h..]));
      assert Scalars(t)[1..] == Scalars(t[h..]);
      assert Utf16(Scalars(t)) == u + w;
      assert t == t[..h] + t[h..];
      assert (u + w)[..h] == u && (u + w)[h..] == w;
    }
  }

  // ----- UTF-8 -----

  /** The six low bits and what is above them. */
  function Low(v: int): int { v % 0x40 }

  function High(v: int): int { v / 0x40 }

  function EncodeScalar(c: Scalar): (bs: seq<Byte>)
    ensures 1 <= |bs| <= 4
  {
    var c1 := High(c);
    var c2 := High(c1);
    if c < 0x80 then [c]
    else if c < 0x800 then [0xC0 + c1, 0x80 + Low(c)]
    else if c < 0x1_0000 then [0xE0 + c2, 0x80 + Low(c1), 0x80 + Low(c)]
    else [0xF0 + High(c2), 0x80 + Low(c2), 0x80 + Low(c1), 0x80 + Low(c)]
  }

  function EncodeScalars(cs: seq<Scalar>): seq<Byte> {
    if cs == [] then [] else EncodeScalar(cs[0]) + EncodeScalars(cs[1..])
  }

  /** TextEncoder.encode. */
  function Encode(t: Text): seq<Byte> {
    EncodeScalars(Scalars(t))
  }

  /** The bytes of a single unit; half of a surrogate pair alone becomes the replacement character. */
  lemma EncodedUnit(u: Unit)
    ensures
      Encode([u])
      == if u < 0x80 then [u]
         else if u < 0x800 then [0xC0 + u / 0x40, 0x80 + u % 0x40]
         else if 0xD800 <= u <= 0xDFFF then [0xEF, 0xBF, 0xBD]
         else [0xE0 + u / 0x1000, 0x80 + u / 0x40 % 0x40, 0x80 + u % 0x40]
  {
    var c := HeadScalar([u]);
    assert [u][1..] == [] && Scalars([u]) == [c] + [] && [c] + [] == [c];
    assert [c][1..] == [] && EncodeScalars([c]) == EncodeScalar(c) + [] && EncodeScalar(c) + [] == EncodeScalar(c);
  }

  /** And those of a pair. */
  lemma EncodedPair(high: Unit, low: Unit)
    requires 0xD800 <= high <= 0xDBFF && 0xDC00 <= low <= 0xDFFF
    ensures
      var c := 0x1_0000 + (high - 0xD800) * 0x400 + (low - 0xDC00);
      Encode([high, low]) == [0xF0 + c / 0x4_0000, 0x80 + c / 0x1000 % 0x40, 0x80 + c / 0x40 % 0x40, 0x80 + c % 0x40]
  {
    var t, c := [high, low], HeadScalar([high, low]);
    assert t[2..] == [] && Scalars(t) == [c] + [] && [c] + [] == [c];
    assert [c][1..] == [] && EncodeScalars([c]) == EncodeScalar(c) + [] && EncodeScalar(c) + [] == EncodeScalar(c);
  }

  predicate IsTail(b: Byte) { 0x80 <= b <= 0xBF }

  predicate IsTailAt(bs: seq<Byte>, i: nat) { i < |bs| && IsTail(bs[i]) }

  /** How many bytes the first character takes by the UTF8-octets grammar, zero when there is none. */
  function SequenceLength(bs: seq<Byte>): (n: nat)
    ensures n <= |bs| && n <= 4
  {
    if bs == [] then 0
    else
      var b: int := bs[0];
      if b < 0x80 then 1
      else if 0xC2 <= b <= 0xDF && IsTailAt(bs, 1) then 2
      else if 0xE0 <= b <= 0xEF && IsTailAt(bs, 1) && IsTailAt(bs, 2)
              && (b == 0xE0 ==> bs[1] >= 0xA0) && (b == 0xED ==> bs[1] <= 0x9F) then 3
      else if 0xF0 <= b <= 0xF4 && IsTailAt(bs, 1) && IsTailAt(bs, 2) && IsTailAt(bs, 3)
              && (b == 0xF0 ==> bs[1] >= 0x90) && (b == 0xF4 ==> bs[1] <= 0x8F) then 4
      else 0
  }

  /** One more tail byte below the bits read so far. */
  function Shift(v: int, tail: Byte): int { v * 0x40 + (tail as int - 0x80) }

  /** The first character of a strict decode with the bytes it takes, or nothing. */
  function DecodeHead(bs: seq<Byte>): (r: Option<(Scalar, nat)>)
    ensures r.Some? ==> 1 <= r.value.1 <= |bs|
  {
    var n := SequenceLength(bs);
    if n == 0 then None
    else if n == 1 then Some((bs[0], 1))
    else if n == 2 then Some((Shift(bs[0] as int - 0xC0, bs[1]), 2))
    else if n == 3 then Some((Shift(Shift(bs[0] as int - 0xE0, bs[1]), bs[2]), 3))
    else Some((Shift(Shift(Shift(bs[0] as int - 0xF0, bs[1]), bs[2]), bs[3]), 4))
  }

  /** A fatal decode: all of the bytes or nothing. */
  function Decode(bs: seq<Byte>): Option<seq<Scalar>> {
    if bs == [] then Some([])
    else
      var head := DecodeHead(bs);
      if head.None? then None
      else
        var rest := Decode(bs[head.value.1..]);
        if rest.None? then None else Some([head.value.0] + rest.value)
  }

  lemma DecodeHeadOfEncoded(c: Scalar, rest: seq<Byte>)
    ensures DecodeHead(EncodeScalar(c) + rest) == Some((c, |EncodeScalar(c)|))
  {
    var e := EncodeScalar(c);
    assert forall i :: 0 <= i < |e| ==> (e + rest)[i] == e[i];
    assert SequenceLength(e + rest) == |e|;
  }

  lemma ShiftParts(v: nat, tail: Byte)
    requires IsTail(tail)
    ensures High(Shift(v, tail)) == v && Low(Shift(v, tail)) == tail as int - 0x80
  {
  }

  lemma EncodedOfThree(bs: seq<Byte>)
    requires SequenceLength(bs) == 3
    ensures EncodeScalar(DecodeHead(bs).value.0) == bs[..3]
  {
    var c2 := bs[0] as int - 0xE0;
    var c1 := Shift(c2, bs[1]);
    var c := Shift(c1, bs[2]);
    ShiftParts(c2, bs[1]);
    ShiftParts(c1, bs[2]);
    assert DecodeHead(bs) == Some((c, 3)) && 0x800 <= c < 0x1_0000;
    assert EncodeScalar(c) == [0xE0 + c2, 0x80 + Low(c1), 0x80 + Low(c)];
  }

  lemma EncodedOfFour(bs: seq<Byte>)
    requires SequenceLength(bs) == 4
    ensures EncodeScalar(DecodeHead(bs).value.0) == bs[..4]
  {
    var c3 := bs[0] as int - 0xF0;
    var c2 := Shift(c3, bs[1]);
    var c1 := Shift(c2, bs[2]);
    var c := Shift(c1, bs[3]);
    ShiftParts(c3, bs[1]);
    ShiftParts(c2, bs[2]);
    ShiftParts(c1, bs[3]);
    assert DecodeHead(bs) == Some((c, 4)) && c >= 0x1_0000;
    assert EncodeScalar(c) == [0xF0 + c3, 0x80 + Low(c2), 0x80 + Low(c1), 0x80 + Low(c)];
  }

  /** The decoder accepts only the encoder's own form: no overlong bytes, no surrogates. */
  lemma EncodedOfDecodeHead(bs: seq<Byte>)
    requires DecodeHead(bs).Some?
    ensures EncodeScalar(DecodeHead(bs).value.0) == bs[..DecodeHead(bs).value.1]
  {
    var n := SequenceLength(bs);
    if n == 2 {
      ShiftParts(bs[0] as int - 0xC0, bs[1]);
      assert EncodeScalar(DecodeHead(bs).value.0) == [bs[0], bs[1]];
    } else if n == 3 {
      EncodedOfThree(bs);
    } else if n == 4 {
      EncodedOfFour(bs);
    }
  }

  lemma {:induction false} DecodeOfEncoded(cs: seq<Scalar>)
    ensures Decode(EncodeScalars(cs)) == Some(cs)
  {
    if cs != [] {
      var e, rest := EncodeScalar(cs[0]), EncodeScalars(cs[1..]);
      DecodeHeadOfEncoded(cs[0], rest);
      assert (e + rest)[|e|..] == rest;
      DecodeOfEncoded(cs[1..]);
      assert [cs[0]] + cs[1..] == cs;
    }
  }

  lemma {:induction false} EncodedOfDecode(bs: seq<Byte>)
    requires Decode(bs).Some?
    ensures EncodeScalars(Decode(bs).value) == bs
  {
    if bs != [] {
      var head := DecodeHead(bs).value;
      EncodedOfDecodeHead(bs);
      EncodedOfDecode(bs[head.1..]);
      assert Decode(bs).value[1..] == Decode(bs[head.1..]).value;
      assert bs == bs[..head.1] + bs[head.1..];
    }
  }

  /** Strict decoding succeeds on exactly the encodings of scalar sequences, and inverts them. */
  lemma DecodeIsInverse(bs: seq<Byte>, cs: seq<Scalar>)
    ensures Decode(bs) == Some(cs) <==> bs == EncodeScalars(cs)
  {
    DecodeOfEncoded(cs);
    if Decode(bs) == Some(cs) {
      EncodedOfDecode(bs);
    }
  }

  lemma {:induction false} EncodeAppend(xs: seq<Scalar>, ys: seq<Scalar>)
    ensures EncodeScalars(xs + ys) == EncodeScalars(xs) + EncodeScalars(ys)
  {
    if xs == [] {
      assert xs + ys == ys;
    } else {
      assert (xs + ys)[1..] == xs[1..] + ys;
      EncodeAppend(xs[1..], ys);
    }
  }

  lemma SplitEncoding(cs: seq<Scalar>, p: nat)
    requires p <= |cs|
    ensures |EncodeScalars(cs[..p])| <= |EncodeScalars(cs)|
    ensures EncodeScalars(cs)[|EncodeScalars(cs[..p])|..] == EncodeScalars(cs[p..])
  {
    assert cs == cs[..p] + cs[p..];
    EncodeAppend(cs[..p], cs[p..]);
  }

  // ----- Self-synchronisation -----

  /** An offset into an encoding where decoding can stop is the end of some whole number of characters. */
  lemma {:induction false} DecodableEnd(cs: seq<Scalar>, m: nat) returns (q: nat)
    requires m <= |EncodeScalars(cs)|
    requires Decode(EncodeScalars(cs)[..m]).Some?
    ensures q <= |cs| && m == |EncodeScalars(cs[..q])|
  {
    if m == 0 {
      q := 0;
    } else {
      var e, rest := EncodeScalar(cs[0]), EncodeScalars(cs[1..]);
      var bs := EncodeScalars(cs)[..m];
      if m < |e| {
        assert bs == e[..m];
        TruncatedHead(cs[0], m);
        assert false;
      } else {
        assert bs == e + rest[..m - |e|];
        DecodeHeadOfEncoded(cs[0], rest[..m - |e|]);
        assert bs[|e|..] == rest[..m - |e|];
        var p := DecodableEnd(cs[1..], m - |e|);
        q := p + 1;
        assert cs[..q][1..] == cs[1..][..p];
      }
    }
  }

  lemma TruncatedHead(c: Scalar, m: nat)
    requires 0 < m < |EncodeScalar(c)|
    ensures DecodeHead(EncodeScalar(c)[..m]).None?
  {
  }

  /** An offset where decoding can start is the start of some character. */
  lemma {:induction false} DecodableStart(cs: seq<Scalar>, x: nat) returns (p: nat)
    requires x < |EncodeScalars(cs)|
    requires !IsTail(EncodeScalars(cs)[x])
    ensures p < |cs| && x == |EncodeScalars(cs[..p])|
  {
    var e, rest := EncodeScalar(cs[0]), EncodeScalars(cs[1..]);
    if x < |e| {
      p := 0;
    } else {
      var q := DecodableStart(cs[1..], x - |e|);
      p := q + 1;
      assert cs[..p][1..] == cs[1..][..q];
    }
  }

  lemma RangeIsCharacters(cs: seq<Scalar>, x: nat, y: nat) returns (p: nat, q: nat)
    requires x < y <= |EncodeScalars(cs)|
    requires Decode(EncodeScalars(cs)[x..y]).Some?
    ensures p < q <= |cs|
    ensures x == |EncodeScalars(cs[..p])| && y == |EncodeScalars(cs[..q])|
  {
    var bs := EncodeScalars(cs);
    assert !IsTail(bs[x..y][0]);
    p := DecodableStart(cs, x);
    SplitEncoding(cs, p);
    assert bs[x..y] == bs[x..][..y - x];
    var n := DecodableEnd(cs[p..], y - x);
    q := p + n;
    assert cs[..q] == cs[..p] + cs[p..][..n];
    EncodeAppend(cs[..p], cs[p..][..n]);
  }

  // ----- The two exported functions -----

  /** A JavaScript number; fractions, infinities and NaN are no integers. */
  datatype Number = Integer(n: int) | NotAnInteger

  const MAX_SAFE_INTEGER := 0x1F_FFFF_FFFF_FFFF

  predicate IsSafeInteger(x: Number) {
    x.Integer? && -MAX_SAFE_INTEGER <= x.n <= MAX_SAFE_INTEGER
  }

  datatype Span = Span(start: Number, end: Number, quote: Text)

  datatype Error = InvalidByteRange | Undecodable | QuoteDiffers | InvalidSelection | SplitsSurrogatePair

  /** What the decoder hands back: one leading byte order mark is dropped. */
  function Decoded(cs: seq<Scalar>): Text {
    Utf16(if cs != [] && cs[0] == BYTE_ORDER_MARK then cs[1..] else cs)
  }

  function ResolveSourceSpan(text: Text, span: Span): Result<Text, Error> {
    var bytes := Encode(text);
    if !IsSafeInteger(span.start) || !IsSafeInteger(span.end)
       || span.start.n < 0 || span.end.n <= span.start.n || span.end.n > |bytes|
    then Err(InvalidByteRange)
    else
      var decoded := Decode(bytes[span.start.n..span.end.n]);
      if decoded.None? then Err(Undecodable)
      else
        var quote := Decoded(decoded.value);
        if quote != span.quote then Err(QuoteDiffers) else Ok(quote)
  }

  function Utf16SelectionToUtf8(text: Text, start: Number, end: Number): Result<(nat, nat), Error> {
    if !IsSafeInteger(start) || !IsSafeInteger(end) || start.n < 0 || end.n <= start.n || end.n > |text|
    then Err(InvalidSelection)
    else if SplitsPair(text, start.n) || SplitsPair(text, end.n) then Err(SplitsSurrogatePair)
    else Ok((|Encode(text[..start.n])|, |Encode(text[..end.n])|))
  }

  // ----- What the conversion promises -----

  /** The selection `[start, end)` is accepted and becomes the byte range `[x, y)`. */
  ghost predicate MapsTo(text: Text, start: nat, end: nat, x: nat, y: nat) {
    Utf16SelectionToUtf8(text, Integer(start), Integer(end)) == Ok((x, y))
  }

  /** The byte range passes both the range check and the fatal decode. */
  ghost predicate Decodes(text: Text, x: nat, y: nat) {
    forall quote: Text ::
      var r := ResolveSourceSpan(text, Span(Integer(x), Integer(y), quote));
      r.Ok? || r == Err(QuoteDiffers)
  }

  lemma DecodesMeans(text: Text, x: nat, y: nat)
    requires |Encode(text)| <= MAX_SAFE_INTEGER
    ensures Decodes(text, x, y) <==> x < y <= |Encode(text)| && Decode(Encode(text)[x..y]).Some?
  {
    var r := ResolveSourceSpan(text, Span(Integer(x), Integer(y), []));
    assert Decodes(text, x, y) ==> r.Ok? || r == Err(QuoteDiffers);
  }

  lemma {:induction false} EncodedLength(t: Text)
    ensures |t| <= |Encode(t)|
    decreases |t|
  {
    if t != [] {
      EncodedLength(t[HeadLength(t)..]);
      assert Scalars(t)[1..] == Scalars(t[HeadLength(t)..]);
    }
  }

  /** The bytes of an accepted selection are the encoding of the selected text. */
  lemma SelectedBytes(text: Text, start: nat, end: nat)
    requires start <= end <= |text| && !SplitsPair(text, start) && !SplitsPair(text, end)
    ensures |Encode(text[..start])| <= |Encode(text[..end])| <= |Encode(text)|
    ensures Encode(text)[|Encode(text[..start])|..|Encode(text[..end])|] == Encode(text[start..end])
  {
    var front := text[..end];
    ScalarsSplit(text, end);
    EncodeAppend(Scalars(front), Scalars(text[end..]));
    assert !SplitsPair(front, start);
    ScalarsSplit(front, start);
    assert front[..start] == text[..start] && front[start..] == text[start..end];
    EncodeAppend(Scalars(text[..start]), Scalars(text[start..end]));
  }

  lemma NonEmptyEncodes(t: Text)
    requires t != []
    ensures |Encode(t)| > 0
  {
    EncodedLength(t);
  }

  /** Accepted boundaries keep their order as byte offsets, so no two of them share one. */
  lemma OffsetsAreOrdered(text: Text, i: nat, j: nat)
    requires i <= |text| && j <= |text| && !SplitsPair(text, i) && !SplitsPair(text, j)
    ensures i < j <==> |Encode(text[..i])| < |Encode(text[..j])|
  {
    if i < j {
      SelectedBytes(text, i, j);
      NonEmptyEncodes(text[i..j]);
    } else {
      SelectedBytes(text, j, i);
    }
  }

  /**
    The conversion is an order-preserving bijection from the accepted selections onto exactly
    the byte ranges that pass the range check and the fatal decode.
   */
  lemma SelectionsAreDecodableRanges(text: Text, x: nat, y: nat)
    requires |Encode(text)| <= MAX_SAFE_INTEGER
    ensures Decodes(text, x, y) <==> exists start: nat, end: nat :: MapsTo(text, start, end, x, y)
  {
    DecodesMeans(text, x, y);
    if Decodes(text, x, y) {
      var p, q := RangeIsCharacters(Scalars(text), x, y);
      var start := PrefixForScalars(text, p);
      var end := PrefixForScalars(text, q);
      EncodedLength(text);
      OffsetsAreOrdered(text, start, end);
      assert MapsTo(text, start, end, x, y);
    }
    if start: nat, end: nat :| MapsTo(text, start, end, x, y) {
      SelectedBytes(text, start, end);
      NonEmptyEncodes(text[start..end]);
      DecodeOfEncoded(Scalars(text[start..end]));
    }
  }

  lemma ConversionPreservesOrder(text: Text, s1: nat, e1: nat, s2: nat, e2: nat, x1: nat, y1: nat, x2: nat, y2: nat)
    requires MapsTo(text, s1, e1, x1, y1) && MapsTo(text, s2, e2, x2, y2)
    ensures (s1 < s2 <==> x1 < x2) && (e1 < e2 <==> y1 < y2) && (e1 <= s2 <==> y1 <= x2)
    ensures (x1, y1) == (x2, y2) ==> (s1, e1) == (s2, e2)
  {
    OffsetsAreOrdered(text, s1, s2);
    OffsetsAreOrdered(text, e1, e2);
    OffsetsAreOrdered(text, s2, s1);
    OffsetsAreOrdered(text, e2, e1);
    OffsetsAreOrdered(text, s2, e1);
  }

  /** What the decoder hands back for the encoding of a text, against that text. */
  lemma DecodedIff(t: Text)
    requires t != []
    ensures Decoded(Scalars(t)) == t <==> WellFormed(t) && t[0] != BYTE_ORDER_MARK
  {
    Utf16OfScalars(t);
    var cs := Scalars(t);
    if cs[0] == BYTE_ORDER_MARK {
      assert |Utf16(cs)| == 1 + |Utf16(cs[1..])|;
      assert |Decoded(cs)| == |t| - 1;
    }
  }

  lemma SelectionResolves(text: Text, start: nat, end: nat, x: nat, y: nat)
    requires |Encode(text)| <= MAX_SAFE_INTEGER
    requires MapsTo(text, start, end, x, y)
    ensures
      var slice := text[start..end];
      ResolveSourceSpan(text, Span(Integer(x), Integer(y), slice)) == Ok(slice) <==> Decoded(Scalars(slice)) == slice
  {
    var slice := text[start..end];
    SelectedBytes(text, start, end);
    NonEmptyEncodes(slice);
    DecodeOfEncoded(Scalars(slice));
    assert Decode(Encode(text)[x..y]) == Some(Scalars(slice));
  }

  /**
    Selecting, converting and resolving gives the selected text back just when it is
    well-formed and does not begin with a byte order mark. Any text, any accepted selection.
   */
  lemma SelectionRoundTrip(text: Text, start: nat, end: nat, x: nat, y: nat)
    requires |Encode(text)| <= MAX_SAFE_INTEGER
    requires MapsTo(text, start, end, x, y)
    ensures ResolveSourceSpan(text, Span(Integer(x), Integer(y), text[start..end])) == Ok(text[start..end])
            <==> WellFormed(text[start..end]) && text[start] != BYTE_ORDER_MARK
  {
    var slice := text[start..end];
    DecodedIff(slice);
    SelectionResolves(text, start, end, x, y);
  }

  /** Both ends are safe integers, and the range they name is not empty and lies in the bytes of the text. */
  predicate InRange(text: Text, span: Span) {
    && span.start.Integer? && span.end.Integer?
    && 0 <= span.start.n < span.end.n <= |Encode(text)| && span.end.n <= 0x1F_FFFF_FFFF_FFFF
  }

  /** What is resolved is what was quoted, and which of the errors it is otherwise. */
  lemma ResolutionOutcome(text: Text, span: Span)
    ensures
      var r := ResolveSourceSpan(text, span);
      && (r.Ok? ==> r.value == span.quote)
      && (r == Err(InvalidByteRange) <==> !InRange(text, span))
      && (r == Err(Undecodable)
          <==> InRange(text, span) && forall cs :: Encode(text)[span.start.n..span.end.n] != EncodeScalars(cs))
      && (r.Err? ==> r.error in {InvalidByteRange, Undecodable, QuoteDiffers})
  {
    if InRange(text, span) {
      var bytes := Encode(text)[span.start.n..span.end.n];
      if Decode(bytes).Some? {
        DecodeIsInverse(bytes, Decode(bytes).value);
      }
      forall cs | bytes == EncodeScalars(cs)
        ensures Decode(bytes) == Some(cs)
      {
        DecodeIsInverse(bytes, cs);
      }
    }
  }

  /** The span of an accepted selection resolves to the selected text and to nothing else, whatever is quoted. */
  lemma QuoteIsCompared(text: Text, start: nat, end: nat, x: nat, y: nat, quote: Text)
    requires |Encode(text)| <= MAX_SAFE_INTEGER
    requires MapsTo(text, start, end, x, y)
    requires WellFormed(text[start..end]) && text[start] != 0xFEFF
    ensures
      ResolveSourceSpan(text, Span(Integer(x), Integer(y), quote))
      == if quote == text[start..end] then Ok(quote) else Err(QuoteDiffers)
  {
    var slice := text[start..end];
    DecodedIff(slice);
    SelectedBytes(text, start, end);
    NonEmptyEncodes(slice);
    DecodeOfEncoded(Scalars(slice));
    assert Decode(Encode(text)[x..y]) == Some(Scalars(slice));
  }

  /** A selection is accepted when it is a range of the text that cuts no pair of surrogates. */
  lemma SelectionOutcome(text: Text, start: Number, end: Number)
    ensures
      var r := Utf16SelectionToUtf8(text, start, end);
      var valid := start.Integer? && end.Integer? && 0 <= start.n < end.n <= |text| && end.n <= 0x1F_FFFF_FFFF_FFFF;
      && (r == Err(InvalidSelection) <==> !valid)
      && (r == Err(SplitsSurrogatePair)
          <==> valid && exists i :: (i == start.n || i == end.n) && CutsPair(text, i))
      && (r.Err? ==> r.error in {InvalidSelection, SplitsSurrogatePair})
      && (r.Ok? ==> r.value.0 <= r.value.1 <= |Encode(text)| && Encode(text)[r.value.0..r.value.1] == Encode(text[start.n..end.n]))
      && (r.Ok? ==> Encode(text)[..r.value.0] == Encode(text[..start.n]))
  {
    var r := Utf16SelectionToUtf8(text, start, end);
    if r.Ok? {
      SelectedBytes(text, start.n, end.n);
      SelectedBytes(text, 0, start.n);
    }
    if r == Err(SplitsSurrogatePair) {
      assert CutsPair(text, start.n) || CutsPair(text, end.n);
    }
  }

  predicate CutsPair(text: Text, i: int) {
    0 < i < |text| && 0xD800 <= text[i - 1] <= 0xDBFF && 0xDC00 <= text[i] <= 0xDFFF
  }

  /** In well-formed text every accepted selection is well-formed. */
  lemma SelectionsStayWellFormed(text: Text, start: nat, end: nat, x: nat, y: nat)
    requires WellFormed(text) && MapsTo(text, start, end, x, y)
    ensures WellFormed(text[start..end])
  {
    var slice := text[start..end];
    assert forall i :: 0 <= i < |slice| ==> slice[i] == text[start + i];
  }
}
