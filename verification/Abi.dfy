/**
  Argument encoding by the Solidity Contract ABI Specification, sections "Formal Specification of
  the Encoding" and "Use of Dynamic Types": every argument has a 32-byte head; the head of a
  dynamic array is the byte offset of its tail, and the tail is the length followed by the elements.
 */
module Abi {
  import opened Types

  const WORD_RANGE: nat := U128_RANGE * U128_RANGE

  // --- big-endian words ---

  function BigEndian(bytes: seq<Byte>): nat {
    if bytes == [] then 0 else BigEndian(bytes[..|bytes| - 1]) * 256 + bytes[|bytes| - 1]
  }

  function ToBytes(n: nat, width: nat): (bytes: seq<Byte>)
    ensures |bytes| == width
  {
    if width == 0 then [] else ToBytes(n / 256, width - 1) + [n % 256]
  }

  function Range(width: nat): nat {
    if width == 0 then 1 else Range(width - 1) * 256
  }

  lemma {:induction false} BigEndianBound(bytes: seq<Byte>)
    ensures BigEndian(bytes) < Range(|bytes|)
  {
    if bytes != [] {
      BigEndianBound(bytes[..|bytes| - 1]);
    }
  }

  /** Writing a number and reading it back. */
  lemma {:induction false} BytesRoundTrip(n: nat, width: nat)
    requires n < Range(width)
    ensures BigEndian(ToBytes(n, width)) == n
  {
    if width > 0 {
      BytesRoundTrip(n / 256, width - 1);
      assert ToBytes(n, width)[..width - 1] == ToBytes(n / 256, width - 1);
    }
  }

  /** Reading bytes and writing them back, so equal numbers of equal width are equal bytes. */
  lemma {:induction false} NumberRoundTrip(bytes: seq<Byte>)
    ensures ToBytes(BigEndian(bytes), |bytes|) == bytes
  {
    if bytes != [] {
      NumberRoundTrip(bytes[..|bytes| - 1]);
      var high, low := BigEndian(bytes[..|bytes| - 1]), bytes[|bytes| - 1];
      assert (high * 256 + low) / 256 == high && (high * 256 + low) % 256 == low;
    }
  }

  lemma ShiftByte(h: nat, r: nat, f: nat, b: nat)
    ensures (h * r + f) * 256 + b == h * (r * 256) + (f * 256 + b)
  {
    assert (h * r) * 256 == h * (r * 256);
  }

  lemma {:induction false} BigEndianConcat(high: seq<Byte>, low: seq<Byte>)
    ensures BigEndian(high + low) == BigEndian(high) * Range(|low|) + BigEndian(low)
  {
    if low == [] {
      assert high + low == high;
    } else {
      var front, last := low[..|low| - 1], low[|low| - 1];
      BigEndianConcat(high, front);
      assert (high + low)[..|high + low| - 1] == high + front;
      ShiftByte(BigEndian(high), Range(|front|), BigEndian(front), last);
    }
  }

  lemma RangeOfWord()
    ensures Range(8) == U64_RANGE && Range(16) == U128_RANGE && Range(32) == WORD_RANGE && Range(20) == Range(16) * 0x1_0000_0000
  {
    assert Range(8) == U64_RANGE;
    assert Range(16) == U128_RANGE;
    assert Range(24) == U128_RANGE * U64_RANGE;
    assert Range(32) == WORD_RANGE;
  }

  // --- types and values ---

  /** An unsigned integer of `width` bytes; `address` is encoded as one of 20. */
  datatype ElementType = Uint(width: nat)

  datatype AbiType = Static(element: ElementType) | ArrayOf(element: ElementType)

  datatype AbiValue = One(n: nat) | Many(ns: seq<nat>)

  predicate Fits(t: ElementType, n: nat) {
    n < Range(t.width)
  }

  predicate HasType(v: AbiValue, t: AbiType) {
    match t
    case Static(element) => v.One? && Fits(element, v.n)
    case ArrayOf(element) => v.Many? && forall k :: 0 <= k < |v.ns| ==> Fits(element, v.ns[k])
  }

  predicate HaveTypes(vs: seq<AbiValue>, ts: seq<AbiType>) {
    |vs| == |ts| && forall i :: 0 <= i < |ts| ==> HasType(vs[i], ts[i])
  }

  // --- decoding ---

  function WordAt(data: seq<Byte>, at: nat): Option<nat> {
    if at + 32 <= |data| then Some(BigEndian(data[at..at + 32])) else None
  }

  function DecodeElement(t: ElementType, data: seq<Byte>, at: nat): Option<nat> {
    match WordAt(data, at)
    case Some(n) => if Fits(t, n) then Some(n) else None
    case None => None
  }

  function DecodeElements(t: ElementType, count: nat, data: seq<Byte>, at: nat): (r: Option<seq<nat>>)
    ensures r.Some? ==> |r.value| == count
  {
    if count == 0 then Some([])
    else
      match DecodeElement(t, data, at)
      case None => None
      case Some(n) =>
        match DecodeElements(t, count - 1, data, at + 32)
        case None => None
        case Some(rest) => Some([n] + rest)
  }

  function DecodeArray(t: ElementType, data: seq<Byte>, at: nat): Option<AbiValue> {
    match WordAt(data, at)
    case None => None
    case Some(length) =>
      match DecodeElements(t, length, data, at + 32)
      case Some(ns) => Some(Many(ns))
      case None => None
  }

  function DecodeArgument(t: AbiType, data: seq<Byte>, head: nat): Option<AbiValue> {
    match t
    case Static(element) =>
      (match DecodeElement(element, data, head)
       case Some(n) => Some(One(n))
       case None => None)
    case ArrayOf(element) =>
      match WordAt(data, head)
      case Some(offset) => DecodeArray(element, data, offset)
      case None => None
  }

  /** The arguments from the i-th on. */
  function DecodeFrom(ts: seq<AbiType>, data: seq<Byte>, i: nat): (r: Option<seq<AbiValue>>)
    requires i <= |ts|
    ensures r.Some? ==> |r.value| == |ts| - i
    decreases |ts| - i
  {
    if i == |ts| then Some([])
    else
      match DecodeArgument(ts[i], data, 32 * i)
      case None => None
      case Some(v) =>
        match DecodeFrom(ts, data, i + 1)
        case None => None
        case Some(rest) => Some([v] + rest)
  }

  function Decode(ts: seq<AbiType>, data: seq<Byte>): Option<seq<AbiValue>> {
    DecodeFrom(ts, data, 0)
  }

  // --- encoding, as a list of words ---

  function TailWords(v: AbiValue): seq<nat> {
    match v
    case One(_) => []
    case Many(ns) => [|ns|] + ns
  }

  function Tails(vs: seq<AbiValue>): seq<nat> {
    if vs == [] then [] else Tails(vs[..|vs| - 1]) + TailWords(vs[|vs| - 1])
  }

  function HeadWord(vs: seq<AbiValue>, i: nat): nat
    requires i < |vs|
  {
    match vs[i]
    case One(n) => n
    case Many(_) => 32 * (|vs| + |Tails(vs[..i])|)
  }

  function Heads(vs: seq<AbiValue>): (heads: seq<nat>)
    ensures |heads| == |vs|
    ensures forall i :: 0 <= i < |vs| ==> heads[i] == HeadWord(vs, i)
  {
    seq(|vs|, i requires 0 <= i < |vs| => HeadWord(vs, i))
  }

  function EncodeWords(vs: seq<AbiValue>): seq<nat> {
    Heads(vs) + Tails(vs)
  }

  function Flatten(words: seq<nat>): (bytes: seq<Byte>)
    ensures |bytes| == 32 * |words|
  {
    if words == [] then [] else Flatten(words[..|words| - 1]) + ToBytes(words[|words| - 1], 32)
  }

  function Encode(vs: seq<AbiValue>): seq<Byte> {
    Flatten(EncodeWords(vs))
  }

  // --- what decoding reads ---

  function ElementAt(t: ElementType, data: seq<Byte>, at: nat, k: nat): Option<nat> {
    DecodeElement(t, data, at + 32 * k)
  }

  lemma ElementAtShift(t: ElementType, data: seq<Byte>, at: nat, k: nat)
    ensures ElementAt(t, data, at + 32, k) == ElementAt(t, data, at, k + 1)
  {
    assert at + 32 + 32 * k == at + 32 * (k + 1);
  }

  lemma {:induction false} DecodeElementsReads(t: ElementType, count: nat, data: seq<Byte>, at: nat)
    requires DecodeElements(t, count, data, at).Some?
    ensures forall k :: 0 <= k < count ==> ElementAt(t, data, at, k) == Some(DecodeElements(t, count, data, at).value[k])
  {
    if count > 0 {
      var all, rest := DecodeElements(t, count, data, at).value, DecodeElements(t, count - 1, data, at + 32).value;
      DecodeElementsReads(t, count - 1, data, at + 32);
      forall k | 0 <= k < count ensures ElementAt(t, data, at, k) == Some(all[k]) {
        if k > 0 {
          ElementAtShift(t, data, at, k - 1);
        }
      }
    }
  }

  lemma {:induction false} DecodeElementsComplete(t: ElementType, count: nat, data: seq<Byte>, at: nat)
    requires forall k :: 0 <= k < count ==> ElementAt(t, data, at, k).Some?
    ensures DecodeElements(t, count, data, at).Some?
  {
    if count > 0 {
      assert ElementAt(t, data, at, 0).Some?;
      var next := at + 32;
      forall k | 0 <= k < count - 1 ensures ElementAt(t, data, next, k).Some? {
        ElementAtShift(t, data, at, k);
      }
      DecodeElementsComplete(t, count - 1, data, next);
    }
  }

  lemma {:induction false} FlattenReads(words: seq<nat>, trailing: seq<Byte>, k: nat)
    requires k < |words| && words[k] < WORD_RANGE
    ensures WordAt(Flatten(words) + trailing, 32 * k) == Some(words[k])
    decreases |words|
  {
    var front, last := words[..|words| - 1], words[|words| - 1];
    var data := Flatten(words) + trailing;
    assert data == Flatten(front) + (ToBytes(last, 32) + trailing);
    if k < |front| {
      FlattenReads(front, ToBytes(last, 32) + trailing, k);
    } else {
      assert data[32 * k..32 * k + 32] == ToBytes(last, 32);
      RangeOfWord();
      BytesRoundTrip(last, 32);
    }
  }

  // --- bytes and positions ---

  lemma {:induction false} FlattenByte(words: seq<nat>, k: nat, j: nat)
    requires k < |words| && j < 32
    ensures Flatten(words)[32 * k + j] == ToBytes(words[k], 32)[j]
    decreases |words|
  {
    var front := words[..|words| - 1];
    if k < |front| {
      FlattenByte(front, k, j);
    }
  }

  lemma {:induction false} ZeroBytes(width: nat)
    ensures forall j :: 0 <= j < width ==> ToBytes(0, width)[j] == 0
  {
    if width > 0 {
      ZeroBytes(width - 1);
    }
  }

  /** A number below 256 stands in the last byte of its word. */
  lemma SmallWordByte(n: nat, j: nat)
    requires n < 256 && j < 32
    ensures ToBytes(n, 32)[j] == if j == 31 then n else 0
  {
    ZeroBytes(31);
    assert ToBytes(n, 32) == ToBytes(0, 31) + [n];
  }

  lemma {:induction false} ZerosAreZero(bytes: seq<Byte>)
    requires forall i :: 0 <= i < |bytes| ==> bytes[i] == 0
    ensures BigEndian(bytes) == 0
  {
    if bytes != [] {
      ZerosAreZero(bytes[..|bytes| - 1]);
    }
  }

  lemma {:induction false} BigEndianAtLeast(bytes: seq<Byte>, k: nat)
    requires k < |bytes|
    ensures BigEndian(bytes) >= bytes[k]
    decreases |bytes|
  {
    if k < |bytes| - 1 {
      BigEndianAtLeast(bytes[..|bytes| - 1], k);
    }
  }

  lemma WordAtShift(before: seq<Byte>, data: seq<Byte>, at: nat)
    ensures WordAt(before + data, |before| + at) == WordAt(data, at)
  {
    if at + 32 <= |data| {
      assert (before + data)[|before| + at..|before| + at + 32] == data[at..at + 32];
    }
  }

  lemma {:induction false} DecodeElementsShift(t: ElementType, count: nat, before: seq<Byte>, data: seq<Byte>, at: nat)
    ensures DecodeElements(t, count, before + data, |before| + at) == DecodeElements(t, count, data, at)
    decreases count
  {
    if count > 0 {
      WordAtShift(before, data, at);
      DecodeElementsShift(t, count - 1, before, data, at + 32);
    }
  }

  lemma DecodeArrayShift(t: ElementType, before: seq<Byte>, data: seq<Byte>, at: nat)
    ensures DecodeArray(t, before + data, |before| + at) == DecodeArray(t, data, at)
  {
    WordAtShift(before, data, at);
    if WordAt(data, at).Some? {
      DecodeElementsShift(t, WordAt(data, at).value, before, data, at + 32);
    }
  }

  lemma TailsNext(vs: seq<AbiValue>, v: AbiValue)
    ensures Tails(vs + [v]) == Tails(vs) + TailWords(v)
  {
    assert (vs + [v])[..|vs|] == vs;
  }

  lemma {:induction false} TailsPrefix(vs: seq<AbiValue>, i: nat)
    requires i < |vs|
    ensures Tails(vs[..i]) + TailWords(vs[i]) <= Tails(vs)
    decreases |vs|
  {
    var front := vs[..|vs| - 1];
    if i < |front| {
      TailsPrefix(front, i);
      assert front[..i] == vs[..i];
    }
  }

  /** Every number in the encoding, the offsets included, fits a word. */
  ghost predicate Encodable(vs: seq<AbiValue>) {
    WordsFit(EncodeWords(vs))
  }

  ghost predicate WordsFit(words: seq<nat>) {
    forall k :: 0 <= k < |words| ==> words[k] < WORD_RANGE
  }

  lemma DecodeEncodedStatic(t: ElementType, words: seq<nat>, trailing: seq<Byte>, k: nat)
    requires k < |words| && WordsFit(words) && Fits(t, words[k])
    ensures DecodeArgument(Static(t), Flatten(words) + trailing, 32 * k) == Some(One(words[k]))
  {
    FlattenReads(words, trailing, k);
  }

  lemma DecodeEncodedElements(t: ElementType, words: seq<nat>, trailing: seq<Byte>, at: nat, ns: seq<nat>)
    requires at + |ns| <= |words| && WordsFit(words)
    requires forall k :: 0 <= k < |ns| ==> words[at + k] == ns[k] && Fits(t, ns[k])
    ensures DecodeElements(t, |ns|, Flatten(words) + trailing, 32 * at) == Some(ns)
  {
    var data := Flatten(words) + trailing;
    forall k | 0 <= k < |ns| ensures ElementAt(t, data, 32 * at, k) == Some(ns[k]) {
      FlattenReads(words, trailing, at + k);
      assert 32 * (at + k) == 32 * at + 32 * k;
    }
    DecodeElementsComplete(t, |ns|, data, 32 * at);
    DecodeElementsReads(t, |ns|, data, 32 * at);
    assert DecodeElements(t, |ns|, data, 32 * at).value == ns;
  }

  /** The length and then the elements, from word `at` on. */
  ghost predicate HoldsArray(words: seq<nat>, at: nat, ns: seq<nat>) {
    && at + 1 + |ns| <= |words|
    && words[at] == |ns|
    && forall k :: 0 <= k < |ns| ==> words[at + 1 + k] == ns[k]
  }

  lemma DecodeEncodedArray(t: ElementType, words: seq<nat>, trailing: seq<Byte>, at: nat, ns: seq<nat>)
    requires HoldsArray(words, at, ns) && WordsFit(words)
    requires forall k :: 0 <= k < |ns| ==> Fits(t, ns[k])
    ensures DecodeArray(t, Flatten(words) + trailing, 32 * at) == Some(Many(ns))
  {
    FlattenReads(words, trailing, at);
    DecodeEncodedElements(t, words, trailing, at + 1, ns);
    assert 32 * (at + 1) == 32 * at + 32;
  }

  lemma TailInside(heads: seq<nat>, before: seq<nat>, ns: seq<nat>, tails: seq<nat>)
    requires before + ([|ns|] + ns) <= tails
    ensures HoldsArray(heads + tails, |heads| + |before|, ns)
  {
    var here := before + ([|ns|] + ns);
    assert tails[|before|] == here[|before|];
    forall k | 0 <= k < |ns| ensures (heads + tails)[|heads| + |before| + 1 + k] == ns[k] {
      assert tails[|before| + 1 + k] == here[|before| + 1 + k];
    }
  }

  lemma TailStandsAtOffset(vs: seq<AbiValue>, i: nat) returns (at: nat)
    requires i < |vs| && vs[i].Many?
    ensures HeadWord(vs, i) == 32 * at && HoldsArray(EncodeWords(vs), at, vs[i].ns)
  {
    var before, tails := Tails(vs[..i]), Tails(vs);
    assert before + TailWords(vs[i]) <= tails by {
      TailsPrefix(vs, i);
    }
    at := |vs| + |before|;
    TailInside(Heads(vs), before, vs[i].ns, tails);
  }

  lemma DecodeEncodedArgument(t: AbiType, vs: seq<AbiValue>, trailing: seq<Byte>, i: nat)
    requires i < |vs| && HasType(vs[i], t) && Encodable(vs)
    ensures DecodeArgument(t, Encode(vs) + trailing, 32 * i) == Some(vs[i])
  {
    var words := EncodeWords(vs);
    assert words[i] == HeadWord(vs, i);
    FlattenReads(words, trailing, i);
    if t.ArrayOf? {
      var at := TailStandsAtOffset(vs, i);
      DecodeEncodedArray(t.element, words, trailing, at, vs[i].ns);
    }
  }

  /** Arguments that each decode at their head decode together. */
  lemma {:induction false} DecodeFromComplete(ts: seq<AbiType>, vs: seq<AbiValue>, data: seq<Byte>, i: nat)
    requires i <= |ts| == |vs|
    requires forall k :: i <= k < |ts| ==> DecodeArgument(ts[k], data, 32 * k) == Some(vs[k])
    ensures DecodeFrom(ts, data, i) == Some(vs[i..])
    decreases |ts| - i
  {
    if i < |ts| {
      DecodeFromComplete(ts, vs, data, i + 1);
      assert DecodeArgument(ts[i], data, 32 * i) == Some(vs[i]);
      assert DecodeFrom(ts, data, i) == Some([vs[i]] + vs[i + 1..]);
      assert vs[i..] == [vs[i]] + vs[i + 1..];
    }
  }

  /** And arguments that decode together each decode at their head. */
  lemma {:induction false} DecodeFromReads(ts: seq<AbiType>, data: seq<Byte>, i: nat, k: nat)
    requires i <= k < |ts| && DecodeFrom(ts, data, i).Some?
    ensures DecodeArgument(ts[k], data, 32 * k) == Some(DecodeFrom(ts, data, i).value[k - i])
    decreases |ts| - i
  {
    if i < k {
      DecodeFromReads(ts, data, i + 1, k);
    }
  }

  /** Decoding inverts encoding for every list of arguments, and bytes after the encoding do not matter. */
  lemma DecodeInvertsEncode(ts: seq<AbiType>, vs: seq<AbiValue>, trailing: seq<Byte>)
    requires HaveTypes(vs, ts) && Encodable(vs)
    ensures Decode(ts, Encode(vs) + trailing) == Some(vs)
  {
    forall k | 0 <= k < |ts| ensures DecodeArgument(ts[k], Encode(vs) + trailing, 32 * k) == Some(vs[k]) {
      DecodeEncodedArgument(ts[k], vs, trailing, k);
    }
    DecodeFromComplete(ts, vs, Encode(vs) + trailing, 0);
  }
}
