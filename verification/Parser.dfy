/**
  The calldata parser (crates/market-data-agent/src/parser.rs): it slices fixed offsets. Here it is
  compared with the generic decoder of `Abi.dfy`.
 */
module Parser {
  import opened Types
  import opened Abi

  datatype RawTransaction = RawTransaction(hash: TxHash, from: Address, input: seq<Byte>)

  datatype ParsedSwap = ParsedSwap(dex: Dex, tokenIn: Address, tokenOut: Address, amount: nat, sender: Address)

  /** `Overflow` stands for path lengths whose last offset does not fit a machine word. */
  datatype Parsed = NotASwap | Swap(swap: ParsedSwap) | Overflow

  datatype SwapKind = SwapExactTokensForTokens | SwapTokensForExactTokens | ExactInputSingle

  const SWAP_EXACT_TOKENS_FOR_TOKENS: seq<Byte> := [0x38, 0xed, 0x17, 0x38]
  const SWAP_TOKENS_FOR_EXACT_TOKENS: seq<Byte> := [0x88, 0x03, 0xdb, 0xee]
  const EXACT_INPUT_SINGLE: seq<Byte> := [0x41, 0x4b, 0xf3, 0x89]

  function ExtractSelector(input: seq<Byte>): Option<seq<Byte>> {
    if |input| < 4 then None else Some(input[..4])
  }

  function IdentifySwap(selector: seq<Byte>): Option<SwapKind> {
    if selector == SWAP_EXACT_TOKENS_FOR_TOKENS then Some(SwapExactTokensForTokens)
    else if selector == SWAP_TOKENS_FOR_EXACT_TOKENS then Some(SwapTokensForExactTokens)
    else if selector == EXACT_INPUT_SINGLE then Some(ExactInputSingle)
    else None
  }

  function AddressFromWord(word: seq<Byte>): Address
    requires |word| == 32
  {
    word[12..32]
  }

  function U128FromBeBytes(word: seq<Byte>): nat
    requires |word| == 32
  {
    BigEndian(word[16..32])
  }

  function ParseUniV2Swap(tx: RawTransaction): Parsed {
    var input := tx.input;
    if |input| < 260 then NotASwap
    else
      var amount := U128FromBeBytes(input[4..36]);
      var pathLen := U128FromBeBytes(input[164..196]) % U64_RANGE;
      if pathLen < 2 then NotASwap
      else
        var last := 196 + (pathLen - 1) * 32;
        if last + 32 >= U64_RANGE then Overflow
        else if |input| < last + 32 then NotASwap
        else
          Swap(ParsedSwap(UniswapV2, AddressFromWord(input[196..228]), AddressFromWord(input[last..last + 32]), amount, tx.from))
  }

  function ParseUniV3ExactInputSingle(tx: RawTransaction): Parsed {
    var input := tx.input;
    if |input| < 260 then NotASwap
    else
      Swap(ParsedSwap(UniswapV3, AddressFromWord(input[4..36]), AddressFromWord(input[36..68]),
                      U128FromBeBytes(input[164..196]), tx.from))
  }

  function ParseSwap(tx: RawTransaction): Parsed {
    match ExtractSelector(tx.input)
    case None => NotASwap
    case Some(selector) =>
      match IdentifySwap(selector)
      case None => NotASwap
      case Some(ExactInputSingle) => ParseUniV3ExactInputSingle(tx)
      case Some(_) => ParseUniV2Swap(tx)
  }

  /** Nothing is a swap but calldata of at least 260 bytes behind one of the three selectors. */
  lemma OnlyKnownSelectorsAreSwaps(tx: RawTransaction)
    requires ParseSwap(tx) != NotASwap
    ensures |tx.input| >= 260
    ensures || tx.input[..4] == [0x38, 0xed, 0x17, 0x38]
            || tx.input[..4] == [0x88, 0x03, 0xdb, 0xee]
            || tx.input[..4] == [0x41, 0x4b, 0xf3, 0x89]
    ensures ParseSwap(tx).Swap? ==>
              && (ParseSwap(tx).swap.dex == UniswapV3 <==> tx.input[..4] == [0x41, 0x4b, 0xf3, 0x89])
              && (ParseSwap(tx).swap.dex == UniswapV2 <==> tx.input[..4] != [0x41, 0x4b, 0xf3, 0x89])
  {}

  // ---------------------------------------------------------------------------------------------
  // Words
  // ---------------------------------------------------------------------------------------------

  const ADDRESS := Uint(20)
  const UINT256 := Uint(32)

  /** (uint256 amountIn, uint256 amountOutMin, address[] path, address to, uint256 deadline) */
  const V2_TYPES: seq<AbiType> := [Static(UINT256), Static(UINT256), ArrayOf(ADDRESS), Static(ADDRESS), Static(UINT256)]

  /** The static tuple ExactInputSingleParams. */
  const V3_TYPES: seq<AbiType> :=
    [Static(ADDRESS), Static(ADDRESS), Static(Uint(3)), Static(ADDRESS),
     Static(UINT256), Static(UINT256), Static(UINT256), Static(ADDRESS)]

  /** The low 16 bytes of a word are its value modulo 2^128. */
  lemma LowHalf(word: seq<Byte>)
    requires |word| == 32
    ensures U128FromBeBytes(word) == BigEndian(word) % U128_RANGE
  {
    assert word == word[..16] + word[16..32];
    BigEndianConcat(word[..16], word[16..32]);
    BigEndianBound(word[16..32]);
    RangeOfWord();
    RemainderOfSum(BigEndian(word[..16]), BigEndian(word[16..32]), U128_RANGE);
  }

  lemma AtLeastOnce(high: nat, range: nat)
    requires high > 0
    ensures high * range >= range
  {}

  lemma NoCarry(high: nat, range: nat, low: nat)
    requires high * range + low < range
    ensures high * range + low == low
  {
    if high > 0 {
      AtLeastOnce(high, range);
    }
  }

  /** A word that fits an address has clean high bytes, and its low 20 bytes are the address. */
  lemma CleanAddress(word: seq<Byte>)
    requires |word| == 32 && Fits(ADDRESS, BigEndian(word))
    ensures BigEndian(AddressFromWord(word)) == BigEndian(word)
  {
    assert word == word[..12] + word[12..32];
    BigEndianConcat(word[..12], word[12..32]);
    NoCarry(BigEndian(word[..12]), Range(20), BigEndian(word[12..32]));
  }

  lemma Uint256AlwaysFits(word: seq<Byte>)
    requires |word| == 32
    ensures Fits(UINT256, BigEndian(word))
  {
    BigEndianBound(word);
  }

  // ---------------------------------------------------------------------------------------------
  // The fast parser agrees with the ABI
  // ---------------------------------------------------------------------------------------------

  function Arguments(tx: RawTransaction): seq<Byte>
    requires |tx.input| >= 4
  {
    tx.input[4..]
  }

  predicate IsV2Call(tx: RawTransaction) {
    |tx.input| >= 4 && (tx.input[..4] == SWAP_EXACT_TOKENS_FOR_TOKENS || tx.input[..4] == SWAP_TOKENS_FOR_EXACT_TOKENS)
  }

  /** A path length, where the parser looks for it, that machine offsets can reach. */
  predicate LengthInReach(data: seq<Byte>) {
    WordAt(data, 160).Some? ==> WordAt(data, 160).value < 0x400_0000_0000_0000
  }

  /** The layout the parser assumes: the path's tail directly after the heads. */
  predicate Canonical(data: seq<Byte>) {
    WordAt(data, 64) == Some(0xa0) && LengthInReach(data)
  }

  /** The address words the decoder checks and the parser does not: the recipient, and every element of the path. */
  ghost predicate CleanV2(data: seq<Byte>) {
    && DecodeElement(ADDRESS, data, 96).Some?
    && WordAt(data, 160).Some?
    && forall k :: 0 <= k < WordAt(data, 160).value ==> ElementAt(ADDRESS, data, 192, k).Some?
  }

  /** A word of the arguments stands four bytes later in the input. */
  lemma InputWord(tx: RawTransaction, at: nat)
    requires |tx.input| >= 4 && at + 36 <= |tx.input|
    ensures WordAt(Arguments(tx), at) == Some(BigEndian(tx.input[at + 4..at + 36]))
  {
    assert Arguments(tx)[at..at + 32] == tx.input[at + 4..at + 36];
  }

  lemma V2CallIsParsedAsV2(tx: RawTransaction)
    requires IsV2Call(tx)
    ensures ParseSwap(tx) == ParseUniV2Swap(tx)
  {}

  lemma PathLengthRead(tx: RawTransaction)
    requires |tx.input| >= 260 && LengthInReach(Arguments(tx))
    ensures WordAt(Arguments(tx), 160).Some?
    ensures U128FromBeBytes(tx.input[164..196]) % U64_RANGE == WordAt(Arguments(tx), 160).value
  {
    InputWord(tx, 160);
    LowHalf(tx.input[164..196]);
  }

  /** What the parser sees, in terms of the argument words. */
  lemma V2ParserReads(tx: RawTransaction)
    requires IsV2Call(tx) && |tx.input| >= 260 && LengthInReach(Arguments(tx))
    ensures WordAt(Arguments(tx), 160).Some?
    ensures var length := WordAt(Arguments(tx), 160).value;
            ParseSwap(tx) ==
            if length >= 2 && 196 + 32 * length <= |tx.input| then
              var last := 164 + 32 * length;
              Swap(ParsedSwap(UniswapV2, AddressFromWord(tx.input[196..228]), AddressFromWord(tx.input[last..last + 32]),
                              U128FromBeBytes(tx.input[4..36]), tx.from))
            else NotASwap
  {
    V2CallIsParsedAsV2(tx);
    PathLengthRead(tx);
  }

  lemma RemainderOfSum(high: nat, low: nat, range: nat)
    requires low < range
    ensures (high * range + low) % range == low
  {
    var sum := high * range + low;
    var q := sum / range;
    assert sum == q * range + sum % range;
    if q > high {
      assert (q - high) * range == q * range - high * range;
      AtLeastOnce(q - high, range);
    } else if q < high {
      assert (high - q) * range == high * range - q * range;
      AtLeastOnce(high - q, range);
    }
  }

  /** The low eight bytes of a word, which is what is left of a length on a 64-bit machine. */
  lemma LowQuarter(word: seq<Byte>)
    requires |word| == 32
    ensures U128FromBeBytes(word) % U64_RANGE == BigEndian(word[24..32])
  {
    assert word[16..32] == word[16..24] + word[24..32];
    BigEndianConcat(word[16..24], word[24..32]);
    BigEndianBound(word[24..32]);
    RangeOfWord();
    RemainderOfSum(BigEndian(word[16..24]), BigEndian(word[24..32]), U64_RANGE);
  }

  /** The last offset leaves the machine's range exactly for these lengths. */
  lemma OverflowsExactly(tx: RawTransaction)
    requires IsV2Call(tx) && |tx.input| >= 260
    ensures ParseSwap(tx) == Overflow <==> 196 + 32 * BigEndian(tx.input[188..196]) >= U64_RANGE
  {
    V2CallIsParsedAsV2(tx);
    LowQuarter(tx.input[164..196]);
    assert tx.input[164..196][24..32] == tx.input[188..196];
  }

  /** What the two element types hold: an address 160 bits, a number 256. */
  lemma TypeRanges(n: nat)
    ensures Fits(ADDRESS, n) <==> n < 0x1_0000_0000_0000_0000_0000_0000_0000_0000_0000_0000
    ensures Fits(UINT256, n) <==> n < WORD_RANGE
  {
    RangeOfWord();
  }

  lemma ElementIsAddress(tx: RawTransaction, k: nat)
    requires |tx.input| >= 4 && 228 + 32 * k <= |tx.input| && ElementAt(ADDRESS, Arguments(tx), 192, k).Some?
    ensures BigEndian(AddressFromWord(tx.input[196 + 32 * k..228 + 32 * k])) == ElementAt(ADDRESS, Arguments(tx), 192, k).value
  {
    InputWord(tx, 192 + 32 * k);
    CleanAddress(tx.input[196 + 32 * k..228 + 32 * k]);
  }

  /** A fixed-offset swap and a decoded argument list describe the same trade. */
  ghost predicate SameTrade(tx: RawTransaction, swap: ParsedSwap, vs: seq<AbiValue>)
    requires |vs| == 5 && vs[0].One? && vs[2].Many? && |vs[2].ns| >= 2
  {
    && swap.dex == UniswapV2
    && swap.sender == tx.from
    && swap.amount == vs[0].n % U128_RANGE
    && BigEndian(swap.tokenIn) == vs[2].ns[0]
    && BigEndian(swap.tokenOut) == vs[2].ns[|vs[2].ns| - 1]
  }

  /** Five arguments with a path of at least two addresses. */
  ghost predicate LongPath(vs: seq<AbiValue>) {
    |vs| == 5 && vs[0].One? && vs[2].Many? && |vs[2].ns| >= 2
  }

  lemma FiveOfTypes(ts: seq<AbiType>, data: seq<Byte>, vs: seq<AbiValue>)
    requires |ts| == |vs| == 5
    requires DecodeArgument(ts[0], data, 0) == Some(vs[0])
    requires DecodeArgument(ts[1], data, 32) == Some(vs[1])
    requires DecodeArgument(ts[2], data, 64) == Some(vs[2])
    requires DecodeArgument(ts[3], data, 96) == Some(vs[3])
    requires DecodeArgument(ts[4], data, 128) == Some(vs[4])
    ensures Decode(ts, data) == Some(vs)
  {
    forall k | 0 <= k < 5 ensures DecodeArgument(ts[k], data, 32 * k) == Some(vs[k]) {
      assert k == 0 || k == 1 || k == 2 || k == 3 || k == 4;
    }
    var first := 0;
    DecodeFromComplete(ts, vs, data, first);
    assert vs[first..] == vs;
  }

  lemma FiveArguments(data: seq<Byte>, vs: seq<AbiValue>)
    requires |vs| == 5
    requires DecodeArgument(Static(UINT256), data, 0) == Some(vs[0])
    requires DecodeArgument(Static(UINT256), data, 32) == Some(vs[1])
    requires DecodeArgument(ArrayOf(ADDRESS), data, 64) == Some(vs[2])
    requires DecodeArgument(Static(ADDRESS), data, 96) == Some(vs[3])
    requires DecodeArgument(Static(UINT256), data, 128) == Some(vs[4])
    ensures Decode(V2_TYPES, data) == Some(vs)
  {
    FiveOfTypes(V2_TYPES, data, vs);
  }

  lemma WordDecodes(data: seq<Byte>, at: nat)
    requires at + 32 <= |data|
    ensures DecodeElement(UINT256, data, at) == Some(BigEndian(data[at..at + 32]))
  {
    Uint256AlwaysFits(data[at..at + 32]);
  }

  lemma PathDecodes(data: seq<Byte>) returns (ns: seq<nat>)
    requires Canonical(data) && CleanV2(data)
    ensures |ns| == WordAt(data, 160).value && DecodeArgument(ArrayOf(ADDRESS), data, 64) == Some(Many(ns))
    ensures forall k :: 0 <= k < |ns| ==> ElementAt(ADDRESS, data, 192, k) == Some(ns[k])
  {
    var length := WordAt(data, 160).value;
    DecodeElementsComplete(ADDRESS, length, data, 192);
    DecodeElementsReads(ADDRESS, length, data, 192);
    ns := DecodeElements(ADDRESS, length, data, 192).value;
  }

  lemma CleanCallDecodes(data: seq<Byte>) returns (vs: seq<AbiValue>)
    requires |data| >= 160 && Canonical(data) && CleanV2(data)
    ensures Decode(V2_TYPES, data) == Some(vs) && |vs| == 5
    ensures vs[0] == One(BigEndian(data[0..32]))
    ensures vs[2].Many? && |vs[2].ns| == WordAt(data, 160).value
    ensures forall k :: 0 <= k < |vs[2].ns| ==> ElementAt(ADDRESS, data, 192, k) == Some(vs[2].ns[k])
  {
    WordDecodes(data, 0);
    WordDecodes(data, 32);
    WordDecodes(data, 128);
    var ns := PathDecodes(data);
    vs := [One(BigEndian(data[0..32])), One(BigEndian(data[32..64])), Many(ns),
           One(DecodeElement(ADDRESS, data, 96).value), One(BigEndian(data[128..160]))];
    FiveArguments(data, vs);
  }

  lemma DecodedCallIsClean(data: seq<Byte>)
    requires Canonical(data) && Decode(V2_TYPES, data).Some?
    ensures CleanV2(data)
    ensures var vs := Decode(V2_TYPES, data).value;
            vs[2].Many? && |vs[2].ns| == WordAt(data, 160).value
  {
    DecodeFromReads(V2_TYPES, data, 0, 2);
    DecodeFromReads(V2_TYPES, data, 0, 3);
    DecodeElementsReads(ADDRESS, WordAt(data, 160).value, data, 192);
  }

  lemma EndsMatch(tx: RawTransaction, swap: ParsedSwap, ns: seq<nat>)
    requires |tx.input| >= 4 && |ns| >= 2 && 196 + 32 * |ns| <= |tx.input|
    requires swap.tokenIn == AddressFromWord(tx.input[196..228])
    requires swap.tokenOut == AddressFromWord(tx.input[164 + 32 * |ns|..196 + 32 * |ns|])
    requires forall k :: 0 <= k < |ns| ==> ElementAt(ADDRESS, Arguments(tx), 192, k) == Some(ns[k])
    ensures BigEndian(swap.tokenIn) == ns[0] && BigEndian(swap.tokenOut) == ns[|ns| - 1]
  {
    ElementIsAddress(tx, 0);
    var last := |ns| - 1;
    assert ElementAt(ADDRESS, Arguments(tx), 192, last) == Some(ns[last]);
    ElementIsAddress(tx, last);
    assert 196 + 32 * last == 164 + 32 * |ns| && 228 + 32 * last == 196 + 32 * |ns|;
  }

  lemma SwapMatches(tx: RawTransaction, vs: seq<AbiValue>)
    requires IsV2Call(tx) && |tx.input| >= 260 && Canonical(Arguments(tx)) && ParseSwap(tx).Swap?
    requires |vs| == 5 && vs[0] == One(BigEndian(Arguments(tx)[0..32]))
    requires WordAt(Arguments(tx), 160).Some? && vs[2].Many? && |vs[2].ns| == WordAt(Arguments(tx), 160).value
    requires forall k :: 0 <= k < |vs[2].ns| ==> ElementAt(ADDRESS, Arguments(tx), 192, k) == Some(vs[2].ns[k])
    ensures LongPath(vs) && SameTrade(tx, ParseSwap(tx).swap, vs)
  {
    V2ParserReads(tx);
    assert Arguments(tx)[0..32] == tx.input[4..36];
    LowHalf(tx.input[4..36]);
    EndsMatch(tx, ParseSwap(tx).swap, vs[2].ns);
  }

  lemma SwapIsDecoded(tx: RawTransaction)
    requires IsV2Call(tx) && Canonical(Arguments(tx)) && ParseSwap(tx).Swap? && CleanV2(Arguments(tx))
    ensures Decode(V2_TYPES, Arguments(tx)).Some? && LongPath(Decode(V2_TYPES, Arguments(tx)).value)
    ensures SameTrade(tx, ParseSwap(tx).swap, Decode(V2_TYPES, Arguments(tx)).value)
  {
    var vs := CleanCallDecodes(Arguments(tx));
    SwapMatches(tx, vs);
  }

  lemma DecodedIsSwap(tx: RawTransaction)
    requires IsV2Call(tx) && Canonical(Arguments(tx))
    requires Decode(V2_TYPES, Arguments(tx)).Some? && LongPath(Decode(V2_TYPES, Arguments(tx)).value)
    ensures ParseSwap(tx).Swap? && CleanV2(Arguments(tx))
  {
    var data := Arguments(tx);
    DecodedCallIsClean(data);
    assert ElementAt(ADDRESS, data, 192, WordAt(data, 160).value - 1).Some?;
    V2ParserReads(tx);
  }

  /**
    The fixed-offset parser refines the generic decoder: on every canonically laid out call it
    finds a swap in clean words exactly when the decoder finds a path of at least two addresses,
    and then the two agree on the trade. Bytes after the path make no difference to either.
   */
  lemma V2ParserRefinesAbi(tx: RawTransaction)
    requires IsV2Call(tx) && Canonical(Arguments(tx))
    ensures ParseSwap(tx).Swap? && CleanV2(Arguments(tx)) <==>
            Decode(V2_TYPES, Arguments(tx)).Some? && LongPath(Decode(V2_TYPES, Arguments(tx)).value)
    ensures ParseSwap(tx).Swap? && CleanV2(Arguments(tx)) ==>
              SameTrade(tx, ParseSwap(tx).swap, Decode(V2_TYPES, Arguments(tx)).value)
  {
    if ParseSwap(tx).Swap? && CleanV2(Arguments(tx)) {
      SwapIsDecoded(tx);
    }
    if Decode(V2_TYPES, Arguments(tx)).Some? && LongPath(Decode(V2_TYPES, Arguments(tx)).value) {
      DecodedIsSwap(tx);
    }
  }

  /** An encoded call: selector, arguments, and anything after them. */
  function V2Arguments(amount: nat, limit: nat, path: seq<nat>, recipient: nat, deadline: nat): seq<AbiValue> {
    [One(amount), One(limit), Many(path), One(recipient), One(deadline)]
  }

  lemma V2FrontTails(amount: nat, limit: nat)
    ensures Tails([One(amount), One(limit)]) == []
  {
    TailsNext([], One(amount));
    TailsNext([One(amount)], One(limit));
    assert [] + [One(amount)] == [One(amount)];
    assert [One(amount)] + [One(limit)] == [One(amount), One(limit)];
  }

  lemma V2Tails(front: seq<AbiValue>, path: seq<nat>, recipient: nat, deadline: nat)
    requires Tails(front) == []
    ensures Tails(front + [Many(path)] + [One(recipient)] + [One(deadline)]) == [|path|] + path
  {
    TailsNext(front, Many(path));
    TailsNext(front + [Many(path)], One(recipient));
    TailsNext(front + [Many(path)] + [One(recipient)], One(deadline));
  }

  lemma V2Heads(amount: nat, limit: nat, path: seq<nat>, recipient: nat, deadline: nat)
    ensures Heads(V2Arguments(amount, limit, path, recipient, deadline)) == [amount, limit, 0xa0, recipient, deadline]
  {
    var vs := V2Arguments(amount, limit, path, recipient, deadline);
    V2FrontTails(amount, limit);
    assert vs[..2] == [One(amount), One(limit)];
    assert HeadWord(vs, 2) == 0xa0;
  }

  lemma V2ArgumentWords(amount: nat, limit: nat, path: seq<nat>, recipient: nat, deadline: nat)
    ensures EncodeWords(V2Arguments(amount, limit, path, recipient, deadline)) ==
            [amount, limit, 0xa0, recipient, deadline] + ([|path|] + path)
  {
    var front := [One(amount), One(limit)];
    V2Heads(amount, limit, path, recipient, deadline);
    V2FrontTails(amount, limit);
    V2Tails(front, path, recipient, deadline);
    assert V2Arguments(amount, limit, path, recipient, deadline) == front + [Many(path)] + [One(recipient)] + [One(deadline)];
  }

  lemma V2Encodable(amount: nat, limit: nat, path: seq<nat>, recipient: nat, deadline: nat)
    requires |path| < 0x400_0000_0000_0000 && forall k :: 0 <= k < |path| ==> Fits(ADDRESS, path[k])
    requires Fits(UINT256, amount) && Fits(UINT256, limit) && Fits(ADDRESS, recipient) && Fits(UINT256, deadline)
    ensures var vs := V2Arguments(amount, limit, path, recipient, deadline);
            && Encodable(vs) && |EncodeWords(vs)| == 6 + |path|
            && EncodeWords(vs)[2] == 0xa0 && EncodeWords(vs)[5] == |path|
  {
    var words := EncodeWords(V2Arguments(amount, limit, path, recipient, deadline));
    RangeOfWord();
    V2ArgumentWords(amount, limit, path, recipient, deadline);
    forall k | 0 <= k < |words| ensures words[k] < WORD_RANGE {
      if k >= 6 {
        assert words[k] == path[k - 6];
      }
    }
  }

  lemma V2EncodedIsCanonical(vs: seq<AbiValue>, path: seq<nat>, trailing: seq<Byte>)
    requires Encodable(vs) && |EncodeWords(vs)| == 6 + |path| && |path| < 0x400_0000_0000_0000
    requires EncodeWords(vs)[2] == 0xa0 && EncodeWords(vs)[5] == |path|
    ensures Canonical(Encode(vs) + trailing)
  {
    FlattenReads(EncodeWords(vs), trailing, 2);
    FlattenReads(EncodeWords(vs), trailing, 5);
  }

  lemma DecodedIsParsed(tx: RawTransaction, vs: seq<AbiValue>)
    requires IsV2Call(tx) && Canonical(Arguments(tx)) && Decode(V2_TYPES, Arguments(tx)) == Some(vs) && LongPath(vs)
    ensures ParseSwap(tx).Swap? && SameTrade(tx, ParseSwap(tx).swap, vs)
  {
    V2ParserRefinesAbi(tx);
  }

  lemma V2HaveTypes(amount: nat, limit: nat, path: seq<nat>, recipient: nat, deadline: nat)
    requires forall k :: 0 <= k < |path| ==> Fits(ADDRESS, path[k])
    requires Fits(UINT256, amount) && Fits(UINT256, limit) && Fits(ADDRESS, recipient) && Fits(UINT256, deadline)
    ensures HaveTypes(V2Arguments(amount, limit, path, recipient, deadline), V2_TYPES)
  {}

  /** Parsing inverts encoding for every path of at least two addresses, whatever follows the call. */
  lemma V2ParseInvertsEncode(tx: RawTransaction, trailing: seq<Byte>,
                             amount: nat, limit: nat, path: seq<nat>, recipient: nat, deadline: nat)
    requires 2 <= |path| < 0x400_0000_0000_0000
    requires forall k :: 0 <= k < |path| ==> Fits(ADDRESS, path[k])
    requires Fits(UINT256, amount) && Fits(UINT256, limit) && Fits(ADDRESS, recipient) && Fits(UINT256, deadline)
    requires |tx.input| >= 4 && IsV2Call(tx)
    requires Arguments(tx) == Encode(V2Arguments(amount, limit, path, recipient, deadline)) + trailing
    ensures ParseSwap(tx).Swap?
    ensures SameTrade(tx, ParseSwap(tx).swap, V2Arguments(amount, limit, path, recipient, deadline))
  {
    var vs := V2Arguments(amount, limit, path, recipient, deadline);
    V2Encodable(amount, limit, path, recipient, deadline);
    V2EncodedIsCanonical(vs, path, trailing);
    V2HaveTypes(amount, limit, path, recipient, deadline);
    DecodeInvertsEncode(V2_TYPES, vs, trailing);
    DecodedIsParsed(tx, vs);
  }

  lemma SmallNumbersFit(n: nat)
    requires n < 256
    ensures Fits(ADDRESS, n) && Fits(UINT256, n) && n < WORD_RANGE
  {
    RangeOfWord();
  }

  // --- every other path offset ---

  lemma ShortPathIsMissed(tx: RawTransaction)
    requires IsV2Call(tx) && WordAt(Arguments(tx), 160).Some? && WordAt(Arguments(tx), 160).value < 2
    ensures ParseSwap(tx) == NotASwap
  {
    V2CallIsParsedAsV2(tx);
    InputWord(tx, 160);
    LowHalf(tx.input[164..196]);
  }

  lemma CallWith(data: seq<Byte>) returns (tx: RawTransaction)
    ensures IsV2Call(tx) && Arguments(tx) == data
  {
    var selector := SWAP_EXACT_TOKENS_FOR_TOKENS;
    tx := RawTransaction(seq(32, _ => 0), seq(20, _ => 0), selector + data);
  }

  /** The path stands at `offset`, wherever the parser looks for it. */
  ghost predicate LaidOut(data: seq<Byte>, offset: nat) {
    WordAt(data, 64) == Some(offset) && LengthInReach(data)
  }

  /** The parser finds a swap in clean words exactly when the decoder finds a long path, and then the same trade. */
  ghost predicate Agrees(tx: RawTransaction)
    requires IsV2Call(tx)
  {
    var found, decoded := ParseSwap(tx).Swap? && CleanV2(Arguments(tx)), Decode(V2_TYPES, Arguments(tx));
    && (found <==> decoded.Some? && LongPath(decoded.value))
    && (found ==> SameTrade(tx, ParseSwap(tx).swap, decoded.value))
  }

  ghost predicate AgreesAtOffset(offset: nat) {
    forall tx :: IsV2Call(tx) && LaidOut(Arguments(tx), offset) ==> Agrees(tx)
  }

  // Beyond the heads: a well-formed call whose path stands later, and zeros where the parser looks.

  function Zeros(n: nat): seq<Byte> {
    seq(n, _ => 0)
  }

  /** Five heads with the given path offset. */
  ghost predicate IsHeads(heads: seq<nat>, offset: nat) {
    |heads| == 5 && heads[0] == heads[1] == heads[3] == heads[4] == 0 && heads[2] == offset
  }

  /** The path [1, 2]. */
  ghost predicate IsShortTail(tail: seq<nat>) {
    |tail| == 3 && tail[0] == 2 && tail[1] == 1 && tail[2] == 2
  }

  lemma HeadsAndTail(offset: nat) returns (heads: seq<nat>, tail: seq<nat>)
    ensures IsHeads(heads, offset) && IsShortTail(tail)
  {
    heads, tail := [0, 0, offset, 0, 0], [2, 1, 2];
  }

  function LaterCall(heads: seq<nat>, offset: nat, tail: seq<nat>): (data: seq<Byte>)
    requires offset > 160
  {
    Flatten(heads) + (Zeros(offset - 160) + Flatten(tail))
  }

  lemma HeadsFit(heads: seq<nat>, offset: nat)
    requires IsHeads(heads, offset) && offset < WORD_RANGE
    ensures WordsFit(heads)
  {
    SmallNumbersFit(0);
  }

  lemma TailDecodes(tail: seq<nat>)
    requires IsShortTail(tail)
    ensures DecodeArray(ADDRESS, Flatten(tail), 0) == Some(Many([1, 2]))
  {
    var path := [1, 2];
    SmallNumbersFit(1);
    SmallNumbersFit(2);
    assert HoldsArray(tail, 0, path);
    DecodeEncodedArray(ADDRESS, tail, [], 0, path);
    assert Flatten(tail) + [] == Flatten(tail);
  }

  lemma PathAtOffset(data: seq<Byte>, at: nat, path: seq<nat>)
    requires WordAt(data, 64) == Some(at) && DecodeArray(ADDRESS, data, at) == Some(Many(path))
    ensures DecodeArgument(ArrayOf(ADDRESS), data, 64) == Some(Many(path))
  {}

  lemma LaterOffsetRead(heads: seq<nat>, offset: nat, tail: seq<nat>)
    requires 160 < offset < WORD_RANGE && IsHeads(heads, offset)
    ensures WordAt(LaterCall(heads, offset, tail), 64) == Some(offset)
  {
    HeadsFit(heads, offset);
    FlattenReads(heads, Zeros(offset - 160) + Flatten(tail), 2);
  }

  lemma LaterPathDecodes(heads: seq<nat>, offset: nat, tail: seq<nat>)
    requires 160 < offset < WORD_RANGE && IsHeads(heads, offset) && IsShortTail(tail)
    ensures DecodeArgument(ArrayOf(ADDRESS), LaterCall(heads, offset, tail), 64) == Some(Many([1, 2]))
  {
    var before := Flatten(heads) + Zeros(offset - 160);
    assert LaterCall(heads, offset, tail) == before + Flatten(tail);
    TailDecodes(tail);
    DecodeArrayShift(ADDRESS, before, Flatten(tail), 0);
    LaterOffsetRead(heads, offset, tail);
    PathAtOffset(LaterCall(heads, offset, tail), offset, [1, 2]);
  }

  lemma LaterHeadDecodes(heads: seq<nat>, offset: nat, tail: seq<nat>, t: ElementType, k: nat)
    requires 160 < offset < WORD_RANGE && IsHeads(heads, offset)
    requires k < 5 && k != 2 && (t == ADDRESS || t == UINT256)
    ensures DecodeArgument(Static(t), LaterCall(heads, offset, tail), 32 * k) == Some(One(0))
  {
    HeadsFit(heads, offset);
    SmallNumbersFit(0);
    DecodeEncodedStatic(t, heads, Zeros(offset - 160) + Flatten(tail), k);
  }

  lemma LaterCallDecodes(heads: seq<nat>, offset: nat, tail: seq<nat>)
    requires 160 < offset < WORD_RANGE && IsHeads(heads, offset) && IsShortTail(tail)
    ensures Decode(V2_TYPES, LaterCall(heads, offset, tail)) == Some(V2Arguments(0, 0, [1, 2], 0, 0))
  {
    LaterHeadDecodes(heads, offset, tail, UINT256, 0);
    LaterHeadDecodes(heads, offset, tail, UINT256, 1);
    LaterPathDecodes(heads, offset, tail);
    LaterHeadDecodes(heads, offset, tail, ADDRESS, 3);
    LaterHeadDecodes(heads, offset, tail, UINT256, 4);
    FiveArguments(LaterCall(heads, offset, tail), V2Arguments(0, 0, [1, 2], 0, 0));
  }

  lemma LaterCallReadsZero(heads: seq<nat>, offset: nat, tail: seq<nat>)
    requires offset > 160 && IsHeads(heads, offset) && IsShortTail(tail)
    ensures WordAt(LaterCall(heads, offset, tail), 160) == Some(0)
  {
    var data := LaterCall(heads, offset, tail);
    var word := data[160..192];
    forall i | 0 <= i < 32 ensures word[i] == 0 {
      assert word[i] == data[160 + i];
      if offset <= 160 + i {
        FlattenByte(tail, 0, 160 + i - offset);
        SmallWordByte(2, 160 + i - offset);
      }
    }
    ZerosAreZero(word);
  }

  /** The parser never looks at the path offset, so it misses a well-formed call whose path stands anywhere later. */
  lemma LaterPathIsMissed(tx: RawTransaction, heads: seq<nat>, offset: nat, tail: seq<nat>)
    requires 160 < offset < WORD_RANGE && IsHeads(heads, offset) && IsShortTail(tail)
    requires IsV2Call(tx) && Arguments(tx) == LaterCall(heads, offset, tail)
    ensures LaidOut(Arguments(tx), offset)
    ensures Decode(V2_TYPES, Arguments(tx)) == Some(V2Arguments(0, 0, [1, 2], 0, 0))
    ensures ParseSwap(tx) == NotASwap
  {
    LaterOffsetRead(heads, offset, tail);
    LaterCallDecodes(heads, offset, tail);
    LaterCallReadsZero(heads, offset, tail);
    ShortPathIsMissed(tx);
  }

  // Inside the heads: a swap where the parser looks, and no path where the offset points.

  function EarlierWords(offset: nat): seq<nat> {
    [0, 0, offset, 0, 0, 2, 1, 2]
  }

  function EarlierCall(offset: nat): (data: seq<Byte>)
    ensures |data| == 256
  {
    Flatten(EarlierWords(offset))
  }

  lemma EarlierReads(offset: nat, k: nat)
    requires offset < 160 && k < 8
    ensures WordAt(EarlierCall(offset), 32 * k) == Some(EarlierWords(offset)[k])
  {
    var words := EarlierWords(offset);
    SmallNumbersFit(words[k]);
    FlattenReads(words, [], k);
    assert Flatten(words) + [] == Flatten(words);
  }

  lemma EarlierByte(offset: nat, i: nat)
    requires offset < 160 && i < 191
    ensures EarlierCall(offset)[i] == if i == 95 then offset else 0
  {
    var words := EarlierWords(offset);
    FlattenByte(words, i / 32, i % 32);
    SmallWordByte(words[i / 32], i % 32);
  }

  /** The word at the offset is 0, or too large a length for the call. */
  lemma EarlierLength(offset: nat)
    requires offset < 160
    ensures WordAt(EarlierCall(offset), offset).Some?
    ensures WordAt(EarlierCall(offset), offset).value == 0 || WordAt(EarlierCall(offset), offset).value >= 64
  {
    var word := EarlierCall(offset)[offset..offset + 32];
    if 64 <= offset < 96 {
      EarlierByte(offset, 95);
      assert word[95 - offset] == EarlierCall(offset)[95];
      BigEndianAtLeast(word, 95 - offset);
    } else {
      forall i | 0 <= i < 32 ensures word[i] == 0 {
        EarlierByte(offset, offset + i);
      }
      ZerosAreZero(word);
    }
  }

  lemma ElementsFit(t: ElementType, count: nat, data: seq<Byte>, at: nat, k: nat)
    requires DecodeElements(t, count, data, at).Some? && k < count
    ensures at + 32 * k + 32 <= |data|
  {
    DecodeElementsReads(t, count, data, at);
    assert ElementAt(t, data, at, k).Some?;
  }

  lemma DecodedPath(data: seq<Byte>) returns (path: AbiValue)
    requires Decode(V2_TYPES, data).Some?
    ensures path == Decode(V2_TYPES, data).value[2] && DecodeArgument(ArrayOf(ADDRESS), data, 64) == Some(path)
  {
    DecodeFromReads(V2_TYPES, data, 0, 2);
    path := Decode(V2_TYPES, data).value[2];
  }

  lemma ArrayFits(data: seq<Byte>, offset: nat, decoded: AbiValue)
    requires DecodeArray(ADDRESS, data, offset) == Some(decoded)
    ensures WordAt(data, offset).Some? && decoded.Many? && |decoded.ns| == WordAt(data, offset).value
    ensures WordAt(data, offset).value > 0 ==> offset + 32 * WordAt(data, offset).value + 32 <= |data|
  {
    var length := WordAt(data, offset).value;
    if length > 0 {
      ElementsFit(ADDRESS, length, data, offset + 32, length - 1);
    }
  }

  /** A decoded path has the length read at its offset, and all of it lies within the call. */
  lemma PathFits(data: seq<Byte>, offset: nat)
    requires Decode(V2_TYPES, data).Some? && WordAt(data, 64) == Some(offset)
    ensures WordAt(data, offset).Some?
    ensures var path := Decode(V2_TYPES, data).value[2];
            path.Many? && |path.ns| == WordAt(data, offset).value
    ensures WordAt(data, offset).value > 0 ==> offset + 32 * WordAt(data, offset).value + 32 <= |data|
  {
    var path := DecodedPath(data);
    ArrayFits(data, offset, path);
  }

  lemma EarlierHasNoLongPath(data: seq<Byte>, offset: nat)
    requires offset < 160 && data == EarlierCall(offset) && Decode(V2_TYPES, data).Some?
    ensures !LongPath(Decode(V2_TYPES, data).value)
  {
    EarlierReads(offset, 2);
    EarlierLength(offset);
    PathFits(data, offset);
  }

  lemma EarlierIsClean(offset: nat)
    requires offset < 160
    ensures LaidOut(EarlierCall(offset), offset) && CleanV2(EarlierCall(offset))
    ensures WordAt(EarlierCall(offset), 160) == Some(2)
  {
    var data := EarlierCall(offset);
    SmallNumbersFit(0);
    SmallNumbersFit(1);
    SmallNumbersFit(2);
    EarlierReads(offset, 2);
    EarlierReads(offset, 3);
    EarlierReads(offset, 5);
    EarlierReads(offset, 6);
    EarlierReads(offset, 7);
    forall k | 0 <= k < 2 ensures ElementAt(ADDRESS, data, 192, k).Some? {
      assert k == 0 || k == 1;
    }
  }

  /** And it takes a call for a swap whose path offset points back into the heads. */
  lemma EarlierPathIsInvented(tx: RawTransaction, offset: nat)
    requires offset < 160 && IsV2Call(tx) && Arguments(tx) == EarlierCall(offset)
    ensures LaidOut(Arguments(tx), offset)
    ensures ParseSwap(tx).Swap? && CleanV2(Arguments(tx))
    ensures Decode(V2_TYPES, Arguments(tx)).Some? ==> !LongPath(Decode(V2_TYPES, Arguments(tx)).value)
  {
    EarlierIsClean(offset);
    V2ParserReads(tx);
    if Decode(V2_TYPES, Arguments(tx)).Some? {
      EarlierHasNoLongPath(Arguments(tx), offset);
    }
  }

  lemma OffsetFitsWord(data: seq<Byte>)
    ensures WordAt(data, 64).Some? ==> WordAt(data, 64).value < WORD_RANGE
  {
    if WordAt(data, 64).Some? {
      BigEndianBound(data[64..96]);
      RangeOfWord();
    }
  }

  lemma DisagreesAt(offset: nat)
    requires offset != 0xa0 && offset < WORD_RANGE
    ensures !AgreesAtOffset(offset)
  {
    if offset > 160 {
      var heads, tail := HeadsAndTail(offset);
      var tx := CallWith(LaterCall(heads, offset, tail));
      LaterPathIsMissed(tx, heads, offset, tail);
      assert !Agrees(tx);
    } else {
      var tx := CallWith(EarlierCall(offset));
      EarlierPathIsInvented(tx, offset);
      assert !Agrees(tx);
    }
  }

  /**
    Of all path offsets, aligned or not, before or after the heads, the parser agrees with the decoder on
    every call exactly at 0xa0. (An offset that fits no word has no calls to disagree on.)
   */
  lemma AgreesExactlyAtCanonicalOffset(offset: nat)
    ensures AgreesAtOffset(offset) <==> offset == 0xa0 || offset >= WORD_RANGE
  {
    if offset == 0xa0 {
      forall tx | IsV2Call(tx) && LaidOut(Arguments(tx), offset) ensures Agrees(tx) {
        V2ParserRefinesAbi(tx);
      }
    } else if offset < WORD_RANGE {
      DisagreesAt(offset);
    } else {
      forall tx | IsV2Call(tx) ensures !LaidOut(Arguments(tx), offset) {
        OffsetFitsWord(Arguments(tx));
      }
    }
  }

  // --- exactInputSingle ---

  predicate IsV3Call(tx: RawTransaction) {
    |tx.input| >= 4 && tx.input[..4] == EXACT_INPUT_SINGLE
  }

  /** Every word of the static tuple fits its type. */
  ghost predicate CleanV3(data: seq<Byte>) {
    forall k :: 0 <= k < 8 ==> DecodeArgument(V3_TYPES[k], data, 32 * k).Some?
  }

  lemma V3ParserReads(tx: RawTransaction)
    requires IsV3Call(tx) && CleanV3(Arguments(tx))
    ensures ParseSwap(tx).Swap?
    ensures var swap, data := ParseSwap(tx).swap, Arguments(tx);
            && swap.dex == UniswapV3 && swap.sender == tx.from
            && DecodeArgument(V3_TYPES[0], data, 0) == Some(One(BigEndian(swap.tokenIn)))
            && DecodeArgument(V3_TYPES[1], data, 32) == Some(One(BigEndian(swap.tokenOut)))
            && DecodeArgument(V3_TYPES[5], data, 160).Some?
            && DecodeArgument(V3_TYPES[5], data, 160).value.One?
            && swap.amount == DecodeArgument(V3_TYPES[5], data, 160).value.n % U128_RANGE
  {
    var data := Arguments(tx);
    assert DecodeArgument(V3_TYPES[0], data, 32 * 0).Some? && DecodeArgument(V3_TYPES[1], data, 32 * 1).Some?;
    assert DecodeArgument(V3_TYPES[5], data, 32 * 5).Some? && DecodeArgument(V3_TYPES[7], data, 32 * 7).Some?;
    InputWord(tx, 0);
    InputWord(tx, 32);
    InputWord(tx, 160);
    CleanAddress(tx.input[4..36]);
    CleanAddress(tx.input[36..68]);
    LowHalf(tx.input[164..196]);
  }

  /** The static tuple: in clean words the parser finds what the decoder finds, and nothing else is a V3 swap. */
  lemma V3ParserRefinesAbi(tx: RawTransaction)
    requires IsV3Call(tx)
    ensures ParseSwap(tx).Swap? && CleanV3(Arguments(tx)) <==> Decode(V3_TYPES, Arguments(tx)).Some?
    ensures Decode(V3_TYPES, Arguments(tx)).Some? ==>
              var swap, vs := ParseSwap(tx).swap, Decode(V3_TYPES, Arguments(tx)).value;
              && swap.dex == UniswapV3 && swap.sender == tx.from
              && |vs| == 8 && vs[0] == One(BigEndian(swap.tokenIn)) && vs[1] == One(BigEndian(swap.tokenOut))
              && vs[5].One? && swap.amount == vs[5].n % U128_RANGE
  {
    var data := Arguments(tx);
    if Decode(V3_TYPES, data).Some? {
      forall k | 0 <= k < 8 ensures DecodeArgument(V3_TYPES[k], data, 32 * k) == Some(Decode(V3_TYPES, data).value[k]) {
        DecodeFromReads(V3_TYPES, data, 0, k);
      }
      V3ParserReads(tx);
    } else if CleanV3(data) {
      var vs := seq(8, k requires 0 <= k < 8 => DecodeArgument(V3_TYPES[k], data, 32 * k).value);
      DecodeFromComplete(V3_TYPES, vs, data, 0);
    }
  }
}
