/**
 * The buy handler's private-key parsing: the request field is sniffed
 * into one of four encodings, in a fixed order, and the bytes each
 * encoding yields are handed to `Keypair.fromSecretKey`.
 */
module Credentials {
  import opened Wrappers
  import opened Chain
  import opened Foreign

  /** A field of the JSON request body, by how the handler treats it:
      a falsy value (absent, null, false, 0), a string, an array of
      numbers, or any other truthy value. */
  datatype Value = Falsy | Str(s: string) | Arr(items: seq<int>) | Other

  /** JavaScript truthiness: the empty string is falsy too. */
  function Truthy(v: Value): (t: bool)
    ensures t <==> (v.Str? && v.s != "") || v.Arr? || v.Other?
  {
    !v.Falsy? && v != Str("")
  }

  /** A string's `length`: UTF-16 code units, two for a character above U+FFFF. */
  function Utf16Length(s: string): (n: nat)
    ensures |s| <= n <= 2 * |s|
  {
    if s == [] then 0 else (if s[0] as int > 0xFFFF then 2 else 1) + Utf16Length(s[1..])
  }

  const BASE58_MIN_LENGTH: nat := 40

  /** The encoding the handler decides the private key is in. */
  datatype KeySource =
    | Base58Text(text: string)
    | CommaList(tokens: seq<string>)
    | ByteArray(items: seq<int>)
    | JsonText(text: string)
    | Unsupported

  function CommaCount(s: string): nat
  {
    if s == [] then 0 else (if s[0] == ',' then 1 else 0) + CommaCount(s[1..])
  }

  /** Inverse of `Split`: the tokens separated by commas. */
  function Join(tokens: seq<string>): string
    requires |tokens| > 0
    decreases |tokens|
  {
    if |tokens| == 1 then tokens[0] else tokens[0] + "," + Join(tokens[1..])
  }

  /** `s.split(',')`: one token per comma-separated field, empty fields kept. */
  function Split(s: string): (tokens: seq<string>)
    ensures |tokens| == CommaCount(s) + 1
    ensures forall i :: 0 <= i < |tokens| ==> ',' !in tokens[i]
    ensures Join(tokens) == s
  {
    if s == [] then [""]
    else
      var rest := Split(s[1..]);
      if s[0] == ',' then
        assert ([""] + rest)[1..] == rest;
        [""] + rest
      else
        var tokens := [[s[0]] + rest[0]] + rest[1..];
        assert tokens[1..] == rest[1..];
        assert forall i :: 1 <= i < |tokens| ==> tokens[i] == rest[i];
        assert s == [s[0]] + s[1..];
        tokens
  }

  /** The order in which the handler tries the encodings. */
  function Classify(v: Value): (k: KeySource)
    ensures k.Base58Text? <==> v.Str? && Utf16Length(v.s) > BASE58_MIN_LENGTH && ',' !in v.s
    ensures k.CommaList? <==> v.Str? && ',' in v.s
    ensures k.ByteArray? <==> v.Arr?
    ensures k.JsonText? <==> v.Str? && ',' !in v.s && Utf16Length(v.s) <= BASE58_MIN_LENGTH
    ensures k.Unsupported? <==> !v.Str? && !v.Arr?
    ensures k.CommaList? ==> k.tokens == Split(v.s)
    ensures k.Base58Text? ==> k.text == v.s
    ensures k.ByteArray? ==> k.items == v.items
    ensures k.JsonText? ==> k.text == v.s
  {
    if v.Str? && Utf16Length(v.s) > BASE58_MIN_LENGTH && ',' !in v.s then Base58Text(v.s)
    else if v.Str? && ',' in v.s then CommaList(Split(v.s))
    else if v.Arr? then ByteArray(v.items)
    else if v.Str? then JsonText(v.s)
    else Unsupported
  }

  /** One element of `new Uint8Array(...)`: NaN becomes 0, integers wrap modulo 256. */
  function ToUint8(n: Option<int>): Byte
  {
    if n.None? then 0 else n.value % 256
  }

  /** `new Uint8Array(items)` on an array of integers. */
  function Uint8Array(items: seq<int>): (bytes: seq<Byte>)
    ensures |bytes| == |items|
    ensures forall i :: 0 <= i < |items| ==> bytes[i] == items[i] % 256
  {
    seq(|items|, i requires 0 <= i < |items| => ToUint8(Some(items[i])))
  }

  /** `new Uint8Array(tokens.map(Number))`. */
  function TokenBytes(c: Crypto, tokens: seq<string>): (bytes: seq<Byte>)
    ensures |bytes| == |tokens|
    ensures forall i :: 0 <= i < |tokens| ==> bytes[i] == ToUint8(c.toNumber(tokens[i]))
  {
    seq(|tokens|, i requires 0 <= i < |tokens| => ToUint8(c.toNumber(tokens[i])))
  }

  /** The bytes the chosen branch hands to `Keypair.fromSecretKey`; None
      when the branch fails before that call. */
  function KeyBytes(c: Crypto, v: Value): (bytes: Option<seq<Byte>>)
    ensures bytes.Some? ==> v.Str? || v.Arr?
    ensures v.Arr? ==> bytes == Some(Uint8Array(v.items))
    ensures Classify(v).Base58Text? ==> bytes == c.base58Decode(v.s)
    ensures Classify(v).CommaList? ==>
      bytes.Some? && |bytes.value| == CommaCount(v.s) + 1 &&
      forall i :: 0 <= i < |bytes.value| ==> bytes.value[i] == ToUint8(c.toNumber(Split(v.s)[i]))
    ensures Classify(v).JsonText? ==> (bytes.Some? <==> c.jsonParse(v.s).JsonArray?)
    ensures Classify(v).JsonText? && c.jsonParse(v.s).JsonArray? ==>
      bytes == Some(Uint8Array(c.jsonParse(v.s).items))
  {
    match Classify(v)
    case Base58Text(text) => c.base58Decode(text)
    case CommaList(tokens) => Some(TokenBytes(c, tokens))
    case ByteArray(items) => Some(Uint8Array(items))
    case JsonText(text) =>
      (match c.jsonParse(text)
       case JsonArray(items) => Some(Uint8Array(items))
       case _ => None)
    case Unsupported => None
  }

  /** The keypair the handler obtains, or None for the 400 format error. */
  function ParseKeypair(c: Crypto, v: Value): (r: Option<Keypair>)
    ensures r.Some? ==> KeyBytes(c, v).Some? && r == c.fromSecretKey(KeyBytes(c, v).value)
    ensures KeyBytes(c, v).Some? ==> r == c.fromSecretKey(KeyBytes(c, v).value)
  {
    match KeyBytes(c, v)
    case None => None
    case Some(bytes) => c.fromSecretKey(bytes)
  }

  /** The decimal text of a byte, as the comma-separated export writes it. */
  function DecimalText(n: nat): (t: string)
    ensures |t| > 0 && ',' !in t
  {
    if n < 10 then ["0123456789"[n]] else DecimalText(n / 10) + ["0123456789"[n % 10]]
  }

  /** The decimal text of each byte. */
  function ByteTokens(bytes: seq<Byte>): (tokens: seq<string>)
    ensures |tokens| == |bytes|
    ensures forall i :: 0 <= i < |bytes| ==> tokens[i] == DecimalText(bytes[i])
  {
    seq(|bytes|, i requires 0 <= i < |bytes| => DecimalText(bytes[i]))
  }

  /** The comma-separated text of a byte array. */
  function CsvText(bytes: seq<Byte>): string
    requires |bytes| > 0
  {
    Join(ByteTokens(bytes))
  }

  lemma {:induction false} SplitCommaFree(t: string)
    requires ',' !in t
    ensures Split(t) == [t]
  {
    if t != [] {
      SplitCommaFree(t[1..]);
      assert [t[0]] + t[1..] == t;
    }
  }

  lemma {:induction false} SplitAtFirstComma(t: string, rest: string)
    requires ',' !in t
    ensures Split(t + "," + rest) == [t] + Split(rest)
  {
    if t == [] {
      assert ("" + "," + rest)[1..] == rest;
    } else {
      assert (t + "," + rest)[1..] == t[1..] + "," + rest;
      SplitAtFirstComma(t[1..], rest);
      assert [t[0]] + t[1..] == t;
    }
  }

  /** Splitting the joined text of comma-free tokens gives the tokens back. */
  lemma {:induction false} SplitJoin(tokens: seq<string>)
    requires |tokens| > 0
    requires forall i :: 0 <= i < |tokens| ==> ',' !in tokens[i]
    ensures Split(Join(tokens)) == tokens
  {
    if |tokens| == 1 {
      SplitCommaFree(tokens[0]);
    } else {
      SplitJoin(tokens[1..]);
      SplitAtFirstComma(tokens[0], Join(tokens[1..]));
      assert [tokens[0]] + tokens[1..] == tokens;
    }
  }

  lemma {:induction false} CommaInJoin(tokens: seq<string>)
    requires |tokens| > 1
    ensures ',' in Join(tokens)
  {
    assert Join(tokens)[|tokens[0]|] == ',';
  }

  /**
   * The comma-separated encoding round-trips: the text of at least two
   * bytes takes the comma branch, and when `Number` reads each decimal
   * byte back, the handler hands exactly those bytes to `fromSecretKey`.
   */
  lemma CsvRoundTrip(c: Crypto, bytes: seq<Byte>)
    requires |bytes| >= 2
    requires forall b: Byte :: c.toNumber(DecimalText(b)) == Some(b)
    ensures Classify(Str(CsvText(bytes))).CommaList?
    ensures KeyBytes(c, Str(CsvText(bytes))) == Some(bytes)
    ensures ParseKeypair(c, Str(CsvText(bytes))) == c.fromSecretKey(bytes)
  {
    var text := CsvText(bytes);
    var tokens := ByteTokens(bytes);
    CommaInJoin(tokens);
    SplitJoin(tokens);
    assert Classify(Str(text)) == CommaList(tokens);
    assert KeyBytes(c, Str(text)) == Some(TokenBytes(c, tokens));
    TokenBytesOfByteTokens(c, bytes);
  }

  /** Reading back the decimal tokens of a byte array gives the bytes. */
  lemma TokenBytesOfByteTokens(c: Crypto, bytes: seq<Byte>)
    requires forall b: Byte :: c.toNumber(DecimalText(b)) == Some(b)
    ensures TokenBytes(c, ByteTokens(bytes)) == bytes
  {
    var got := TokenBytes(c, ByteTokens(bytes));
    forall i | 0 <= i < |bytes|
      ensures got[i] == bytes[i]
    {
      assert got[i] == ToUint8(c.toNumber(DecimalText(bytes[i])));
    }
  }

  /** A native array of integers round-trips unchanged when every element is a byte. */
  lemma ArrayRoundTrip(c: Crypto, bytes: seq<Byte>)
    ensures ParseKeypair(c, Arr(bytes)) == c.fromSecretKey(bytes)
  {
    assert Uint8Array(bytes) == bytes;
  }

  /**
   * The JSON branch only sees comma-free strings, and JSON text without a
   * comma holds at most one array element; so when `fromSecretKey` only
   * accepts 64-byte keys, a string credential succeeds only through the
   * base58 or comma branches.
   */
  lemma JsonBranchNeverYieldsKey(c: Crypto, s: string)
    requires forall t :: ',' !in t && c.jsonParse(t).JsonArray? ==> |c.jsonParse(t).items| <= 1
    requires forall b :: c.fromSecretKey(b).Some? ==> |b| == 64
    requires Classify(Str(s)).JsonText?
    ensures ParseKeypair(c, Str(s)) == None
  {
  }

  /** Inputs that are neither strings nor arrays are rejected. */
  lemma OtherInputsRejected(c: Crypto, v: Value)
    requires !v.Str? && !v.Arr?
    ensures ParseKeypair(c, v) == None
  {
  }
}
