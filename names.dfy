/**
 * Name validation and the derivation of a name's registry account.
 */
module Names {
  import opened Wrappers
  import opened Chain

  /** U+212A KELVIN SIGN, the one character outside A-Z whose lowercase
      form (`'k'`) lies in the name alphabet. */
  const KELVIN_SIGN: char := '\U{212A}'

  /** The registry program and the root domain the name accounts hang under. */
  const SNS_PROGRAM_ID: Address := "namesLPneVptA9Z5rqUDD9tMTWEJwofgaYwp8cawRkX"
  const SNS_ROOT_DOMAIN: Address := "58PwtjSDuFHuUkYjH9BYnnQKHfwo9reZhC2zMJv9JPkx"
  const NAME_SEED: string := "name"

  /** `toLowerCase` on one character, for the mappings that matter here. */
  function LowerChar(c: char): char
  {
    if 'A' <= c <= 'Z' then (c as int + 32) as char
    else if c == KELVIN_SIGN then 'k'
    else c
  }

  /** `String.prototype.toLowerCase`, character by character. */
  function ToLower(s: string): (r: string)
    ensures |r| == |s|
    ensures forall i :: 0 <= i < |s| ==> r[i] == LowerChar(s[i])
  {
    seq(|s|, i requires 0 <= i < |s| => LowerChar(s[i]))
  }

  /** The character class `[a-z0-9-]`. */
  predicate IsNameChar(c: char)
  {
    'a' <= c <= 'z' || '0' <= c <= '9' || c == '-'
  }

  /** `/^[a-z0-9-]+$/.test(s)`: one or more characters, all in the class. */
  function MatchesNamePattern(s: string): (r: bool)
    ensures r <==> |s| > 0 && forall i :: 0 <= i < |s| ==> IsNameChar(s[i])
  {
    if |s| == 0 then false
    else if |s| == 1 then IsNameChar(s[0])
    else IsNameChar(s[0]) && MatchesNamePattern(s[1..])
  }

  /** The buy handler's name test on the lowercased name: non-empty, and
      every character a letter of either case, a digit, a hyphen or the
      Kelvin sign. */
  function ValidName(name: string): (ok: bool)
    ensures ok <==> |name| > 0 && forall i :: 0 <= i < |name| ==> AcceptedChar(name[i])
  {
    LowerCharsInClass(name);
    MatchesNamePattern(ToLower(name))
  }

  /** The characters a name may hold before lowercasing. */
  predicate AcceptedChar(c: char)
  {
    'a' <= c <= 'z' || 'A' <= c <= 'Z' || '0' <= c <= '9' || c == '-' || c == KELVIN_SIGN
  }

  /** Two names that lowercase to the same text. */
  predicate SameIgnoringCase(a: string, b: string)
  {
    |a| == |b| && forall i :: 0 <= i < |a| ==> LowerChar(a[i]) == LowerChar(b[i])
  }

  /** `findProgramAddressSync` throws for a seed longer than this many bytes. */
  const MAX_SEED_LENGTH: nat := 32

  /** The number of bytes of the UTF-8 encoding (`Buffer.from(text)`). */
  function Utf8Length(s: string): (n: nat)
    ensures |s| <= n <= 4 * |s|
  {
    if s == [] then 0
    else
      var c := s[0] as int;
      (if c < 0x80 then 1 else if c < 0x800 then 2 else if c < 0x10000 then 3 else 4) + Utf8Length(s[1..])
  }

  /**
   * `deriveNameAccount(name)`: `findProgramAddressSync` over the seeds
   * "name", the root domain and the lowercased name, under the registry
   * program. The derivation is the function `pda` (None where it finds no
   * address); a lowercased name longer than 32 UTF-8 bytes makes the
   * library throw before any derivation.
   */
  function DeriveNameAccount(pda: (seq<string>, Address) -> Option<Address>, name: string): (a: Option<Address>)
    ensures Utf8Length(ToLower(name)) > MAX_SEED_LENGTH ==> a.None?
    ensures Utf8Length(ToLower(name)) <= MAX_SEED_LENGTH ==> a == pda([NAME_SEED, SNS_ROOT_DOMAIN, ToLower(name)], SNS_PROGRAM_ID)
  {
    if Utf8Length(ToLower(name)) > MAX_SEED_LENGTH then None
    else pda([NAME_SEED, SNS_ROOT_DOMAIN, ToLower(name)], SNS_PROGRAM_ID)
  }

  lemma LowerCharInClass(c: char)
    ensures IsNameChar(LowerChar(c)) <==> AcceptedChar(c)
  {
  }

  lemma LowerCharsInClass(name: string)
    ensures MatchesNamePattern(ToLower(name)) <==> |name| > 0 && forall i :: 0 <= i < |name| ==> AcceptedChar(name[i])
  {
    forall i | 0 <= i < |name| {
      LowerCharInClass(name[i]);
    }
  }

  lemma {:induction false} AsciiUtf8Length(s: string)
    requires forall i :: 0 <= i < |s| ==> IsNameChar(s[i])
    ensures Utf8Length(s) == |s|
  {
    if s != [] {
      AsciiUtf8Length(s[1..]);
    }
  }

  /** A valid name's lowercase form is one byte per character, so a valid
      name longer than 32 characters cannot be derived. */
  lemma LongValidNameNotDerivable(pda: (seq<string>, Address) -> Option<Address>, name: string)
    requires ValidName(name) && |name| > MAX_SEED_LENGTH
    ensures DeriveNameAccount(pda, name).None?
  {
    AsciiUtf8Length(ToLower(name));
  }

  lemma ToLowerOfSameIgnoringCase(a: string, b: string)
    requires SameIgnoringCase(a, b)
    ensures ToLower(a) == ToLower(b)
  {
  }

  /** Validation ignores case: names that lowercase alike are accepted alike. */
  lemma ValidNameIgnoresCase(a: string, b: string)
    requires SameIgnoringCase(a, b)
    ensures ValidName(a) <==> ValidName(b)
  {
    ToLowerOfSameIgnoringCase(a, b);
  }

  /** A name and its lowercase form are accepted alike. */
  lemma ValidNameOfLowercase(name: string)
    ensures ValidName(ToLower(name)) <==> ValidName(name)
  {
    assert SameIgnoringCase(ToLower(name), name);
    ValidNameIgnoresCase(ToLower(name), name);
  }

  /** Names that differ only in case derive the same account. */
  lemma DerivationIgnoresCase(pda: (seq<string>, Address) -> Option<Address>, a: string, b: string)
    requires SameIgnoringCase(a, b)
    ensures DeriveNameAccount(pda, a) == DeriveNameAccount(pda, b)
  {
    ToLowerOfSameIgnoringCase(a, b);
  }
}
