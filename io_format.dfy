/** Format-modifier values, filter levels and the conversion utilities the
    channel relies on. The numeric codes of the enumerations live in
    iochannel.hpp, which is not part of this model; the values fixed here are
    the ones the channel's arithmetic and comparisons need. */
module IOFormat {

  /** Verbosity of a message, from the most important (quiet) to the least
      (tmi). The channel compares levels by their rank. */
  datatype Verbosity = VrbQuiet | VrbNormal | VrbChatty | VrbTmi
  {
    function Rank(): nat {
      match this
      case VrbQuiet => 0
      case VrbNormal => 1
      case VrbChatty => 2
      case VrbTmi => 3
    }
  }

  /** Category of a message. Each category but `CatAll` is one bit of a
      category mask; `CatAll` is the union of the four bits. */
  datatype Category = CatNormal | CatWarning | CatError | CatDebug | CatAll
  {
    function Mask(): bv8 {
      match this
      case CatNormal => 1
      case CatWarning => 2
      case CatError => 4
      case CatDebug => 8
      case CatAll => 15
    }
  }

  /** The four categories that have a signal and a bit of their own. */
  const SingleCategories: set<Category> := {CatNormal, CatWarning, CatError, CatDebug}

  /** Numeric base, binary up to hexadecimal. */
  type Base = b: int | 2 <= b <= 16 witness 10
  const BaseDec: Base := 10

  datatype NumCase = NumLower | NumUpper
  datatype SciMode = SciNone | SciSci | SciAuto
  datatype CharValue = CharChar | CharInt
  datatype PtrMode = PtrValue | PtrAddress | PtrMemory
  datatype EchoMode = EchoNone | EchoPrintf | EchoCout

  /** Bits of the memory-dump layout mask. */
  const MemByteSep: bv8 := 1
  const MemWordSep: bv8 := 2

  /** `ta_none`, `fg_none` and `bg_none`: no text attribute or colour. */
  const AttrNone: nat := 0

  /** Default precision restored by `reset_flags`. */
  const DefaultPrecision: nat := 14

  /** The integer widths the channel renders, each with its own length and
      conversion routine (intlen/itoa, lintlen/litoa, uintlen/uitoa,
      ulintlen/ulitoa). */
  datatype IntWidth = IntW | LongIntW | UIntW | ULongIntW

  /** The conversion utilities of `stdutils`, whose bodies are not part of
      this model. They are opaque: the channel only appends what they return.
      - `itoa(w, n, base, case)`: `n` of width `w` in `base` and `case`;
      - `itos(n)`: a decimal rendering, used for the escape codes;
      - `dtos(x, precision, sci)`: a floating-point rendering;
      - `ptrtos(address, case)`: a pointer address in hexadecimal;
      - `memdump(address, len, memformat, capacity)`: the hex dump of `len`
        bytes at `address`, as written into a buffer of `capacity` chars. */
  datatype Converters = Converters(
    itoa: (IntWidth, int, Base, NumCase) -> string,
    itos: int -> string,
    dtos: (real, nat, SciMode) -> string,
    ptrtos: (nat, NumCase) -> string,
    memdump: (nat, nat, bv8, nat) -> string)

  /** The text a C string designates: its characters up to the first NUL. */
  function CPrefix(s: string): string {
    if s == [] || s[0] == '\0' then [] else [s[0]] + CPrefix(s[1..])
  }

  /** A C string never reaches past its terminator, and text without a NUL
      is passed through whole. */
  lemma {:induction false} CPrefixShape(s: string)
    ensures '\0' !in CPrefix(s)
    ensures CPrefix(s) <= s
    ensures '\0' !in s ==> CPrefix(s) == s
  {
    if s != [] && s[0] != '\0' {
      CPrefixShape(s[1..]);
      assert s == [s[0]] + s[1..];
    }
  }

  /** A C string ends exactly at its first NUL. */
  lemma {:induction false} CPrefixStopsAtNul(s: string, i: nat)
    requires i < |s| && s[i] == '\0' && '\0' !in s[..i]
    ensures CPrefix(s) == s[..i]
  {
    if i > 0 {
      assert s[0] == s[..i][0];
      assert s[1..][..i - 1] == s[..i][1..];
      CPrefixStopsAtNul(s[1..], i - 1);
      assert s[..i] == [s[0]] + s[1..][..i - 1];
    }
  }
}
