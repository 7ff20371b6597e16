/** The character units of OneString: `OneChar` carries a type tag fixed
    at construction; `UniChar` holds a Unicode character of up to four
    bytes and its terminator in a five-byte buffer, `AscChar` one byte.
    Only the constructors, `getId`, `operator<` and the stream output have
    bodies in onechar.hpp; the other operations are specified here by the
    contracts their declarations document. */
module OneChars {

  /** The two tags. */
  const ASCII: bool := false
  const UNICODE: bool := true

  /** Bytes in a `UniChar` buffer: a four-byte UTF-8 sequence and a NUL. */
  const MiniCharSize: nat := 5

  /** The bytes of a C string: everything before the first NUL. */
  function UntilNul(s: seq<bv8>): (r: seq<bv8>)
    ensures r <= s && 0 !in r
    ensures |r| < |s| ==> s[|r|] == 0
  {
    if s == [] || s[0] == 0 then [] else [s[0]] + UntilNul(s[1..])
  }

  /** A terminated text reads back as itself. */
  lemma {:induction false} UntilNulTerminated(t: seq<bv8>, rest: seq<bv8>)
    requires 0 !in t
    ensures UntilNul(t + [0] + rest) == t
  {
    if t != [] {
      assert (t + [0] + rest)[1..] == t[1..] + [0] + rest;
      UntilNulTerminated(t[1..], rest);
    }
  }

  /** The value of a character unit. */
  datatype CharUnit = Asc(masterChar: bv8) | Uni(miniChar: seq<bv8>)
  {
    /** `getId`: the tag of the unit's kind. */
    function GetId(): bool {
      if Asc? then ASCII else UNICODE
    }

    /** The character the unit holds, as bytes: the byte of an `AscChar`
        (none for `'\0'`), the bytes of a `UniChar` up to its terminator. */
    function Text(): seq<bv8> {
      match this
      case Asc(c) => if c == 0 then [] else [c]
      case Uni(bytes) => UntilNul(bytes)
    }
  }

  /** `operator==(const OneChar&)`: the two hold exactly the same
      character. */
  predicate Equals(a: CharUnit, b: CharUnit) {
    a.Text() == b.Text()
  }

  /** `operator==(char)`: the unit holds exactly that single character. */
  predicate EqualsChar(a: CharUnit, c: bv8) {
    Equals(a, Asc(c))
  }

  /** The friend `operator==(…, char*)` of each kind: the unit holds
      exactly the character the C string designates, up to its NUL. */
  predicate EqualsCString(a: CharUnit, s: seq<bv8>) {
    a.Text() == UntilNul(s)
  }

  /** Comparing with a C string is comparing with the Unicode unit built
      from it, and for a single-byte C string, with that one character. */
  lemma EqualsCStringMeaning(a: CharUnit, s: seq<bv8>, c: bv8)
    ensures EqualsCString(a, s) <==> Equals(a, Uni(s))
    ensures c != 0 ==> (EqualsCString(a, [c, 0]) <==> EqualsChar(a, c))
    ensures EqualsCString(a, [0]) <==> a.Text() == []
  {
    if c != 0 {
      assert [c, 0][1..] == [0];
    }
  }

  /** Strict lexicographic order on byte strings, bytes compared as
      unsigned values. */
  predicate LexLess(x: seq<bv8>, y: seq<bv8>) {
    if y == [] then false
    else if x == [] then true
    else if x[0] != y[0] then x[0] < y[0]
    else LexLess(x[1..], y[1..])
  }

  /** `lessOneChar`: the unit's character sorts before the other's. */
  predicate LessOneChar(a: CharUnit, b: CharUnit) {
    LexLess(a.Text(), b.Text())
  }

  lemma {:induction false} LexLessIrreflexive(x: seq<bv8>)
    ensures !LexLess(x, x)
  {
    if x != [] {
      LexLessIrreflexive(x[1..]);
    }
  }

  lemma {:induction false} LexLessTransitive(x: seq<bv8>, y: seq<bv8>, z: seq<bv8>)
    requires LexLess(x, y) && LexLess(y, z)
    ensures LexLess(x, z)
  {
    if x != [] && x[0] == y[0] && y[0] == z[0] {
      LexLessTransitive(x[1..], y[1..], z[1..]);
    }
  }

  lemma {:induction false} LexLessTrichotomy(x: seq<bv8>, y: seq<bv8>)
    ensures LexLess(x, y) || x == y || LexLess(y, x)
    ensures !(LexLess(x, y) && LexLess(y, x))
  {
    if x != [] && y != [] && x[0] == y[0] {
      LexLessTrichotomy(x[1..], y[1..]);
      assert x == [x[0]] + x[1..] && y == [y[0]] + y[1..];
    }
  }

  /** `operator<` orders characters strictly and totally: of `a < b`,
      `a == b` and `b < a` exactly one holds, and the order is
      transitive. */
  lemma LessIsStrictTotalOrder(a: CharUnit, b: CharUnit, c: CharUnit)
    ensures !LessOneChar(a, a)
    ensures LessOneChar(a, b) || Equals(a, b) || LessOneChar(b, a)
    ensures !(LessOneChar(a, b) && Equals(a, b)) && !(LessOneChar(a, b) && LessOneChar(b, a))
    ensures LessOneChar(a, b) && LessOneChar(b, c) ==> LessOneChar(a, c)
  {
    LexLessIrreflexive(a.Text());
    LexLessTrichotomy(a.Text(), b.Text());
    if LessOneChar(a, b) && LessOneChar(b, c) {
      LexLessTransitive(a.Text(), b.Text(), c.Text());
    }
  }

  /** Equality is reflexive, symmetric and transitive, and comparing with a
      `char` is comparing with the `AscChar` holding it. */
  lemma EqualsIsEquivalence(a: CharUnit, b: CharUnit, c: CharUnit, ch: bv8)
    ensures Equals(a, a)
    ensures Equals(a, b) ==> Equals(b, a)
    ensures Equals(a, b) && Equals(b, c) ==> Equals(a, c)
    ensures EqualsChar(a, ch) <==> a.Text() == (if ch == 0 then [] else [ch])
  {
  }

  /** The base part of every character unit: the tag, set by a
      constructor and never changed. */
  class OneChar {
    const charId: bool

    /** `OneChar()`: an ASCII unit. */
    constructor ()
      ensures GetId() == ASCII
    {
      charId := ASCII;
    }

    /** `OneChar(mode)`. */
    constructor WithMode(mode: bool)
      ensures GetId() == mode
    {
      charId := mode;
    }

    function GetId(): bool {
      charId
    }
  }

  /** Where `print` writes: the bytes written so far. */
  class ByteSink {
    var written: seq<bv8>

    constructor ()
      ensures written == []
    {
      written := [];
    }
  }

  /** A Unicode character: up to four bytes and a NUL in a five-byte
      buffer. */
  class UniChar {
    const base: OneChar
    const miniChar: array<bv8>

    /** The buffer is five bytes and the unit is tagged Unicode. */
    predicate Valid() {
      miniChar.Length == MiniCharSize && base.GetId() == UNICODE
    }

    function Value(): CharUnit
      reads miniChar
    {
      Uni(miniChar[..])
    }

    /** `UniChar()`: tagged Unicode, holding the empty character. */
    constructor ()
      ensures Valid() && fresh(miniChar)
      ensures miniChar[0] == 0 && Value().Text() == []
    {
      base := new OneChar.WithMode(UNICODE);
      var buffer := new bv8[MiniCharSize];
      buffer[0] := 0;
      miniChar := buffer;
    }

    /** `operator[](pos) const`: the byte at `pos`. */
    method At(pos: int) returns (c: bv8)
      requires Valid() && 0 <= pos < MiniCharSize
      ensures c == miniChar[pos]
    {
      c := miniChar[pos];
    }

    /** Writing through `operator[](pos)`: only that byte changes. */
    method SetAt(pos: int, c: bv8)
      requires Valid() && 0 <= pos < MiniCharSize
      modifies miniChar
      ensures miniChar[..] == old(miniChar[..])[pos := c]
    {
      miniChar[pos] := c;
    }

    /** `operator=(char)`: the character followed by a NUL. */
    method AssignChar(c: bv8)
      requires Valid()
      modifies miniChar
      ensures miniChar[0] == c && miniChar[1] == 0
      ensures Equals(Value(), Asc(c))
    {
      miniChar[0] := c;
      miniChar[1] := 0;
      if c == 0 {
        assert miniChar[..] == [] + [0] + miniChar[1..];
        UntilNulTerminated([], miniChar[1..]);
      } else {
        assert miniChar[..] == [c] + [0] + miniChar[2..];
        UntilNulTerminated([c], miniChar[2..]);
      }
    }

    /** `operator=(const char*)`: the bytes of the C string, at most four,
        followed by a NUL. */
    method AssignBytes(s: seq<bv8>)
      requires Valid() && |UntilNul(s)| < MiniCharSize
      modifies miniChar
      ensures miniChar[..|UntilNul(s)|] == UntilNul(s) && miniChar[|UntilNul(s)|] == 0
      ensures Value().Text() == UntilNul(s)
    {
      var t := UntilNul(s);
      var i := 0;
      while i < |t|
        invariant 0 <= i <= |t|
        invariant miniChar[..i] == t[..i]
      {
        miniChar[i] := t[i];
        i := i + 1;
      }
      miniChar[|t|] := 0;
      assert miniChar[..|t|] == t;
      assert miniChar[..] == t + [0] + miniChar[|t| + 1..];
      UntilNulTerminated(t, miniChar[|t| + 1..]);
    }

    /** `operator=(const OneChar&)`: holds the same character as the
        source unit afterwards. */
    method AssignFrom(other: CharUnit)
      requires Valid() && |other.Text()| < MiniCharSize
      modifies miniChar
      ensures Equals(Value(), other)
    {
      AssignBytes(other.Text());
      UntilNulTerminated(other.Text(), []);
      assert other.Text() + [0] + [] == other.Text() + [0];
    }

    /** `print`: writes the character's bytes. */
    method Print(os: ByteSink)
      modifies os
      ensures os.written == old(os.written) + Value().Text()
    {
      os.written := os.written + UntilNul(miniChar[..]);
    }
  }

  /** An ASCII character: one byte. */
  class AscChar {
    const base: OneChar
    var masterChar: bv8

    predicate Valid() {
      base.GetId() == ASCII
    }

    function Value(): CharUnit
      reads this
    {
      Asc(masterChar)
    }

    /** `AscChar()`: tagged ASCII, holding `'\0'`. */
    constructor ()
      ensures Valid() && masterChar == 0 && Value().Text() == []
    {
      base := new OneChar.WithMode(ASCII);
      masterChar := 0;
    }

    /** `operator[](pos) const`: an `AscChar` has one position. */
    method At(pos: int) returns (c: bv8)
      requires pos == 0
      ensures c == masterChar
    {
      c := masterChar;
    }

    /** Writing through `operator[](pos)`. */
    method SetAt(pos: int, c: bv8)
      requires pos == 0
      modifies this
      ensures masterChar == c
    {
      masterChar := c;
    }

    /** `operator=(char)`. */
    method AssignChar(c: bv8)
      modifies this
      ensures masterChar == c && EqualsChar(Value(), c)
    {
      masterChar := c;
    }

    /** `operator=(const char*)` for a C string of at most one character. */
    method AssignBytes(s: seq<bv8>)
      requires |UntilNul(s)| <= 1
      modifies this
      ensures Value().Text() == UntilNul(s)
    {
      var t := UntilNul(s);
      masterChar := if t == [] then 0 else t[0];
    }

    /** `operator=(const OneChar&)` from a unit holding at most one byte. */
    method AssignFrom(other: CharUnit)
      requires |other.Text()| <= 1
      modifies this
      ensures Equals(Value(), other)
    {
      var t := other.Text();
      masterChar := if t == [] then 0 else t[0];
    }

    /** `print`: writes the character. */
    method Print(os: ByteSink)
      modifies os
      ensures os.written == old(os.written) + Value().Text()
    {
      os.written := os.written + (if masterChar == 0 then [] else [masterChar]);
    }
  }

  /** A reference to a character unit of either kind, on which the
      virtual calls of `OneChar` dispatch. */
  datatype AnyChar = UniRef(u: UniChar) | AscRef(a: AscChar)
  {
    function Value(): CharUnit
      reads if UniRef? then {u.miniChar} else {a}
    {
      if UniRef? then u.Value() else a.Value()
    }

    /** `getId` through the base part. */
    function GetId(): bool {
      if UniRef? then u.base.GetId() else a.base.GetId()
    }
  }

  /** The tag of a well-formed unit is the tag of its kind. */
  lemma TagMatchesKind(c: AnyChar)
    requires c.UniRef? ==> c.u.Valid()
    requires c.AscRef? ==> c.a.Valid()
    ensures c.GetId() == c.Value().GetId()
  {
  }

  /** `operator<`: delegates to `lessOneChar`. */
  method Less(x: AnyChar, y: AnyChar) returns (r: bool)
    ensures r == LessOneChar(x.Value(), y.Value())
  {
    r := LessOneChar(x.Value(), y.Value());
  }

  /** The stream `operator<<`: prints the unit and hands back the same
      stream. */
  method Put(os: ByteSink, c: AnyChar) returns (r: ByteSink)
    modifies os
    ensures r == os
    ensures os.written == old(os.written) + c.Value().Text()
  {
    match c {
      case UniRef(u) => u.Print(os);
      case AscRef(a) => a.Print(os);
    }
    r := os;
  }
}
