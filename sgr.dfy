/** The ANSI Select Graphic Rendition escape the channel injects before
    content whose terminal attributes changed (section 8.3.117 of ECMA-48):
    ESC '[' attribute (';' background)? (';' foreground)? 'm'. */
module SgrCodes {

  const ESC: char := 27 as char

  /** The escape `apply_attributes` builds from the text attribute `ta`, the
      background `bg` and the foreground `fg`; a colour code of 0 (none) is
      left out, the attribute code never is. */
  function Sgr(ta: nat, bg: nat, fg: nat, itos: int -> string): string {
    [ESC, '['] + SgrBody(ta, bg, fg, itos) + "m"
  }

  /** The parameters the escape carries, in order. */
  function SgrParams(ta: nat, bg: nat, fg: nat, itos: int -> string): seq<string> {
    [itos(ta)]
    + (if bg > 0 then [itos(bg)] else [])
    + (if fg > 0 then [itos(fg)] else [])
  }

  /** Text made only of decimal digits and minus signs. */
  predicate NumeralText(t: string) {
    forall i :: 0 <= i < |t| ==> t[i] == '-' || '0' <= t[i] <= '9'
  }

  /** What the escape relies on of `itos`: it writes a number. */
  ghost predicate ItosWellFormed(itos: int -> string) {
    forall n: int :: NumeralText(itos(n))
  }

  /** Splits text at every ';' (an empty text is one empty field). */
  function Fields(s: string): (r: seq<string>)
    ensures |r| >= 1
  {
    if s == [] then [[]]
    else
      var rest := Fields(s[1..]);
      if s[0] == ';' then [[]] + rest else [[s[0]] + rest[0]] + rest[1..]
  }

  lemma {:induction false} FieldsOfPlain(a: string)
    requires ';' !in a
    ensures Fields(a) == [a]
  {
    if a != [] {
      FieldsOfPlain(a[1..]);
      assert [a[0]] + a[1..] == a;
    }
  }

  lemma {:induction false} FieldsOfJoin(a: string, b: string)
    requires ';' !in a
    ensures Fields(a + ";" + b) == [a] + Fields(b)
  {
    if a == [] {
      assert a + ";" + b == [';'] + b;
      assert ([';'] + b)[1..] == b;
    } else {
      FieldsOfJoin(a[1..], b);
      assert (a + ";" + b)[1..] == a[1..] + ";" + b;
      assert [a[0]] + a[1..] == a;
    }
  }

  lemma NumeralHasNoSeparator(t: string)
    requires NumeralText(t)
    ensures ';' !in t && 'm' !in t && ESC !in t && '\0' !in t
  {
    assert forall i :: 0 <= i < |t| ==> t[i] != ';' && t[i] != 'm' && t[i] != ESC && t[i] != '\0';
  }

  /** The parameter text between ESC '[' and 'm'. */
  function SgrBody(ta: nat, bg: nat, fg: nat, itos: int -> string): string {
    itos(ta)
    + (if bg > 0 then ";" + itos(bg) else "")
    + (if fg > 0 then ";" + itos(fg) else "")
  }

  lemma {:induction false} SgrBodyFields(ta: nat, bg: nat, fg: nat, itos: int -> string)
    requires ItosWellFormed(itos)
    ensures Fields(SgrBody(ta, bg, fg, itos)) == SgrParams(ta, bg, fg, itos)
    ensures ESC !in SgrBody(ta, bg, fg, itos) && '\0' !in SgrBody(ta, bg, fg, itos)
  {
    var a, b, f := itos(ta), itos(bg), itos(fg);
    NumeralHasNoSeparator(a);
    NumeralHasNoSeparator(b);
    NumeralHasNoSeparator(f);
    var body := SgrBody(ta, bg, fg, itos);
    if bg > 0 && fg > 0 {
      assert body == a + ";" + (b + ";" + f);
      FieldsOfPlain(f);
      FieldsOfJoin(b, f);
      FieldsOfJoin(a, b + ";" + f);
    } else if bg > 0 {
      assert body == a + ";" + b;
      FieldsOfPlain(b);
      FieldsOfJoin(a, b);
    } else if fg > 0 {
      assert body == a + ";" + f;
      FieldsOfPlain(f);
      FieldsOfJoin(a, f);
    } else {
      assert body == a;
      FieldsOfPlain(a);
    }
  }

  /** The escape is framed by ESC '[' and 'm', carries exactly the
      parameters of `SgrParams` separated by ';', and holds no other ESC and
      no NUL: a C-string copy of it is the whole escape. */
  lemma {:induction false} SgrShape(ta: nat, bg: nat, fg: nat, itos: int -> string)
    requires ItosWellFormed(itos)
    ensures var r := Sgr(ta, bg, fg, itos);
      |r| >= 3 && r[..2] == [ESC, '['] && r[|r| - 1] == 'm'
      && Fields(r[2..|r| - 1]) == SgrParams(ta, bg, fg, itos)
      && ESC !in r[1..] && '\0' !in r
  {
    var body := SgrBody(ta, bg, fg, itos);
    SgrBodyFields(ta, bg, fg, itos);
    var r := Sgr(ta, bg, fg, itos);
    assert r[2..|r| - 1] == body;
    assert r[1..] == ['['] + body + "m";
    assert r == [ESC] + r[1..];
  }
}
