/** What the channel promises, as lemmas about the transition functions of
    module Channel (which the methods of IOChannels.IOChannel are proved to
    follow). */
module ChannelProperties {
  import opened IOFormat
  import opened SgrCodes
  import opened Channel
  import MemDump

  // ---------------------------------------------------------------------
  // The filter

  /** `can_parse` accepts a message exactly when its verbosity is within the
      threshold and its category is enabled; `cat_all` asks only that some
      category be enabled. */
  lemma CanParseMeaning(s: ChannelState)
    ensures CanParse(s) <==>
              s.tag.vrb.Rank() <= s.filter.processV.Rank()
              && (if s.tag.cat == CatAll then Enabled(s.filter.processC) != {}
                  else s.tag.cat in Enabled(s.filter.processC))
  {
    var m := s.filter.processC;
    if s.tag.cat == CatAll {
      assert m & 15 != 0 <==> (m & 1 != 0 || m & 2 != 0 || m & 4 != 0 || m & 8 != 0);
      if m & 1 != 0 {
        assert CatNormal in Enabled(m);
      } else if m & 2 != 0 {
        assert CatWarning in Enabled(m);
      } else if m & 4 != 0 {
        assert CatError in Enabled(m);
      } else if m & 8 != 0 {
        assert CatDebug in Enabled(m);
      }
    }
  }

  /** A rejected message is left alone by every value overload and by
      every modifier but verbosity and category. */
  lemma FilteredIsNoop(s: ChannelState, v: Value, m: Modifier, conv: Converters)
    requires !CanParse(s)
    ensures Write(s, v, conv) == s
    ensures !m.IsUngated() ==> PutModifier(s, m) == s
  {
  }

  /** Verbosity and category are set whatever the filter says, and nothing
      else changes. */
  lemma TagTokensUngated(s: ChannelState, v: Verbosity, c: Category)
    ensures PutModifier(s, SetVerbosity(v)).tag == Tag(v, s.tag.cat)
    ensures PutModifier(s, SetCategory(c)).tag == Tag(s.tag.vrb, c)
    ensures PutModifier(s, SetVerbosity(v)).(tag := s.tag) == s
    ensures PutModifier(s, SetCategory(c)).(tag := s.tag) == s
  {
  }

  // ---------------------------------------------------------------------
  // Modifiers

  /** The colour and text-attribute tokens store their value and raise the
      dirty flag; every other token leaves the attributes, the flag
      included, as they were. No modifier touches the message, the filter,
      the echo settings or the log. */
  lemma ModifierAttributes(s: ChannelState, m: Modifier)
    ensures var r := PutModifier(s, m);
      && (m.IsAttribute() && CanParse(s) ==>
            r.attrs.dirty
            && r.attrs.ta == (if m.SetAttributes? then m.ta else s.attrs.ta)
            && r.attrs.fg == (if m.SetFG? then m.fg else s.attrs.fg)
            && r.attrs.bg == (if m.SetBG? then m.bg else s.attrs.bg)
            && r.attrs.format == s.attrs.format)
      && (!m.IsAttribute() ==> r.attrs == s.attrs)
      && r.msg == s.msg && r.filter == s.filter && r.echo == s.echo && r.log == s.log
  {
  }

  /** Giving the same memory-separator token twice is giving it once:
      `(m | sep) | sep == m | sep`. */
  lemma MemSeparatorIdempotent(s: ChannelState, sep: bv8)
    ensures var m := SetMemSeparators(sep);
      PutModifier(PutModifier(s, m), m) == PutModifier(s, m)
  {
    var s1 := PutModifier(s, SetMemSeparators(sep));
    if CanParse(s) {
      assert CanParse(s1);
      var f := s.fmt.memformat;
      assert (f | sep) | sep == f | sep;
    }
  }

  /** The memory-separator token: 0 switches both separators off, any other
      value adds its separators to the ones already on. */
  lemma MemSeparatorRules(s: ChannelState, sep: bv8)
    requires CanParse(s)
    ensures var f := PutModifier(s, SetMemSeparators(sep)).fmt.memformat;
      && (sep == 0 ==> !MemDump.ByteSpacing(f) && !MemDump.WordSpacing(f))
      && (sep != 0 ==>
            (MemDump.ByteSpacing(f) <==> MemDump.ByteSpacing(s.fmt.memformat) || MemDump.ByteSpacing(sep))
            && (MemDump.WordSpacing(f) <==> MemDump.WordSpacing(s.fmt.memformat) || MemDump.WordSpacing(sep)))
  {
    var f := PutModifier(s, SetMemSeparators(sep)).fmt.memformat;
    if sep != 0 {
      assert f == s.fmt.memformat | sep;
      assert (s.fmt.memformat | sep) & 1 == (s.fmt.memformat & 1) | (sep & 1);
      assert (s.fmt.memformat | sep) & 2 == (s.fmt.memformat & 2) | (sep & 2);
    }
  }

  /** A run of gated modifiers, all accepted, changes only the formatting and
      the attributes, so the filter keeps accepting. */
  lemma {:induction false} GatedRunKeepsTag(s: ChannelState, ms: seq<Modifier>)
    requires CanParse(s)
    requires forall i :: 0 <= i < |ms| ==> !ms[i].IsUngated()
    ensures var r := PutModifiers(s, ms);
      r.(fmt := s.fmt, attrs := s.attrs) == s && CanParse(r)
    decreases |ms|
  {
    if ms != [] {
      GatedRunKeepsTag(PutModifier(s, ms[0]), ms[1..]);
    }
  }

  /** A run of colour and attribute tokens only changes the attributes; the
      escape text is untouched and, when the run is not empty, the flag is
      raised. */
  lemma {:induction false} AttributeRun(s: ChannelState, ms: seq<Modifier>)
    requires CanParse(s)
    requires forall i :: 0 <= i < |ms| ==> ms[i].IsAttribute()
    ensures var r := PutModifiers(s, ms);
      && r.(attrs := s.attrs) == s
      && r.attrs.format == s.attrs.format
      && (ms != [] ==> r.attrs.dirty)
      && (ms == [] ==> r == s)
    decreases |ms|
  {
    if ms != [] {
      var s1 := PutModifier(s, ms[0]);
      assert CanParse(s1);
      AttributeRun(s1, ms[1..]);
    }
  }

  // ---------------------------------------------------------------------
  // The escape

  /** `apply_attributes` answers whether the attributes were dirty. When
      they were, `format` becomes the escape for the current attributes and
      the flag drops; otherwise nothing changes. Either way only `format`
      and the flag can change. */
  lemma ApplyAttributesEffect(s: ChannelState, itos: int -> string)
    requires ItosWellFormed(itos)
    ensures var (applied, r) := ApplyAttributes(s, itos);
      && applied == s.attrs.dirty
      && !r.attrs.dirty
      && (applied ==>
            var f := r.attrs.format;
            |f| >= 3 && f[..2] == [ESC, '['] && f[|f| - 1] == 'm'
            && Fields(f[2..|f| - 1]) == SgrParams(s.attrs.ta, s.attrs.bg, s.attrs.fg, itos))
      && (!applied ==> r == s)
      && r.(attrs := s.attrs) == s
      && r.attrs.(format := s.attrs.format, dirty := s.attrs.dirty) == s.attrs
  {
    SgrShape(s.attrs.ta, s.attrs.bg, s.attrs.fg, itos);
  }

  /** `inject(const char*)` appends the escape when the attributes were
      dirty, then the text up to its first NUL; afterwards the flag is
      down, and only the message, the escape text and the flag changed. */
  lemma InjectTextEffect(s: ChannelState, text: string, itos: int -> string)
    requires ItosWellFormed(itos)
    ensures var r := InjectText(s, text, itos);
      && r.msg == s.msg + (if s.attrs.dirty then Sgr(s.attrs.ta, s.attrs.bg, s.attrs.fg, itos) else "")
                  + CPrefix(text)
      && !r.attrs.dirty
      && r.(msg := s.msg, attrs := s.attrs) == s
      && r.attrs.(format := s.attrs.format, dirty := s.attrs.dirty) == s.attrs
  {
    if s.attrs.dirty {
      var e := Sgr(s.attrs.ta, s.attrs.bg, s.attrs.fg, itos);
      SgrShape(s.attrs.ta, s.attrs.bg, s.attrs.fg, itos);
      CPrefixShape(e);
    }
  }

  /** `inject(char)`: the same, with the character itself. */
  lemma InjectCharEffect(s: ChannelState, c: char, itos: int -> string)
    requires ItosWellFormed(itos)
    ensures var r := InjectChar(s, c, itos);
      && r.msg == s.msg + (if s.attrs.dirty then Sgr(s.attrs.ta, s.attrs.bg, s.attrs.fg, itos) else "") + [c]
      && !r.attrs.dirty
      && r.(msg := s.msg, attrs := s.attrs) == s
      && r.attrs.(format := s.attrs.format, dirty := s.attrs.dirty) == s.attrs
  {
    if s.attrs.dirty {
      var e := Sgr(s.attrs.ta, s.attrs.bg, s.attrs.fg, itos);
      SgrShape(s.attrs.ta, s.attrs.bg, s.attrs.fg, itos);
      CPrefixShape(e);
    }
  }

  /** Consecutive colour and attribute tokens produce a single escape, for
      the attributes in force after the last of them, right before the
      next text. */
  lemma SingleEscape(s: ChannelState, ms: seq<Modifier>, text: string, itos: int -> string)
    requires ItosWellFormed(itos) && CanParse(s)
    requires ms != [] && forall i :: 0 <= i < |ms| ==> ms[i].IsAttribute()
    ensures var a := PutModifiers(s, ms).attrs;
      InjectText(PutModifiers(s, ms), text, itos).msg == s.msg + Sgr(a.ta, a.bg, a.fg, itos) + CPrefix(text)
  {
    AttributeRun(s, ms);
    InjectTextEffect(PutModifiers(s, ms), text, itos);
  }

  /** With the flag down, text goes in with no escape. */
  lemma NoEscapeWhenClean(s: ChannelState, text: string, itos: int -> string)
    requires ItosWellFormed(itos) && !s.attrs.dirty
    ensures InjectText(s, text, itos) == s.(msg := s.msg + CPrefix(text))
  {
    InjectTextEffect(s, text, itos);
  }

  // ---------------------------------------------------------------------
  // Resetting

  /** `reset_attributes` leaves no attribute set; it raises the flag when
      there was one to clear and otherwise changes nothing, and applying it
      twice is applying it once. */
  lemma ResetAttributesEffect(s: ChannelState)
    ensures var r := ResetAttributes(s);
      && r.attrs.ta == AttrNone && r.attrs.fg == AttrNone && r.attrs.bg == AttrNone
      && ((s.attrs.ta > 0 || s.attrs.fg > 0 || s.attrs.bg > 0) ==> r.attrs.dirty)
      && (s.attrs.ta == 0 && s.attrs.fg == 0 && s.attrs.bg == 0 ==> r == s)
      && r.attrs.format == s.attrs.format
      && r.(attrs := s.attrs) == s
      && ResetAttributes(r) == r
  {
  }

  /** `reset_flags` restores the default formatting, verbosity and
      category, resets the attributes, and leaves the message, the filter,
      the echo settings and the log alone. */
  lemma ResetFlagsEffect(s: ChannelState)
    ensures var r := ResetFlags(s);
      && r.fmt.base == 10 && r.fmt.charval == CharChar && r.fmt.precision == 14
      && r.fmt.sci == SciAuto && r.fmt.numcase == NumLower && r.fmt.ptr == PtrValue
      && r.fmt.readsize == 1 && r.fmt.memformat == 0
      && r.tag.vrb == VrbNormal && r.tag.cat == CatNormal
      && r.attrs == ResetAttributes(s).attrs
      && r.msg == s.msg && r.filter == s.filter && r.echo == s.echo && r.log == s.log
  {
  }

  // ---------------------------------------------------------------------
  // Dispatch

  /** The kinds of event, to pick them out of a log. */
  datatype Kind = KVerbosity | KCategory | KAll | KEcho | KWarning

  function KindOf(e: Event): Kind {
    match e
    case VerbositySignal(_, _, _) => KVerbosity
    case CategorySignal(_, _, _) => KCategory
    case AllSignal(_, _, _) => KAll
    case Echo(_, _) => KEcho
    case AllCategoriesOffWarning => KWarning
  }

  /** The events of kind `k`, in order. */
  function Select(log: seq<Event>, k: Kind): (r: seq<Event>)
    ensures |r| <= |log|
    ensures forall e :: e in r ==> e in log && KindOf(e) == k
  {
    if log == [] then []
    else (if KindOf(log[0]) == k then [log[0]] else []) + Select(log[1..], k)
  }

  lemma {:induction false} SelectConcat(a: seq<Event>, b: seq<Event>, k: Kind)
    ensures Select(a + b, k) == Select(a, k) + Select(b, k)
  {
    if a == [] {
      assert a + b == b;
    } else {
      assert (a + b)[0] == a[0];
      assert (a + b)[1..] == a[1..] + b;
      SelectConcat(a[1..], b, k);
    }
  }

  /** `LevelSignals` holds verbosity signals only, one per level at or above
      the message's verbosity: level `L` fires exactly when `vrb <= L`. */
  lemma {:induction false} LevelSignalsMembers(levels: seq<Verbosity>, msg: string, vrb: Verbosity, cat: Category)
    ensures Select(LevelSignals(levels, msg, vrb, cat), KVerbosity) == LevelSignals(levels, msg, vrb, cat)
    ensures forall k :: k != KVerbosity ==> Select(LevelSignals(levels, msg, vrb, cat), k) == []
    ensures forall l :: (VerbositySignal(l, msg, cat) in LevelSignals(levels, msg, vrb, cat))
                          <==> l in levels && vrb.Rank() <= l.Rank()
  {
    if levels != [] {
      var head := if vrb.Rank() <= levels[0].Rank() then [VerbositySignal(levels[0], msg, cat)] else [];
      var tail := LevelSignals(levels[1..], msg, vrb, cat);
      LevelSignalsMembers(levels[1..], msg, vrb, cat);
      assert LevelSignals(levels, msg, vrb, cat) == head + tail;
      forall k {
        SelectConcat(head, tail, k);
      }
      assert levels == [levels[0]] + levels[1..];
    }
  }

  /** A quiet message fires all four verbosity signals, a tmi message only
      the tmi one. */
  lemma LevelSignalCount(msg: string, vrb: Verbosity, cat: Category)
    ensures |LevelSignals(Levels, msg, vrb, cat)| == 4 - vrb.Rank()
  {
    LevelSignalsUnrolled(msg, vrb, cat);
  }

  lemma SelectSingle(e: Event, k: Kind)
    ensures Select([e], k) == if KindOf(e) == k then [e] else []
  {
    assert [e][1..] == [];
  }

  /** Picking events out of the dispatch, part by part. */
  lemma SelectDispatch(s: ChannelState, k: Kind)
    ensures Select(Dispatch(s), k)
            == Select(LevelSignals(Levels, s.msg, s.tag.vrb, s.tag.cat), k)
               + Select(CategorySignals(s.msg, s.tag.cat, s.tag.vrb), k)
               + Select([AllSignal(s.msg, s.tag.vrb, s.tag.cat)], k)
               + Select(if Echoes(s) then [Echo(s.echo.mode, CPrefix(s.msg))] else [], k)
  {
    var a := LevelSignals(Levels, s.msg, s.tag.vrb, s.tag.cat);
    var b := CategorySignals(s.msg, s.tag.cat, s.tag.vrb);
    var c := [AllSignal(s.msg, s.tag.vrb, s.tag.cat)];
    var d := if Echoes(s) then [Echo(s.echo.mode, CPrefix(s.msg))] else [];
    assert Dispatch(s) == a + b + c + d;
    SelectConcat(a, b, k);
    SelectConcat(a + b, c, k);
    SelectConcat(a + b + c, d, k);
  }

  /** The parts of the dispatch other than the verbosity signals, by kind. */
  lemma SelectTail(s: ChannelState, k: Kind)
    ensures Select(CategorySignals(s.msg, s.tag.cat, s.tag.vrb), k)
            == (if k == KCategory then CategorySignals(s.msg, s.tag.cat, s.tag.vrb) else [])
    ensures Select([AllSignal(s.msg, s.tag.vrb, s.tag.cat)], k)
            == (if k == KAll then [AllSignal(s.msg, s.tag.vrb, s.tag.cat)] else [])
    ensures Select(if Echoes(s) then [Echo(s.echo.mode, CPrefix(s.msg))] else [], k)
            == (if k == KEcho && Echoes(s) then [Echo(s.echo.mode, CPrefix(s.msg))] else [])
  {
    if s.tag.cat != CatAll {
      SelectSingle(CategorySignal(s.tag.cat, s.msg, s.tag.vrb), k);
    }
    SelectSingle(AllSignal(s.msg, s.tag.vrb, s.tag.cat), k);
    SelectSingle(Echo(s.echo.mode, CPrefix(s.msg)), k);
  }

  /** `transmit` fires the verbosity signals of the fall-through. */
  lemma DispatchVerbositySignals(s: ChannelState)
    ensures Select(Dispatch(s), KVerbosity) == LevelSignals(Levels, s.msg, s.tag.vrb, s.tag.cat)
  {
    LevelSignalsMembers(Levels, s.msg, s.tag.vrb, s.tag.cat);
    SelectDispatch(s, KVerbosity);
    SelectTail(s, KVerbosity);
  }

  /** `transmit` fires exactly one category signal, that of the message's
      category, and none for `cat_all`. */
  lemma DispatchCategorySignal(s: ChannelState)
    ensures Select(Dispatch(s), KCategory)
            == (if s.tag.cat == CatAll then [] else [CategorySignal(s.tag.cat, s.msg, s.tag.vrb)])
  {
    LevelSignalsMembers(Levels, s.msg, s.tag.vrb, s.tag.cat);
    SelectDispatch(s, KCategory);
    SelectTail(s, KCategory);
  }

  /** `transmit` always fires the `all` signal, once. */
  lemma DispatchAllSignal(s: ChannelState)
    ensures Select(Dispatch(s), KAll) == [AllSignal(s.msg, s.tag.vrb, s.tag.cat)]
  {
    LevelSignalsMembers(Levels, s.msg, s.tag.vrb, s.tag.cat);
    SelectDispatch(s, KAll);
    SelectTail(s, KAll);
  }

  /** `transmit` echoes the message, up to its first NUL, exactly when the
      echo is on and its verbosity and category match the message's, and
      prints no warning. */
  lemma DispatchEcho(s: ChannelState)
    ensures Select(Dispatch(s), KEcho)
            == (if s.echo.mode != EchoNone && s.tag.vrb.Rank() <= s.echo.vrb.Rank()
                   && (s.tag.cat == s.echo.cat || s.echo.cat == CatAll)
                then [Echo(s.echo.mode, CPrefix(s.msg))] else [])
    ensures Select(Dispatch(s), KWarning) == []
  {
    LevelSignalsMembers(Levels, s.msg, s.tag.vrb, s.tag.cat);
    SelectDispatch(s, KEcho);
    SelectTail(s, KEcho);
    SelectDispatch(s, KWarning);
    SelectTail(s, KWarning);
  }

  /** The echo prints the message as a C string, so a NUL inside the
      message cuts the echoed text there, while the "all" signal still
      receives the whole message. */
  lemma EchoStopsAtNul(s: ChannelState, i: nat)
    requires Echoes(s)
    requires i < |s.msg| && s.msg[i] == '\0' && '\0' !in s.msg[..i]
    ensures Select(Dispatch(s), KEcho) == [Echo(s.echo.mode, s.msg[..i])]
    ensures AllSignal(s.msg, s.tag.vrb, s.tag.cat) in Dispatch(s)
  {
    DispatchEcho(s);
    CPrefixStopsAtNul(s.msg, i);
  }

  /** `transmit` with an empty message does nothing; otherwise it logs the
      dispatch, empties the message, and resets the flags exactly when
      `keep` is false. */
  lemma TransmitEffect(s: ChannelState, keep: bool)
    ensures s.msg == "" ==> Transmit(s, keep) == s
    ensures s.msg != "" ==>
              var r := Transmit(s, keep);
              && r.msg == ""
              && r.log == s.log + Dispatch(s)
              && r.filter == s.filter && r.echo == s.echo
              && (keep ==> r.fmt == s.fmt && r.tag == s.tag && r.attrs == s.attrs)
              && (!keep ==> r.fmt == DefaultFormatting && r.tag == DefaultTag
                            && r.attrs == ResetAttributes(s).attrs)
  {
  }

  // ---------------------------------------------------------------------
  // The flush markers

  /** The message a marker leaves before it transmits: the pending escape
      (after the reset, for the resetting markers) and a newline when the
      marker ends the line and the filter accepts the message. */
  function MarkerText(s: ChannelState, sp: Special, itos: int -> string): string {
    var s1 := if ResetsAttributes(sp) then ResetAttributes(s) else s;
    s.msg + (if s1.attrs.dirty then Sgr(s1.attrs.ta, s1.attrs.bg, s1.attrs.fg, itos) else "")
    + (if EndsLine(sp) && CanParse(s) then "\n" else "")
  }

  /** The state a marker leaves before it transmits: the message is the
      marker text, the flag is down, the attributes are cleared by the
      resetting markers and kept by the others, and nothing else changed. */
  lemma MarkerInject(s: ChannelState, sp: Special, itos: int -> string)
    requires ItosWellFormed(itos)
    ensures var s1 := if ResetsAttributes(sp) then ResetAttributes(s) else s;
      var s2 := InjectText(s1, if EndsLine(sp) && CanParse(s1) then "\n" else "", itos);
      && s2.msg == MarkerText(s, sp, itos)
      && !s2.attrs.dirty
      && (ResetsAttributes(sp) ==> s2.attrs.ta == AttrNone && s2.attrs.fg == AttrNone && s2.attrs.bg == AttrNone)
      && (!ResetsAttributes(sp) ==> s2.attrs.ta == s.attrs.ta && s2.attrs.fg == s.attrs.fg && s2.attrs.bg == s.attrs.bg)
      && s2.(msg := s.msg, attrs := s.attrs) == s
  {
    var s1 := if ResetsAttributes(sp) then ResetAttributes(s) else s;
    assert CanParse(s1) == CanParse(s);
    InjectTextEffect(s1, if EndsLine(sp) && CanParse(s1) then "\n" else "", itos);
    assert CPrefix("\n") == "\n";
    assert CPrefix("") == "";
  }

  /** The six markers: `io_end`, `io_send` and `io_endline` clear the
      attributes, the others keep them; `io_end`, `io_end_keep`, `io_send`
      and `io_send_keep` transmit (an empty result fires nothing) and leave
      the message empty, the endline markers only append; only `io_end`
      resets the flags. */
  lemma SpecialMarkers(s: ChannelState, sp: Special, itos: int -> string)
    requires ItosWellFormed(itos)
    ensures var r := PutSpecial(s, sp, itos);
      var text := MarkerText(s, sp, itos);
      && (ResetsAttributes(sp) ==> r.attrs.ta == AttrNone && r.attrs.fg == AttrNone && r.attrs.bg == AttrNone)
      && (!ResetsAttributes(sp) ==> r.attrs.ta == s.attrs.ta && r.attrs.fg == s.attrs.fg && r.attrs.bg == s.attrs.bg)
      && (Transmits(sp) ==> r.msg == "" && r.log == s.log + (if text == "" then [] else Dispatch(s.(msg := text))))
      && (!Transmits(sp) ==> r.msg == text && r.log == s.log)
      && (sp == IoEnd && text != "" ==> r.fmt == DefaultFormatting && r.tag == DefaultTag)
      && (sp != IoEnd || text == "" ==> r.fmt == s.fmt && r.tag == s.tag)
      && r.filter == s.filter && r.echo == s.echo
  {
    var s1 := if ResetsAttributes(sp) then ResetAttributes(s) else s;
    var s2 := InjectText(s1, if EndsLine(sp) && CanParse(s1) then "\n" else "", itos);
    MarkerInject(s, sp, itos);
    if Transmits(sp) {
      TransmitEffect(s2, KeepsFlags(sp));
      assert Dispatch(s2) == Dispatch(s.(msg := s2.msg));
    }
  }

  /** A filtered message with nothing pending leaves no trace: no marker
      fires any event. */
  lemma FilteredMarkerSilent(s: ChannelState, sp: Special, itos: int -> string)
    requires ItosWellFormed(itos)
    requires !CanParse(s) && s.msg == "" && !s.attrs.dirty
    requires !ResetsAttributes(sp) || (s.attrs.ta == 0 && s.attrs.fg == 0 && s.attrs.bg == 0)
    ensures PutSpecial(s, sp, itos).log == s.log
  {
    SpecialMarkers(s, sp, itos);
  }

  /** But a filtered message with a pending escape is transmitted: the
      escape alone becomes the message. */
  lemma FilteredMarkerFlushesEscape(s: ChannelState, itos: int -> string)
    requires ItosWellFormed(itos)
    requires !CanParse(s) && s.msg == "" && s.attrs.dirty
    ensures var e := Sgr(s.attrs.ta, s.attrs.bg, s.attrs.fg, itos);
      PutSpecial(s, IoEndKeep, itos).log == s.log + Dispatch(s.(msg := e))
  {
    SpecialMarkers(s, IoEndKeep, itos);
    var e := Sgr(s.attrs.ta, s.attrs.bg, s.attrs.fg, itos);
    assert MarkerText(s, IoEndKeep, itos) == e;
    assert e != [];
  }

  // ---------------------------------------------------------------------
  // The filter settings

  /** The categories a mask enables, one bit at a time. */
  lemma EnabledBits(m: bv8)
    ensures CatNormal in Enabled(m) <==> m & 1 != 0
    ensures CatWarning in Enabled(m) <==> m & 2 != 0
    ensures CatError in Enabled(m) <==> m & 4 != 0
    ensures CatDebug in Enabled(m) <==> m & 8 != 0
    ensures CatAll !in Enabled(m)
  {
  }

  /** Clearing a category's bits clears exactly those bits. */
  lemma WithoutBits(m: bv8, c: Category)
    ensures Without(m, c) & 1 == (if c == CatNormal || c == CatAll then 0 else m & 1)
    ensures Without(m, c) & 2 == (if c == CatWarning || c == CatAll then 0 else m & 2)
    ensures Without(m, c) & 4 == (if c == CatError || c == CatAll then 0 else m & 4)
    ensures Without(m, c) & 8 == (if c == CatDebug || c == CatAll then 0 else m & 8)
  {
  }

  /** Setting a category's bits sets exactly those bits. */
  lemma WithBits(m: bv8, c: Category)
    ensures (m | c.Mask()) & 1 == (if c == CatNormal || c == CatAll then 1 else m & 1)
    ensures (m | c.Mask()) & 2 == (if c == CatWarning || c == CatAll then 2 else m & 2)
    ensures (m | c.Mask()) & 4 == (if c == CatError || c == CatAll then 4 else m & 4)
    ensures (m | c.Mask()) & 8 == (if c == CatDebug || c == CatAll then 8 else m & 8)
  {
  }

  /** `shutup(cat)` disables exactly that category (`cat_all`: every
      category), warns exactly when the mask becomes empty, and touches
      nothing else. */
  lemma ShutupCategoryEffect(s: ChannelState, c: Category)
    ensures var r := ShutupCategory(s, c);
      && Enabled(r.filter.processC) == (if c == CatAll then {} else Enabled(s.filter.processC) - {c})
      && r.log == s.log + (if r.filter.processC == 0 then [AllCategoriesOffWarning] else [])
      && r.filter.processV == s.filter.processV
      && r.(filter := s.filter, log := s.log) == s
  {
    var m := s.filter.processC;
    var m' := Without(m, c);
    EnabledBits(m);
    EnabledBits(m');
    WithoutBits(m, c);
  }

  /** `speakup(cat)` enables exactly that category (`cat_all`: every
      category) on top of those already enabled. */
  lemma SpeakupCategoryEffect(s: ChannelState, c: Category)
    ensures var r := SpeakupCategory(s, c);
      && Enabled(r.filter.processC) == (if c == CatAll then SingleCategories else Enabled(s.filter.processC) + {c})
      && r.filter.processV == s.filter.processV
      && r.(filter := s.filter) == s
  {
    var m := s.filter.processC;
    var m' := m | c.Mask();
    EnabledBits(m);
    EnabledBits(m');
    WithBits(m, c);
  }

  /** After `speakup()` every message is accepted, whatever its verbosity
      and category. */
  lemma SpeakupAcceptsAll(s: ChannelState, t: Tag)
    ensures CanParse(Speakup(s).(tag := t))
  {
    assert 15 & t.cat.Mask() != 0;
  }

  /** After `shutup(vrb)` a message more verbose than `vrb` is rejected;
      one at most that verbose is accepted exactly when its category is
      enabled. */
  lemma ShutupVerbosityEffect(s: ChannelState, v: Verbosity)
    ensures var r := ShutupVerbosity(s, v);
      && (v.Rank() < s.tag.vrb.Rank() ==> !CanParse(r))
      && (s.tag.vrb.Rank() <= v.Rank() ==> (CanParse(r) <==> s.filter.processC & s.tag.cat.Mask() != 0))
      && r.(filter := s.filter) == s && r.filter.processC == s.filter.processC
  {
  }

  /** An untyped pointer dumped with a read size of 0 reaches the memory
      dump with no bytes; the model gives it a buffer of one character, the
      terminator. */
  lemma ZeroReadSizeDump(s: ChannelState, addr: nat, conv: Converters)
    requires CanParse(s) && s.fmt.ptr == PtrMemory && s.fmt.readsize == 0
    ensures Write(s, VoidPointer(addr), conv)
            == InjectText(s, conv.memdump(addr, 0, s.fmt.memformat, 1), conv.itos)
  {
    assert MemDump.DumpSize(0, s.fmt.memformat) == 1;
  }

  // ---------------------------------------------------------------------
  // An end-to-end message

  /** A red "err" on an accepting channel: the escape for red, the text,
      the reset escape that `io_end` provokes and the newline make up the
      message that every signal receives, and the channel is back to its
      defaults. */
  lemma RedErrorMessage(conv: Converters, filter: Filter, echo: EchoConfig, addr: nat)
    requires conv.itos(0) == "0" && conv.itos(31) == "31"
    requires VrbNormal.Rank() <= filter.processV.Rank() && filter.processC & 1 != 0
    ensures var s0 := Initial(filter, echo);
      var s := PutSpecial(Write(PutModifier(s0, SetFG(31)), CString("err", addr), conv), IoEnd, conv.itos);
      var expected := [ESC] + "[0;31merr" + [ESC] + "[0m\n";
      && s.log == Dispatch(s0.(msg := expected))
      && AllSignal(expected, VrbNormal, CatNormal) in s.log
      && s.msg == "" && s.fmt == DefaultFormatting && s.tag == DefaultTag
      && s.attrs.fg == AttrNone && !s.attrs.dirty
  {
    var itos := conv.itos;
    var s0 := Initial(filter, echo);
    assert CanParse(s0);
    var s1 := PutModifier(s0, SetFG(31));
    assert s1.attrs == Attributes(0, 31, 0, true, "");
    assert CanParse(s1);
    var red := Sgr(0, 0, 31, itos);
    assert red == [ESC] + "[0;31m";
    assert CPrefix(red) == red by {
      assert '\0' !in red;
      CPrefixShape(red);
    }
    assert CPrefix("err") == "err" by {
      CPrefixShape("err");
    }
    var s2 := Write(s1, CString("err", addr), conv);
    assert s2.msg == [ESC] + "[0;31merr";
    assert s2.attrs == Attributes(0, 31, 0, false, red);
    var s3 := ResetAttributes(s2);
    assert s3.attrs == Attributes(0, 0, 0, true, red);
    var plain := Sgr(0, 0, 0, itos);
    assert plain == [ESC] + "[0m";
    assert CPrefix(plain) == plain by {
      assert '\0' !in plain;
      CPrefixShape(plain);
    }
    assert CPrefix("\n") == "\n";
    var expected := [ESC] + "[0;31merr" + [ESC] + "[0m\n";
    var s4 := InjectText(s3, "\n", itos);
    assert s4.msg == expected;
    assert Dispatch(s4) == Dispatch(s0.(msg := expected));
    assert AllSignal(expected, VrbNormal, CatNormal) in Dispatch(s4);
  }
}
