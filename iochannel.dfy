/** The `iochannel` object: its fields are updated in place by each
    operation, and each method is proved to have the effect the matching
    function of module Channel describes. */
module IOChannels {
  import opened IOFormat
  import opened Channel
  import SgrCodes
  import MemDump

  class IOChannel {
    /** The conversion utilities the channel calls. */
    const conv: Converters

    /** The message being built. */
    var msg: string
    /** The formatting fields. */
    var fmt: Formatting
    /** The terminal attributes, their dirty flag and the escape. */
    var attrs: Attributes
    /** The current message's verbosity and category. */
    var tag: Tag
    /** The verbosity threshold and the category mask. */
    var filter: Filter
    /** The echo settings. */
    var echo: EchoConfig
    /** The signals fired, echoes and warnings printed so far. */
    var log: seq<Event>

    /** The whole state of the channel as a value. */
    function Snapshot(): ChannelState
      reads this
    {
      ChannelState(msg, fmt, attrs, tag, filter, echo, log)
    }

    /** The filter and echo settings are not set by the constructor of the
        source; here they are parameters. */
    constructor (conv: Converters, filter: Filter, echo: EchoConfig)
      ensures this.conv == conv
      ensures Snapshot() == Initial(filter, echo)
    {
      this.conv := conv;
      msg := "";
      fmt := DefaultFormatting;
      attrs := Attributes(AttrNone, AttrNone, AttrNone, false, "");
      tag := DefaultTag;
      this.filter := filter;
      this.echo := echo;
      log := [];
    }

    /** `can_parse`. */
    predicate CanParse()
      reads this
      ensures CanParse() == Channel.CanParse(Snapshot())
    {
      tag.vrb.Rank() <= filter.processV.Rank() && filter.processC & tag.cat.Mask() != 0
    }

    /** `apply_attributes`: build the escape piece by piece into `format`. */
    method ApplyAttributes() returns (r: bool)
      modifies this
      ensures (r, Snapshot()) == Channel.ApplyAttributes(old(Snapshot()), conv.itos)
    {
      r := false;
      if attrs.dirty {
        var format := [SgrCodes.ESC, '['];
        format := format + conv.itos(attrs.ta);
        ghost var params := conv.itos(attrs.ta);
        if attrs.bg > 0 {
          format := format + ";";
          format := format + conv.itos(attrs.bg);
          params := params + ";" + conv.itos(attrs.bg);
        }
        assert format == [SgrCodes.ESC, '['] + params;
        if attrs.fg > 0 {
          format := format + ";";
          format := format + conv.itos(attrs.fg);
          params := params + ";" + conv.itos(attrs.fg);
        }
        assert params == SgrCodes.SgrBody(attrs.ta, attrs.bg, attrs.fg, conv.itos);
        assert format == [SgrCodes.ESC, '['] + params;
        format := format + "m";
        assert format == SgrCodes.Sgr(attrs.ta, attrs.bg, attrs.fg, conv.itos);
        attrs := attrs.(format := format, dirty := false);
        r := true;
      }
    }

    method ClearMsg()
      modifies this
      ensures Snapshot() == old(Snapshot()).(msg := "")
    {
      msg := "";
    }

    /** `configure_echo`. */
    method ConfigureEcho(mode: EchoMode, echoVrb: Verbosity, echoCat: Category)
      modifies this
      ensures Snapshot() == Channel.ConfigureEcho(old(Snapshot()), mode, echoVrb, echoCat)
    {
      echo := EchoConfig(mode, echoVrb, echoCat);
    }

    /** `inject(char)`. */
    method InjectChar(ch: char)
      modifies this
      ensures Snapshot() == Channel.InjectChar(old(Snapshot()), ch, conv.itos)
    {
      var applied := ApplyAttributes();
      if applied {
        msg := msg + CPrefix(attrs.format);
      }
      msg := msg + [ch];
    }

    /** `inject(const char*)`. */
    method InjectText(str: string)
      modifies this
      ensures Snapshot() == Channel.InjectText(old(Snapshot()), str, conv.itos)
    {
      var applied := ApplyAttributes();
      if applied {
        msg := msg + CPrefix(attrs.format);
      }
      msg := msg + CPrefix(str);
    }

    /** `inject(const void*, len, dump)`. */
    method InjectPointer(addr: nat, len: nat, dump: bool)
      modifies this
      ensures Snapshot() == Channel.InjectPointer(old(Snapshot()), addr, len, dump, conv)
    {
      if !dump {
        InjectText(conv.ptrtos(addr, fmt.numcase));
      } else {
        var memsize := MemDump.DumpBufferSize(len, fmt.memformat);
        InjectText(conv.memdump(addr, len, fmt.memformat, memsize));
      }
    }

    /** The overloads for `bool`, the integers, `float` and `double`. */
    method WriteScalar(x: Scalar)
      modifies this
      ensures Snapshot() == Channel.WriteScalar(old(Snapshot()), x, conv)
      decreases if x.FloatVal? then 1 else 0
    {
      if !CanParse() {
        return;
      }
      match x
      case BoolVal(b) =>
        InjectText(if b then "TRUE" else "FALSE");
      case IntVal(w, n) =>
        InjectText(conv.itoa(w, n, fmt.base, fmt.numcase));
      case FloatVal(f) =>
        WriteScalar(DoubleVal(f));
      case DoubleVal(d) =>
        InjectText(conv.dtos(d, fmt.precision, fmt.sci));
    }

    /** The value overloads of `operator<<`. */
    method Write(v: Value)
      modifies this
      ensures Snapshot() == Channel.Write(old(Snapshot()), v, conv)
    {
      if !CanParse() {
        return;
      }
      match v
      case ScalarVal(x) =>
        WriteScalar(x);
      case CharVal(c) =>
        match fmt.charval {
          case CharChar =>
            InjectChar(c);
          case CharInt =>
            InjectText(conv.itoa(IntW, c as int, fmt.base, fmt.numcase));
        }
      case CString(str, addr) =>
        match fmt.ptr {
          case PtrValue =>
            InjectText(str);
          case PtrAddress =>
            InjectPointer(addr, 1, false);
          case PtrMemory =>
            InjectPointer(addr, |CPrefix(str)| + 1, true);
        }
      case StdString(str) =>
        InjectText(str);
      case TypedPointer(addr, target) =>
        match fmt.ptr {
          case PtrValue =>
            WriteScalar(target);
          case PtrAddress =>
            InjectPointer(addr, SizeOf(target), false);
          case PtrMemory =>
            InjectPointer(addr, SizeOf(target), true);
        }
      case VoidPointer(addr) =>
        match fmt.ptr {
          case PtrValue =>
            InjectText(VoidValueText);
          case PtrAddress =>
            InjectPointer(addr, 1, false);
          case PtrMemory =>
            InjectPointer(addr, fmt.readsize, true);
        }
    }

    /** `operator<<(IOFormatBase)`. */
    method PutBase(b: Base)
      modifies this
      ensures Snapshot() == Channel.PutModifier(old(Snapshot()), SetBase(b))
    {
      if !CanParse() {
        return;
      }
      fmt := fmt.(base := b);
    }

    /** `operator<<(IOFormatCharValue)`. */
    method PutCharValue(cv: CharValue)
      modifies this
      ensures Snapshot() == Channel.PutModifier(old(Snapshot()), SetCharValue(cv))
    {
      if !CanParse() {
        return;
      }
      fmt := fmt.(charval := cv);
    }

    /** `operator<<(set_precision)`. */
    method PutPrecision(p: nat)
      modifies this
      ensures Snapshot() == Channel.PutModifier(old(Snapshot()), SetPrecision(p))
    {
      if !CanParse() {
        return;
      }
      fmt := fmt.(precision := p);
    }

    /** `operator<<(IOFormatSciNotation)`. */
    method PutSci(sc: SciMode)
      modifies this
      ensures Snapshot() == Channel.PutModifier(old(Snapshot()), SetSci(sc))
    {
      if !CanParse() {
        return;
      }
      fmt := fmt.(sci := sc);
    }

    /** `operator<<(IOFormatNumeralCase)`. */
    method PutNumCase(nc: NumCase)
      modifies this
      ensures Snapshot() == Channel.PutModifier(old(Snapshot()), SetNumCase(nc))
    {
      if !CanParse() {
        return;
      }
      fmt := fmt.(numcase := nc);
    }

    /** `operator<<(IOFormatPointer)`. */
    method PutPointer(p: PtrMode)
      modifies this
      ensures Snapshot() == Channel.PutModifier(old(Snapshot()), SetPointer(p))
    {
      if !CanParse() {
        return;
      }
      fmt := fmt.(ptr := p);
    }

    /** `operator<<(IOFormatMemorySeparators)`: 0 clears the mask, any other value adds its bits. */
    method PutMemSeparators(sep: bv8)
      modifies this
      ensures Snapshot() == Channel.PutModifier(old(Snapshot()), SetMemSeparators(sep))
    {
      if !CanParse() {
        return;
      }
      if sep == 0 {
        fmt := fmt.(memformat := 0);
      } else {
        fmt := fmt.(memformat := fmt.memformat | sep);
      }
    }

    /** `operator<<(IOFormatTextBG)`. */
    method PutBG(b: nat)
      modifies this
      ensures Snapshot() == Channel.PutModifier(old(Snapshot()), SetBG(b))
    {
      if !CanParse() {
        return;
      }
      attrs := attrs.(bg := b, dirty := true);
    }

    /** `operator<<(IOFormatTextFG)`. */
    method PutFG(f: nat)
      modifies this
      ensures Snapshot() == Channel.PutModifier(old(Snapshot()), SetFG(f))
    {
      if !CanParse() {
        return;
      }
      attrs := attrs.(fg := f, dirty := true);
    }

    /** `operator<<(IOFormatTextAttributes)`. */
    method PutAttributes(t: nat)
      modifies this
      ensures Snapshot() == Channel.PutModifier(old(Snapshot()), SetAttributes(t))
    {
      if !CanParse() {
        return;
      }
      attrs := attrs.(ta := t, dirty := true);
    }

    /** `operator<<(read_size)`. */
    method PutReadSize(r: nat)
      modifies this
      ensures Snapshot() == Channel.PutModifier(old(Snapshot()), SetReadSize(r))
    {
      if !CanParse() {
        return;
      }
      fmt := fmt.(readsize := r);
    }

    /** `operator<<(IOFormatVerbosity)`: not filtered. */
    method PutVerbosity(v: Verbosity)
      modifies this
      ensures Snapshot() == Channel.PutModifier(old(Snapshot()), SetVerbosity(v))
    {
      tag := tag.(vrb := v);
    }

    /** `operator<<(IOFormatCategory)`: not filtered. */
    method PutCategory(c: Category)
      modifies this
      ensures Snapshot() == Channel.PutModifier(old(Snapshot()), SetCategory(c))
    {
      tag := tag.(cat := c);
    }

    /** `operator<<(IOSpecial)`. */
    method PutSpecial(sp: Special)
      modifies this
      ensures Snapshot() == Channel.PutSpecial(old(Snapshot()), sp, conv.itos)
    {
      match sp
      case IoEnd =>
        ResetAttributes();
        InjectText(if CanParse() then "\n" else "");
        Transmit(false);
      case IoEndKeep =>
        InjectText(if CanParse() then "\n" else "");
        Transmit(true);
      case IoSend =>
        ResetAttributes();
        InjectText("");
        Transmit(true);
      case IoSendKeep =>
        InjectText("");
        Transmit(true);
      case IoEndline =>
        ResetAttributes();
        InjectText(if CanParse() then "\n" else "");
      case IoEndlineKeep =>
        InjectText(if CanParse() then "\n" else "");
    }

    /** `shutup(cat)`. */
    method ShutupCategory(c: Category)
      modifies this
      ensures Snapshot() == Channel.ShutupCategory(old(Snapshot()), c)
    {
      var mask := Without(filter.processC, c);
      filter := filter.(processC := mask);
      if mask == 0 {
        log := log + [AllCategoriesOffWarning];
      }
    }

    /** `shutup(vrb)`. */
    method ShutupVerbosity(v: Verbosity)
      modifies this
      ensures Snapshot() == Channel.ShutupVerbosity(old(Snapshot()), v)
    {
      filter := filter.(processV := v);
    }

    /** `speakup()`. */
    method Speakup()
      modifies this
      ensures Snapshot() == Channel.Speakup(old(Snapshot()))
    {
      filter := Filter(VrbTmi, CatAll.Mask());
    }

    /** `speakup(cat)`. */
    method SpeakupCategory(c: Category)
      modifies this
      ensures Snapshot() == Channel.SpeakupCategory(old(Snapshot()), c)
    {
      filter := filter.(processC := filter.processC | c.Mask());
    }

    /** `reset_attributes`. */
    method ResetAttributes()
      modifies this
      ensures Snapshot() == Channel.ResetAttributes(old(Snapshot()))
    {
      if attrs.ta > 0 || attrs.fg > 0 || attrs.bg > 0 {
        attrs := attrs.(ta := AttrNone, fg := AttrNone, bg := AttrNone, dirty := true);
      }
    }

    /** `reset_flags`. */
    method ResetFlags()
      modifies this
      ensures Snapshot() == Channel.ResetFlags(old(Snapshot()))
    {
      ResetAttributes();
      fmt := DefaultFormatting;
      tag := DefaultTag;
    }

    /** The switch on the message's verbosity in `transmit`: control
        enters at the case of the message's verbosity and falls through
        every case below it, firing each level's signal. */
    method FireVerbositySignals()
      modifies this`log
      ensures log == old(log) + LevelSignals(Levels, msg, tag.vrb, tag.cat)
    {
      var entered := tag.vrb == VrbQuiet;
      if entered {
        log := log + [VerbositySignal(VrbQuiet, msg, tag.cat)];
      }
      entered := entered || tag.vrb == VrbNormal;
      if entered {
        log := log + [VerbositySignal(VrbNormal, msg, tag.cat)];
      }
      entered := entered || tag.vrb == VrbChatty;
      if entered {
        log := log + [VerbositySignal(VrbChatty, msg, tag.cat)];
      }
      entered := entered || tag.vrb == VrbTmi;
      if entered {
        log := log + [VerbositySignal(VrbTmi, msg, tag.cat)];
      }
      LevelSignalsUnrolled(msg, tag.vrb, tag.cat);
    }

    /** The switch on the message's category in `transmit`. */
    method FireCategorySignal()
      modifies this`log
      ensures log == old(log) + CategorySignals(msg, tag.cat, tag.vrb)
    {
      match tag.cat {
        case CatNormal =>
          log := log + [CategorySignal(CatNormal, msg, tag.vrb)];
        case CatDebug =>
          log := log + [CategorySignal(CatDebug, msg, tag.vrb)];
        case CatWarning =>
          log := log + [CategorySignal(CatWarning, msg, tag.vrb)];
        case CatError =>
          log := log + [CategorySignal(CatError, msg, tag.vrb)];
        case CatAll =>
          // cat_all has no signal of its own
      }
    }

    /** The echo at the end of `transmit`. */
    method EchoMessage()
      modifies this`log
      ensures log == old(log) + (if Echoes(Snapshot()) then [Echo(echo.mode, CPrefix(msg))] else [])
    {
      if echo.mode != EchoNone {
        if tag.vrb.Rank() <= echo.vrb.Rank() && (tag.cat == echo.cat || echo.cat == CatAll) {
          match echo.mode {
            case EchoPrintf =>
              log := log + [Echo(EchoPrintf, CPrefix(msg))];
            case EchoCout =>
              log := log + [Echo(EchoCout, CPrefix(msg))];
            case EchoNone =>
              // excluded by the test above
          }
        }
      }
    }

    /** `transmit(keep)`. */
    method Transmit(keep: bool)
      modifies this
      ensures Snapshot() == Channel.Transmit(old(Snapshot()), keep)
    {
      if msg != "" {
        ghost var s0 := Snapshot();
        FireVerbositySignals();
        FireCategorySignal();
        log := log + [AllSignal(msg, tag.vrb, tag.cat)];
        EchoMessage();
        assert Snapshot() == s0.(log := s0.log + Dispatch(s0));
        if !keep {
          ResetFlags();
        }
        ClearMsg();
      }
    }
  }
}
