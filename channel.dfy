/** The state of an `iochannel` as a value, and each of its operations as a
    function from the state before to the state after. The class in module
    IOChannels performs the same operations in place and is proved to agree
    with these functions; the properties of the channel are lemmas about
    them (module ChannelProperties). */
module Channel {
  import opened IOFormat
  import SgrCodes
  import MemDump

  /** A primitive value the channel can render. */
  datatype Scalar =
    | BoolVal(b: bool)
    | IntVal(width: IntWidth, n: int)
    | FloatVal(x: real)
    | DoubleVal(x: real)

  /** What `sizeof` gives for each pointee type (LP64: `int` and `float` 4
      bytes, `long` and `double` 8). */
  function SizeOf(x: Scalar): nat {
    match x
    case BoolVal(_) => 1
    case IntVal(w, _) => if w == IntW || w == UIntW then 4 else 8
    case FloatVal(_) => 4
    case DoubleVal(_) => 8
  }

  /** The input kinds of the value overloads of `operator<<`. Pointers carry
      an abstract address; a typed pointer also carries its pointee. */
  datatype Value =
    | ScalarVal(x: Scalar)
    | CharVal(c: char)
    | CString(str: string, addr: nat)
    | StdString(str: string)
    | TypedPointer(addr: nat, target: Scalar)
    | VoidPointer(addr: nat)

  /** The format-modifier tokens. */
  datatype Modifier =
    | SetBase(base: Base)
    | SetCharValue(charval: CharValue)
    | SetPrecision(precision: nat)
    | SetSci(sci: SciMode)
    | SetNumCase(numcase: NumCase)
    | SetPointer(ptr: PtrMode)
    | SetMemSeparators(sep: bv8)
    | SetBG(bg: nat)
    | SetFG(fg: nat)
    | SetAttributes(ta: nat)
    | SetReadSize(readsize: nat)
    | SetVerbosity(vrb: Verbosity)
    | SetCategory(cat: Category)
  {
    /** The colour and text-attribute tokens. */
    predicate IsAttribute() {
      SetBG? || SetFG? || SetAttributes?
    }
    /** The tokens that are applied whatever the filter says. */
    predicate IsUngated() {
      SetVerbosity? || SetCategory?
    }
  }

  /** The six flush markers (`IOSpecial`). */
  datatype Special = IoEnd | IoEndKeep | IoSend | IoSendKeep | IoEndline | IoEndlineKeep

  /** What the channel does outside itself: the signals it fires, the echo
      to the process output and the warning `shutup` prints. The signals
      receive the whole message; the echo prints it as a C string, so its
      text stops at the first NUL. */
  datatype Event =
    | VerbositySignal(level: Verbosity, msg: string, cat: Category)
    | CategorySignal(category: Category, msg: string, vrb: Verbosity)
    | AllSignal(msg: string, vrb: Verbosity, cat: Category)
    | Echo(mode: EchoMode, msg: string)
    | AllCategoriesOffWarning

  /** The formatting fields: numeric base, numeral case, scientific
      notation, precision, how `char` is shown, how pointers are shown, the
      read size for untyped memory and the memory-dump separators. */
  datatype Formatting = Formatting(
    base: Base, numcase: NumCase, sci: SciMode, precision: nat,
    charval: CharValue, ptr: PtrMode, readsize: nat, memformat: bv8)

  /** The formatting `reset_flags` restores, which is also the initial one. */
  const DefaultFormatting: Formatting :=
    Formatting(BaseDec, NumLower, SciAuto, DefaultPrecision, CharChar, PtrValue, 1, 0)

  /** The terminal attributes (text attribute, foreground, background), the
      flag saying they changed since the last escape, and that escape. */
  datatype Attributes = Attributes(ta: nat, fg: nat, bg: nat, dirty: bool, format: string)

  /** The verbosity and category of the message being built. */
  datatype Tag = Tag(vrb: Verbosity, cat: Category)

  const DefaultTag: Tag := Tag(VrbNormal, CatNormal)

  /** The filter: the verbosity threshold and the mask of enabled
      categories. */
  datatype Filter = Filter(processV: Verbosity, processC: bv8)

  /** Where and for which messages finished messages are echoed. */
  datatype EchoConfig = EchoConfig(mode: EchoMode, vrb: Verbosity, cat: Category)

  /** Every field of the channel, grouped by concern, and the log of events
      so far. */
  datatype ChannelState = ChannelState(
    msg: string, fmt: Formatting, attrs: Attributes, tag: Tag,
    filter: Filter, echo: EchoConfig, log: seq<Event>)

  /** The channel right after construction: no attributes, nothing pending,
      the default formatting and tag, and the filter and echo settings
      given. */
  function Initial(filter: Filter, echo: EchoConfig): ChannelState
  {
    ChannelState("", DefaultFormatting, Attributes(AttrNone, AttrNone, AttrNone, false, ""),
                 DefaultTag, filter, echo, [])
  }

  /** The single categories a category mask lets through. */
  function Enabled(mask: bv8): set<Category> {
    set c | c in SingleCategories && mask & c.Mask() != 0
  }

  /** `can_parse`: the message's verbosity is within the threshold and its
      category shares a bit with the category mask. */
  predicate CanParse(s: ChannelState) {
    s.tag.vrb.Rank() <= s.filter.processV.Rank() && s.filter.processC & s.tag.cat.Mask() != 0
  }

  /** `apply_attributes`: when the attributes are dirty, build the escape
      into `format`, lower the flag and answer true; otherwise answer false. */
  function ApplyAttributes(s: ChannelState, itos: int -> string): (bool, ChannelState) {
    if s.attrs.dirty then
      (true, s.(attrs := s.attrs.(format := SgrCodes.Sgr(s.attrs.ta, s.attrs.bg, s.attrs.fg, itos), dirty := false)))
    else
      (false, s)
  }

  /** `inject(const char*)`: emit a pending escape, then append the text up
      to its first NUL. */
  function InjectText(s: ChannelState, text: string, itos: int -> string): ChannelState {
    var (applied, s1) := ApplyAttributes(s, itos);
    s1.(msg := s1.msg + (if applied then CPrefix(s1.attrs.format) else "") + CPrefix(text))
  }

  /** `inject(char)`: emit a pending escape, then append the character. */
  function InjectChar(s: ChannelState, c: char, itos: int -> string): ChannelState {
    var (applied, s1) := ApplyAttributes(s, itos);
    s1.(msg := s1.msg + (if applied then CPrefix(s1.attrs.format) else "") + [c])
  }

  /** `inject(const void*, len, dump)`: the address, or a dump of `len`
      bytes into a buffer sized for it. */
  function InjectPointer(s: ChannelState, addr: nat, len: nat, dump: bool, conv: Converters): ChannelState {
    if !dump then InjectText(s, conv.ptrtos(addr, s.fmt.numcase), conv.itos)
    else InjectText(s, conv.memdump(addr, len, s.fmt.memformat, MemDump.DumpSize(len, s.fmt.memformat)), conv.itos)
  }

  /** The value overloads for `bool`, the integers, `float` and `double`. */
  function WriteScalar(s: ChannelState, x: Scalar, conv: Converters): ChannelState
    decreases if x.FloatVal? then 1 else 0
  {
    if !CanParse(s) then s
    else
      match x
      case BoolVal(b) => InjectText(s, if b then "TRUE" else "FALSE", conv.itos)
      case IntVal(w, n) => InjectText(s, conv.itoa(w, n, s.fmt.base, s.fmt.numcase), conv.itos)
      case FloatVal(f) => WriteScalar(s, DoubleVal(f), conv)
      case DoubleVal(d) => InjectText(s, conv.dtos(d, s.fmt.precision, s.fmt.sci), conv.itos)
  }

  /** The text `operator<<(const void*)` writes when asked for the value. */
  const VoidValueText: string := "[iochannel cannot interpret value at pointer of this type.]"

  /** Every value overload of `operator<<`. */
  function Write(s: ChannelState, v: Value, conv: Converters): ChannelState {
    if !CanParse(s) then s
    else
      match v
      case ScalarVal(x) => WriteScalar(s, x, conv)
      case CharVal(c) =>
        (match s.fmt.charval
         case CharChar => InjectChar(s, c, conv.itos)
         case CharInt => InjectText(s, conv.itoa(IntW, c as int, s.fmt.base, s.fmt.numcase), conv.itos))
      case CString(str, addr) =>
        (match s.fmt.ptr
         case PtrValue => InjectText(s, str, conv.itos)
         case PtrAddress => InjectPointer(s, addr, 1, false, conv)
         case PtrMemory => InjectPointer(s, addr, |CPrefix(str)| + 1, true, conv))
      case StdString(str) => InjectText(s, str, conv.itos)
      case TypedPointer(addr, target) =>
        (match s.fmt.ptr
         case PtrValue => WriteScalar(s, target, conv)
         case PtrAddress => InjectPointer(s, addr, SizeOf(target), false, conv)
         case PtrMemory => InjectPointer(s, addr, SizeOf(target), true, conv))
      case VoidPointer(addr) =>
        (match s.fmt.ptr
         case PtrValue => InjectText(s, VoidValueText, conv.itos)
         case PtrAddress => InjectPointer(s, addr, 1, false, conv)
         case PtrMemory => InjectPointer(s, addr, s.fmt.readsize, true, conv))
  }

  /** The modifier overloads of `operator<<`. Verbosity and category are set
      whatever the filter says; every other token is ignored when the filter
      rejects the message. */
  function PutModifier(s: ChannelState, m: Modifier): ChannelState {
    match m
    case SetVerbosity(v) => s.(tag := s.tag.(vrb := v))
    case SetCategory(c) => s.(tag := s.tag.(cat := c))
    case SetBase(b) => if !CanParse(s) then s else s.(fmt := s.fmt.(base := b))
    case SetCharValue(cv) => if !CanParse(s) then s else s.(fmt := s.fmt.(charval := cv))
    case SetPrecision(p) => if !CanParse(s) then s else s.(fmt := s.fmt.(precision := p))
    case SetSci(sc) => if !CanParse(s) then s else s.(fmt := s.fmt.(sci := sc))
    case SetNumCase(nc) => if !CanParse(s) then s else s.(fmt := s.fmt.(numcase := nc))
    case SetPointer(p) => if !CanParse(s) then s else s.(fmt := s.fmt.(ptr := p))
    case SetMemSeparators(sep) =>
      if !CanParse(s) then s
      else s.(fmt := s.fmt.(memformat := if sep == 0 then 0 else s.fmt.memformat | sep))
    case SetBG(b) => if !CanParse(s) then s else s.(attrs := s.attrs.(bg := b, dirty := true))
    case SetFG(f) => if !CanParse(s) then s else s.(attrs := s.attrs.(fg := f, dirty := true))
    case SetAttributes(t) => if !CanParse(s) then s else s.(attrs := s.attrs.(ta := t, dirty := true))
    case SetReadSize(r) => if !CanParse(s) then s else s.(fmt := s.fmt.(readsize := r))
  }

  /** Several modifiers in a row. */
  function PutModifiers(s: ChannelState, ms: seq<Modifier>): ChannelState
    decreases |ms|
  {
    if ms == [] then s else PutModifiers(PutModifier(s, ms[0]), ms[1..])
  }

  /** `reset_attributes`: when any attribute is set, clear all three and
      raise the dirty flag so that the reset escape is emitted next. */
  function ResetAttributes(s: ChannelState): ChannelState {
    if s.attrs.ta > 0 || s.attrs.fg > 0 || s.attrs.bg > 0 then
      s.(attrs := s.attrs.(ta := AttrNone, fg := AttrNone, bg := AttrNone, dirty := true))
    else s
  }

  /** `reset_flags`: reset the attributes, then every transient formatting
      field and the message's verbosity and category. */
  function ResetFlags(s: ChannelState): ChannelState {
    ResetAttributes(s).(fmt := DefaultFormatting, tag := DefaultTag)
  }

  /** The verbosity levels, lowest first. */
  const Levels: seq<Verbosity> := [VrbQuiet, VrbNormal, VrbChatty, VrbTmi]

  /** One verbosity signal for each of `levels` at or above the message's
      verbosity, in order. */
  function LevelSignals(levels: seq<Verbosity>, msg: string, vrb: Verbosity, cat: Category): seq<Event>
  {
    if levels == [] then []
    else
      (if vrb.Rank() <= levels[0].Rank() then [VerbositySignal(levels[0], msg, cat)] else [])
      + LevelSignals(levels[1..], msg, vrb, cat)
  }

  /** The four levels one after the other, as the source's switch visits
      them. */
  lemma LevelSignalsUnrolled(msg: string, vrb: Verbosity, cat: Category)
    ensures LevelSignals(Levels, msg, vrb, cat)
            == (if vrb.Rank() <= 0 then [VerbositySignal(VrbQuiet, msg, cat)] else [])
               + (if vrb.Rank() <= 1 then [VerbositySignal(VrbNormal, msg, cat)] else [])
               + (if vrb.Rank() <= 2 then [VerbositySignal(VrbChatty, msg, cat)] else [])
               + (if vrb.Rank() <= 3 then [VerbositySignal(VrbTmi, msg, cat)] else [])
  {
    var l1, l2, l3 := [VrbNormal, VrbChatty, VrbTmi], [VrbChatty, VrbTmi], [VrbTmi];
    assert Levels[1..] == l1 && l1[1..] == l2 && l2[1..] == l3 && l3[1..] == [];
    assert LevelSignals(l3, msg, vrb, cat)
           == (if vrb.Rank() <= 3 then [VerbositySignal(VrbTmi, msg, cat)] else []);
    assert LevelSignals(l2, msg, vrb, cat)
           == (if vrb.Rank() <= 2 then [VerbositySignal(VrbChatty, msg, cat)] else [])
              + LevelSignals(l3, msg, vrb, cat);
    assert LevelSignals(l1, msg, vrb, cat)
           == (if vrb.Rank() <= 1 then [VerbositySignal(VrbNormal, msg, cat)] else [])
              + LevelSignals(l2, msg, vrb, cat);
  }

  /** The signal of the message's own category; `cat_all` has none. */
  function CategorySignals(msg: string, cat: Category, vrb: Verbosity): seq<Event> {
    if cat == CatAll then [] else [CategorySignal(cat, msg, vrb)]
  }

  /** Whether the finished message is echoed to the process output. */
  predicate Echoes(s: ChannelState) {
    s.echo.mode != EchoNone && s.tag.vrb.Rank() <= s.echo.vrb.Rank()
    && (s.tag.cat == s.echo.cat || s.echo.cat == CatAll)
  }

  /** Everything `transmit` emits for a non-empty message, in order. */
  function Dispatch(s: ChannelState): seq<Event> {
    LevelSignals(Levels, s.msg, s.tag.vrb, s.tag.cat)
    + CategorySignals(s.msg, s.tag.cat, s.tag.vrb)
    + [AllSignal(s.msg, s.tag.vrb, s.tag.cat)]
    + (if Echoes(s) then [Echo(s.echo.mode, CPrefix(s.msg))] else [])
  }

  /** `transmit(keep)`: nothing for an empty message; otherwise dispatch,
      reset the flags unless `keep`, and clear the message. */
  function Transmit(s: ChannelState, keep: bool): ChannelState {
    if s.msg == "" then s
    else
      var s1 := s.(log := s.log + Dispatch(s));
      var s2 := if keep then s1 else ResetFlags(s1);
      s2.(msg := "")
  }

  /** The markers that reset the attributes first. */
  predicate ResetsAttributes(sp: Special) {
    sp == IoEnd || sp == IoSend || sp == IoEndline
  }

  /** The markers that end the line (when the filter accepts the message). */
  predicate EndsLine(sp: Special) {
    !(sp == IoSend || sp == IoSendKeep)
  }

  /** The markers that transmit the message. */
  predicate Transmits(sp: Special) {
    sp == IoEnd || sp == IoEndKeep || sp == IoSend || sp == IoSendKeep
  }

  /** The markers that keep the formatting flags after transmitting. */
  predicate KeepsFlags(sp: Special) {
    sp != IoEnd
  }

  /** `operator<<(IOSpecial)`: reset the attributes if the marker says so,
      inject a newline (or, to flush a pending escape, nothing), and
      transmit if the marker says so. */
  function PutSpecial(s: ChannelState, sp: Special, itos: int -> string): ChannelState {
    var s1 := if ResetsAttributes(sp) then ResetAttributes(s) else s;
    var s2 := InjectText(s1, if EndsLine(sp) && CanParse(s1) then "\n" else "", itos);
    if Transmits(sp) then Transmit(s2, KeepsFlags(sp)) else s2
  }

  /** The category mask with the bits of `c` cleared. */
  function Without(mask: bv8, c: Category): bv8 {
    mask & !c.Mask()
  }

  /** `shutup(cat)`: clear the category's bits, warning when none is left. */
  function ShutupCategory(s: ChannelState, c: Category): ChannelState {
    var mask := Without(s.filter.processC, c);
    s.(filter := s.filter.(processC := mask),
       log := if mask == 0 then s.log + [AllCategoriesOffWarning] else s.log)
  }

  /** `shutup(vrb)`: lower the verbosity threshold. */
  function ShutupVerbosity(s: ChannelState, v: Verbosity): ChannelState {
    s.(filter := s.filter.(processV := v))
  }

  /** `speakup()`: accept every verbosity and category. */
  function Speakup(s: ChannelState): ChannelState {
    s.(filter := Filter(VrbTmi, CatAll.Mask()))
  }

  /** `speakup(cat)`: let the category through again. */
  function SpeakupCategory(s: ChannelState, c: Category): ChannelState {
    s.(filter := s.filter.(processC := s.filter.processC | c.Mask()))
  }

  /** `configure_echo`. */
  function ConfigureEcho(s: ChannelState, mode: EchoMode, v: Verbosity, c: Category): ChannelState {
    s.(echo := EchoConfig(mode, v, c))
  }
}
