# pawlib iochannel and OneChar, modelled in Dafny

This project models two parts of PawLIB.

The first is `iochannel`, a formatted-output channel. A program builds a message with `operator<<`. Value overloads render booleans, integers, floating-point numbers, characters, strings and pointers into the message buffer. Modifier tokens change the numeric base, the numeral case, the pointer mode, the memory-dump separators, the colours and the text attribute. Verbosity and category tokens tag the message. A filter (`can_parse`) drops messages whose verbosity or category is shut up.

Colours are applied lazily: a modifier only raises a dirty flag. The next injected text is preceded by one ANSI Select Graphic Rendition escape (section 8.3.117 of ECMA-48). Six flush markers (`IOSpecial`) end the line, reset the attributes and transmit the message. Transmitting fires one verbosity signal per level the message reaches (a fall-through switch), one category signal, the "all" signal and an optional echo. It then resets or keeps the flags and clears the buffer.

The second part is `OneChar`, the character unit of OneString. It is tagged ASCII or Unicode at construction. `AscChar` holds one byte and `UniChar` holds up to four bytes and a NUL in a five-byte buffer.

Structure:

- `io_format.dfy` (module `IOFormat`): the enumerations, the category bits, and the conversion utilities of `stdutils`, which are opaque function values. It also defines C-string reading.
- `sgr.dfy` (module `SgrCodes`): the escape `apply_attributes` builds, and a proof of its shape.
- `memdump.dfy` (module `MemDump`): the buffer size reserved for a hex dump, both as written and corrected (see Findings).
- `channel.dfy` (module `Channel`): the channel state as a value, with every operation as a function from the state before to the state after.
- `iochannel.dfy` (module `IOChannels`): the class `IOChannel`, whose methods update its fields in place. Each method is proved to agree with the matching function of `Channel`, through `Snapshot()`. The channel's member variables are grouped into records by concern, and the class holds one field per group:
  - the message;
  - the formatting;
  - the attributes and their escape;
  - the message's verbosity and category;
  - the filter;
  - the echo settings;
  - the event log.
- `channel_props.dfy` (module `ChannelProperties`): what the channel promises, as lemmas about those functions.
- `onechar.dfy` (module `OneChars`): the `CharUnit` value view with its equality and order, and the classes `OneChar`, `UniChar` and `AscChar` with their in-place operations.

The signals, the echo (`printf` or `std::cout`) and the warning printed by `shutup` become events appended to a log. The stdutils converters are parameters of the channel (`Converters`). Where a lemma needs to know what `itos` writes, it assumes that `itos` writes digits and minus signs (`ItosWellFormed`). The exception is `RedErrorMessage`, which works one literal message through and assumes instead that `itos(0)` is "0" and `itos(31)` is "31".

## Model

| member | source | states |
|---|---|---|
| IOFormat.CPrefixStopsAtNul | pawlib-source/src/iochannel.cpp:651-665 | A C string read from text whose first NUL is at index i is exactly the i characters before it. |
| IOFormat.CPrefixShape | pawlib-source/src/iochannel.cpp:651-665 | The text `inject(const char*)` appends stops before the first NUL and is a prefix of the argument. Text without a NUL is appended whole. |
| SgrCodes.SgrShape | pawlib-source/src/iochannel.cpp:583-612 | The escape starts with ESC '[' and ends with 'm'. Between them, split at ';', it carries `itos(ta)`, then `itos(bg)` only if bg > 0, then `itos(fg)` only if fg > 0. It contains no other ESC and no NUL. |
| MemDump.LayoutLengthClosed | pawlib-source/src/iochannel.cpp:676-705 | The width reserved for a dump of len >= 1 bytes, summed gap by gap, equals the closed form the `memsize` arithmetic computes. That is 2 chars per byte, plus len-1 spaces under byte spacing, plus one bar per 8-byte boundary under word spacing, with one more char beside each bar under both. The dump text itself comes from the opaque `memdump`. |
| MemDump.BufferSizeAsWritten | pawlib-source/src/iochannel.cpp:676-705 | `memsize` as written, in 32-bit unsigned arithmetic. For 1 <= len with no overflow, it is the layout length plus the terminator. For len == 0 it is 2^32-2 under both separators, 0 under one separator and 1 under none. |
| MemDump.DumpBufferSize | pawlib-source/src/iochannel.cpp:676-705 | The corrected size: the layout length plus one for every len, including 0. |
| Channel.LevelSignalsUnrolled | pawlib-source/src/iochannel.cpp:779-804 | The recursive list of verbosity signals equals the four cases of the fall-through switch, each present exactly when the message's verbosity is at or below that level. |
| IOChannels.IOChannel.constructor | pawlib-source/src/iochannel.cpp:5-12 | After construction: no attributes, not dirty, decimal base, empty message and log. The filter and echo settings are the ones given. |
| IOChannels.IOChannel.CanParse | pawlib-source/src/iochannel.cpp:614-620 | Reads no more than the state. It is the filter predicate of `Channel.CanParse`: verbosity within the threshold and a category bit in the mask. |
| IOChannels.IOChannel.ApplyAttributes | pawlib-source/src/iochannel.cpp:583-612 | Building the escape step by step yields `Sgr(ta, bg, fg)` in `format`, lowers the flag and returns true when dirty. Otherwise it returns false with nothing changed. |
| IOChannels.IOChannel.ClearMsg | pawlib-source/src/iochannel.cpp:622-630 | Only the message changes, and it becomes empty. |
| IOChannels.IOChannel.ConfigureEcho | pawlib-source/src/iochannel.cpp:632-637 | Only the echo settings change, to the three arguments. |
| IOChannels.IOChannel.InjectChar | pawlib-source/src/iochannel.cpp:639-649 | The new state is `Channel.InjectChar` of the old: a pending escape, then the character. |
| IOChannels.IOChannel.InjectText | pawlib-source/src/iochannel.cpp:651-665 | The new state is `Channel.InjectText` of the old: a pending escape, then the text up to its NUL. |
| IOChannels.IOChannel.InjectPointer | pawlib-source/src/iochannel.cpp:667-711 | Injects the address text, or the dump of `len` bytes rendered into a buffer of `DumpBufferSize` chars. |
| IOChannels.IOChannel.WriteScalar | pawlib-source/src/iochannel.cpp:14-22 | The new state is `Channel.WriteScalar` of the old. Filtered values change nothing. A bool is TRUE/FALSE, an integer is `itoa` in the current base and case, a double is `dtos`, and a float re-enters as a double. |
| IOChannels.IOChannel.Write | pawlib-source/src/iochannel.cpp:24-405 | The new state is `Channel.Write` of the old, for every value and pointer overload: the filter gate, the char/int switch, and the value/address/memory pointer switch with its lengths (sizeof, 1, strlen+1, readsize). |
| IOChannels.IOChannel.PutBase | pawlib-source/src/iochannel.cpp:407-414 | When accepted, sets the base; otherwise nothing changes. |
| IOChannels.IOChannel.PutCharValue | pawlib-source/src/iochannel.cpp:416-423 | When accepted, sets the char mode; otherwise nothing changes. |
| IOChannels.IOChannel.PutPrecision | pawlib-source/src/iochannel.cpp:425-432 | When accepted, sets the precision; otherwise nothing changes. |
| IOChannels.IOChannel.PutSci | pawlib-source/src/iochannel.cpp:434-441 | When accepted, sets the scientific-notation mode; otherwise nothing changes. |
| IOChannels.IOChannel.PutNumCase | pawlib-source/src/iochannel.cpp:443-450 | When accepted, sets the numeral case; otherwise nothing changes. |
| IOChannels.IOChannel.PutPointer | pawlib-source/src/iochannel.cpp:452-459 | When accepted, sets the pointer mode; otherwise nothing changes. |
| IOChannels.IOChannel.PutMemSeparators | pawlib-source/src/iochannel.cpp:461-476 | When accepted, 0 clears the layout mask and any other value ORs into it. |
| IOChannels.IOChannel.PutBG | pawlib-source/src/iochannel.cpp:478-488 | When accepted, stores the background and raises the dirty flag. |
| IOChannels.IOChannel.PutFG | pawlib-source/src/iochannel.cpp:490-500 | When accepted, stores the foreground and raises the dirty flag. |
| IOChannels.IOChannel.PutAttributes | pawlib-source/src/iochannel.cpp:502-512 | When accepted, stores the text attribute and raises the dirty flag. |
| IOChannels.IOChannel.PutReadSize | pawlib-source/src/iochannel.cpp:514-522 | When accepted, sets the read size; otherwise nothing changes. |
| IOChannels.IOChannel.PutVerbosity | pawlib-source/src/iochannel.cpp:524-529 | Sets the message's verbosity whatever the filter says. |
| IOChannels.IOChannel.PutCategory | pawlib-source/src/iochannel.cpp:531-536 | Sets the message's category whatever the filter says. |
| IOChannels.IOChannel.PutSpecial | pawlib-source/src/iochannel.cpp:538-581 | The new state is `Channel.PutSpecial` of the old: per marker, an optional attribute reset, a newline only when accepted (an empty inject otherwise), then an optional transmit with or without keep. |
| IOChannels.IOChannel.ShutupCategory | pawlib-source/src/iochannel.cpp:713-720 | Clears the category's bits from the mask and logs the warning exactly when the mask becomes 0. |
| IOChannels.IOChannel.ShutupVerbosity | pawlib-source/src/iochannel.cpp:722-726 | Sets the verbosity threshold; nothing else changes. |
| IOChannels.IOChannel.Speakup | pawlib-source/src/iochannel.cpp:728-732 | The threshold becomes tmi and the mask becomes all categories. |
| IOChannels.IOChannel.SpeakupCategory | pawlib-source/src/iochannel.cpp:734-738 | ORs the category's bits into the mask. |
| IOChannels.IOChannel.ResetAttributes | pawlib-source/src/iochannel.cpp:740-754 | The new state is `Channel.ResetAttributes` of the old. |
| IOChannels.IOChannel.ResetFlags | pawlib-source/src/iochannel.cpp:756-773 | Calls `ResetAttributes`, then restores the default formatting, verbosity and category. |
| IOChannels.IOChannel.FireVerbositySignals | pawlib-source/src/iochannel.cpp:779-804 | The fall-through switch appends exactly `LevelSignals(Levels, msg, vrb, cat)` to the log. |
| IOChannels.IOChannel.FireCategorySignal | pawlib-source/src/iochannel.cpp:806-833 | Appends the one signal of the message's category, or none for `cat_all`. |
| IOChannels.IOChannel.EchoMessage | pawlib-source/src/iochannel.cpp:837-862 | Appends an echo in the configured mode exactly when echoing is on and the verbosity and category match. The echoed text is the message read as a C string, up to its first NUL. |
| IOChannels.IOChannel.Transmit | pawlib-source/src/iochannel.cpp:775-873 | The new state is `Channel.Transmit` of the old: nothing for an empty message; otherwise the dispatch is logged, flags are reset unless `keep`, and the message is cleared. |
| ChannelProperties.CanParseMeaning | pawlib-source/src/iochannel.cpp:614-620 | The filter accepts iff the verbosity is within the threshold and the message's category is among those the mask enables. `cat_all` needs any enabled category. |
| ChannelProperties.FilteredIsNoop | pawlib-source/src/iochannel.cpp:14-522 | When the filter rejects, every value overload and every gated modifier leaves the whole state, message included, unchanged. |
| ChannelProperties.TagTokensUngated | pawlib-source/src/iochannel.cpp:524-536 | Verbosity and category tokens set their field whatever the filter says and change nothing else. |
| ChannelProperties.ModifierAttributes | pawlib-source/src/iochannel.cpp:478-512 | Attribute tokens store their value and raise the flag. Every other token leaves the attributes and the flag alone. No token touches the message, filter, echo or log. |
| ChannelProperties.MemSeparatorRules | pawlib-source/src/iochannel.cpp:461-476 | Token 0 turns both separators off. A non-zero token turns on its separators and keeps those already on. |
| ChannelProperties.MemSeparatorIdempotent | pawlib-source/src/iochannel.cpp:461-476 | Giving the same separator token twice is giving it once. |
| ChannelProperties.GatedRunKeepsTag | pawlib-source/src/iochannel.cpp:407-522 | A run of accepted gated modifiers changes only the formatting and attributes, so the filter keeps accepting. |
| ChannelProperties.AttributeRun | pawlib-source/src/iochannel.cpp:478-512 | A run of attribute tokens changes only the attributes and leaves the flag raised. |
| ChannelProperties.ApplyAttributesEffect | pawlib-source/src/iochannel.cpp:583-612 | Returns whether the attributes were dirty. When dirty, `format` has the SGR shape with parameters ta, bg only if > 0, fg only if > 0, and the flag drops. Otherwise nothing changes. Only `format` and the flag ever change. |
| ChannelProperties.InjectTextEffect | pawlib-source/src/iochannel.cpp:651-665 | The message grows by the escape (only if the flag was up) followed by the text up to its NUL. The flag is down afterwards, and only the message, escape and flag change. |
| ChannelProperties.InjectCharEffect | pawlib-source/src/iochannel.cpp:639-649 | The message grows by the escape (only if the flag was up) and the character, and the flag is down afterwards. Only the message, the escape and the flag change: ta, fg and bg are kept. |
| ChannelProperties.SingleEscape | pawlib-source/src/iochannel.cpp:478-665 | Consecutive attribute tokens produce exactly one escape, for the final attributes, before the next text. |
| ChannelProperties.NoEscapeWhenClean | pawlib-source/src/iochannel.cpp:651-665 | With the flag down, injecting text appends exactly the text. |
| ChannelProperties.ResetAttributesEffect | pawlib-source/src/iochannel.cpp:740-754 | No attribute is left set. The flag is raised if one was set, otherwise nothing changes. It is idempotent and touches nothing outside the attributes. |
| ChannelProperties.ResetFlagsEffect | pawlib-source/src/iochannel.cpp:756-773 | Restores base 10, char_char, precision 14, sci_auto, num_lower, ptr_value, readsize 1, memformat 0, vrb_normal and cat_normal, and resets the attributes. The message, filter, echo and log are untouched. |
| ChannelProperties.LevelSignalsMembers | pawlib-source/src/iochannel.cpp:779-804 | The fall-through fires only verbosity signals, and level L fires exactly when the message's verbosity is at or below L. |
| ChannelProperties.LevelSignalCount | pawlib-source/src/iochannel.cpp:779-804 | A quiet message fires four verbosity signals and a tmi message one (4 minus the rank). |
| ChannelProperties.DispatchVerbositySignals | pawlib-source/src/iochannel.cpp:779-804 | The verbosity signals a transmit fires are exactly those of the fall-through. |
| ChannelProperties.DispatchCategorySignal | pawlib-source/src/iochannel.cpp:806-833 | A transmit fires exactly one category signal, for the message's category, and none for `cat_all`. |
| ChannelProperties.DispatchAllSignal | pawlib-source/src/iochannel.cpp:835 | A transmit fires the "all" signal exactly once. |
| ChannelProperties.DispatchEcho | pawlib-source/src/iochannel.cpp:837-862 | A transmit echoes exactly when `echomode != echo_none`, `vrb <= echovrb` and (`cat == echocat` or `echocat == cat_all`). The echoed text is the message up to its first NUL. It prints no warning. |
| ChannelProperties.EchoStopsAtNul | pawlib-source/src/iochannel.cpp:837-862 | When the message holds a NUL at index i and none before it, the echo prints exactly the i characters before it, while the "all" signal still receives the whole message. |
| ChannelProperties.TransmitEffect | pawlib-source/src/iochannel.cpp:775-873 | An empty message changes nothing. Otherwise the dispatch is logged, the message ends empty, the filter and echo are untouched, and flags reset exactly when `!keep`. |
| ChannelProperties.MarkerInject | pawlib-source/src/iochannel.cpp:538-581 | Before transmitting, a marker leaves the message plus a pending escape plus a newline only if accepted. The flag is down, and attributes are cleared only by io_end, io_send and io_endline. |
| ChannelProperties.SpecialMarkers | pawlib-source/src/iochannel.cpp:538-581 | Only io_end, io_send and io_endline clear the attributes. Only io_end, io_end_keep, io_send and io_send_keep transmit and leave the message empty. Only io_end resets the flags. The filter and echo are untouched. |
| ChannelProperties.FilteredMarkerSilent | pawlib-source/src/iochannel.cpp:538-581 | A filtered, empty message with no pending escape fires no event at any marker. |
| ChannelProperties.FilteredMarkerFlushesEscape | pawlib-source/src/iochannel.cpp:538-581 | A filtered, empty message with a pending escape is transmitted by io_end_keep, and the escape alone is the message. |
| ChannelProperties.ShutupCategoryEffect | pawlib-source/src/iochannel.cpp:713-720 | Disables exactly that category (all, for `cat_all`). It warns exactly when the mask becomes 0 and changes nothing else. |
| ChannelProperties.SpeakupCategoryEffect | pawlib-source/src/iochannel.cpp:734-738 | Enables exactly that category (all, for `cat_all`) on top of those already enabled, and changes nothing else. |
| ChannelProperties.SpeakupAcceptsAll | pawlib-source/src/iochannel.cpp:728-732 | After `speakup()` every verbosity and category is accepted. |
| ChannelProperties.ShutupVerbosityEffect | pawlib-source/src/iochannel.cpp:722-726 | After `shutup(v)`, a message more verbose than v is rejected. Any other message is accepted iff its category is enabled. |
| ChannelProperties.ZeroReadSizeDump | pawlib-source/src/iochannel.cpp:308-337 | An untyped pointer dumped with read size 0 reaches the dump with len 0, which is the input of the Finding below. |
| ChannelProperties.RedErrorMessage | pawlib-source/src/iochannel.cpp:366-873 | `fg(31) << "err" << io_end` on an accepting channel (the literal goes through the `const char*` overload under `ptr_value`) sends ESC"[0;31merr"ESC"[0m\n" to every signal, and the flags return to their defaults. |
| OneChars.LessIsStrictTotalOrder | pawlib-source/include/onechar.hpp:205-208 | `lessOneChar` is irreflexive and transitive. For any two units, exactly one of less, equal and greater holds. |
| OneChars.EqualsIsEquivalence | pawlib-source/include/onechar.hpp:210-218 | `==` on units is reflexive, symmetric and transitive. `== char` holds exactly when the unit holds that one character. |
| OneChars.EqualsCStringMeaning | pawlib-source/include/onechar.hpp:220-225 | The friend `operator==(…, char*)` of UniChar and AscChar (onechar.hpp:283-288 for AscChar) holds exactly when the unit equals the character the C string designates, up to its NUL. For a one-byte C string this is `== char`, and for the empty C string it means the unit is empty. |
| OneChars.OneChar.constructor | pawlib-source/include/onechar.hpp:61-65 | A default OneChar is tagged ASCII. |
| OneChars.OneChar.WithMode | pawlib-source/include/onechar.hpp:70-74 | `OneChar(mode)` is tagged `mode`. The tag is a constant and never changes afterwards. |
| OneChars.TagMatchesKind | pawlib-source/include/onechar.hpp:76-82 | `getId` of a unit reached through its base part is the tag of its kind: UNICODE for UniChar, ASCII for AscChar. |
| OneChars.UniChar.constructor | pawlib-source/include/onechar.hpp:166 | Tagged UNICODE, with a five-byte buffer whose first byte is NUL, so it holds the empty character. |
| OneChars.UniChar.At | pawlib-source/include/onechar.hpp:174-178 | Returns the byte at `pos`. |
| OneChars.UniChar.SetAt | pawlib-source/include/onechar.hpp:180-184 | Writing through the reference changes only the byte at `pos`. |
| OneChars.UniChar.AssignChar | pawlib-source/include/onechar.hpp:186-189 | The buffer holds the char followed by NUL, and the unit equals that char. |
| OneChars.UniChar.AssignBytes | pawlib-source/include/onechar.hpp:191-194 | The buffer holds the C string's bytes (at most four) followed by NUL, and the unit reads back exactly those bytes. |
| OneChars.UniChar.AssignFrom | pawlib-source/include/onechar.hpp:196-199 | Afterwards the unit equals the source unit. |
| OneChars.UniChar.Print | pawlib-source/include/onechar.hpp:200-203 | Writes exactly the unit's bytes to the stream. |
| OneChars.AscChar.constructor | pawlib-source/include/onechar.hpp:235 | Tagged ASCII, holding `'\0'`. |
| OneChars.AscChar.At | pawlib-source/include/onechar.hpp:237-241 | Returns the one byte. |
| OneChars.AscChar.SetAt | pawlib-source/include/onechar.hpp:243-247 | Writing through the reference sets the one byte. |
| OneChars.AscChar.AssignChar | pawlib-source/include/onechar.hpp:249-252 | Stores the char, and the unit equals it. |
| OneChars.AscChar.AssignBytes | pawlib-source/include/onechar.hpp:254-257 | The unit reads back the C string of at most one character. |
| OneChars.AscChar.AssignFrom | pawlib-source/include/onechar.hpp:259-262 | Afterwards the unit equals the source unit. |
| OneChars.AscChar.Print | pawlib-source/include/onechar.hpp:264-266 | Writes exactly the unit's byte (nothing for `'\0'`). |
| OneChars.Less | pawlib-source/include/onechar.hpp:138-141 | `a < b` returns exactly `a.lessOneChar(b)`. |
| OneChars.Put | pawlib-source/include/onechar.hpp:148-152 | The stream `operator<<` prints the unit and returns the same stream. |

## Left out

- The stdutils conversion routines (`itoa` and its width variants, `itos`, `dtos`, `ptrtos`, `memdump`): their bodies are not part of this model. They are opaque function values. The length functions (`intlen` and the others) only size the buffers those routines fill.
- Floating-point values are `real`. Float-to-double promotion is the identity, and rendering is the opaque `dtos`.
- Pointer addresses are abstract naturals, since `reinterpret_cast` has no counterpart. A typed pointer carries its pointee, so `ptr_value` re-enters with the value.
- The `signal_*` callbacks, the `printf`/`std::cout` echo and the `printf` warning of `shutup` are I/O. They are events appended to the log.
- The header iochannel.hpp is not part of this model. The enumeration codes are therefore fixed here: verbosity ranks 0 to 3; category bits 1, 2, 4, 8 with `cat_all` = 15; no attribute = 0; separator bits 1 and 2. The same applies to the initial values the constructor leaves unset. The filter and echo settings are constructor parameters, and the remaining formatting fields start at their `reset_flags` defaults.
- The `recursive` argument of `inject(const char*)` is never passed by iochannel.cpp. With its default, the nested inject of the escape finds the flag already down, which the model folds into one append.
- One Dafny `char` stands for one C byte. Message text and the `char`, `const char*` and `std::string` inputs are taken to hold byte values (0 to 255), so that `|CPrefix(str)| + 1` is `strlen(str) + 1` and one character is one element of the message. Wider characters are outside the model.
- A `char` shown as an integer is its code point. The sign of C `char` for bytes above 127 is not modelled.
- The bodies of the `UniChar` and `AscChar` operations, which the header only declares: onechar.cpp is not part of this model, so each operation is specified by the contract its header comment documents. OneString is not part of this model either. UTF-8 decoding and validation are not modelled.
- OneChars.LessIsStrictTotalOrder: `lessOneChar` is documented only as "less than". The model takes it as lexicographic order on unsigned bytes, which is what a byte-wise comparison of C strings gives.
- OneChars.AscChar.AssignBytes: stated only for C strings of at most one character. The documented 2-4 byte Unicode case cannot fit in one byte, and its behaviour is not documented.
- OneChars.UniChar.AssignBytes: stated only for C strings of at most four bytes, the documented maximum.
- OneChars.UniChar.AssignFrom: states equality of the characters held, not a byte-for-byte copy of the buffer past the terminator.
- OneChars.UniChar.At: requires a position inside the five-byte buffer; out-of-range indexing is undefined in the source.
- OneChars.UniChar.SetAt: likewise requires a position inside the five-byte buffer.
- OneChars.AscChar.At: requires `pos == 0`. The header documents no range for `operator[]`, and an AscChar holds one byte, so no other position designates a stored byte.
- OneChars.AscChar.SetAt: likewise requires `pos == 0`.
- MemDump.DumpBufferSize: unbounded arithmetic. The 32-bit overflow for lengths above 2^30 is shown only for the as-written size.
- The dump layout and the filter test follow iochannel.cpp where the library's documentation differs from it. The documentation describes a bare `|` between words when both separators are on, while the buffer arithmetic reserves a space on each side of the bar. It also tests `mask & (1 << cat)` where the code tests `process_c & cat` on the category's own bit value.
- The `iochannel` destructor does nothing and is left out.

## Findings

| source | as written | input that shows it | evidently intended | confidence | as-written member | corrected member |
|---|---|---|---|---|---|---|
| pawlib-source/src/iochannel.cpp:676-705 | `memsize += len-1` and the `memsize--` adjustments run even for `len == 0`. In `unsigned int`, `0 - 1` wraps: under both separators `memsize` is 2^32-2, and under one separator it is 0, so the array `mem[0]` gets a zero length. | `read_size(0)`, `ptr_memory` and a `void*` value (`inject(ptr, 0, true)`), with any separator on. | A buffer of one character (just the terminator) for an empty dump; the separator adjustments only apply to a non-empty dump. | not executed | MemDump.BufferSizeAsWritten | MemDump.DumpBufferSize |
