# Fiber tester controller — a Dafny model

This project models the `FiberTesterController` of the fiber tester
(`fiber_tester.py`). The controller lets an operator select a fibre colour
(Red, Green or Blue) and a number from 0 to 100. It turns the selection into
a timed sequence of light pulses that encode the colour's initial letter and
the number's digits in Morse code, followed by a confirmation flash. It also
records each completed transmission in a short history.

The model has six modules:

- `Basics` (basics.dfy) holds `Option`, `Result`, Python truthiness of an
  optional string, ASCII upper-casing and `Min`.
- `Morse` (morse.dfy) holds the character table `MorseCode`, the timing
  constants, and the timed `Step`s. It also has the specification functions:
  - `PatternSteps`: the steps of one pattern.
  - `MorsePattern`: what `generate_morse_pattern` returns.
  - `DigitSteps`: the number part of a transmission.
  - `TransmissionSequence`: a whole transmission, or the first character the
    table lacks.
  - `TotalDuration`: the sum of the step durations.
- `Validation` (validation.dfy) holds the two validators. `ValidateNumber`
  reads its argument the way Python's `int()` reads a `str` in base 10:
  - surrounding whitespace is stripped;
  - one optional sign may come first;
  - the digits are ASCII digits, and single underscores may separate them.
- `Transmission` (transmission.dfy) proves the properties of a complete
  transmission:
  - its shape, length and total duration;
  - which validated numbers can actually be encoded;
  - the concrete "Red 5" and "Blue 7" sequences;
  - the steps of a transmission determine the selection that produced them.
- `FiberTester` (controller.dfy) holds the controller itself, as a class.
  - The class has the four fields of the source object.
  - Each operation that changes the controller or runs a loop is a method,
    and the loops of the source are loops. Each method is proved against the
    specification functions above.
  - `get_status` only reads the fields, so it is a function (`GetStatus`).
    The two validators do not use the controller's state, so they are
    module-level functions in `Validation`.
  - `Valid()` is the object invariant that every mutating operation keeps.
- `FiberTesterDemo` (demo.dfy) runs the demonstration script as a verified
  client and states what each of its steps yields.

Glyphs are a datatype (`Short` for '·', `Long` for '−'), so a pattern is a
sequence of glyphs rather than a string.

A failed table lookup raises `KeyError` in the source. Here it is a value:
- `Err(c)` from `CalculateTransmissionSequence`;
- `UnknownSymbol(c)` from `PrepareTransmission`;

where `c` is the first character that has no table entry.

### Behaviour worth knowing

- No end-of-transmission gap is emitted after the confirmation flash.
  `WORD_GAP` (fiber_tester.py:39) is declared but never used.
  `TransmissionShape` proves that no step lasts 1400 ms.
- Validation goes through `int()`, which tolerates more than digits. So
  " 5", "+7", "-0" and "1_0" are valid numbers. They are stored unchanged, and preparing them fails on
  the table lookup. `int()` strips ASCII space, '\t' through '\r' and the
  non-ASCII characters `str.isspace()` accepts, but not U+001C..U+001F, so
  "\x1c5" is refused (`SeparatorNotStripped`). This is proved by `ValidNumberEncodable`,
  `LenientNumbers` and `PaddedNumberFails`. Leading zeros are also kept:
  "007" is transmitted as three digits.
- Nothing ever sets `is_transmitting` to true. So the "already in progress"
  branch of `prepare_transmission` is modelled, but it is unreachable from
  any valid state (`PrepareTransmission`'s last error clause).

## Model

| member | source | states |
|---|---|---|
| Morse.TableEntries | fiber_tester.py:16-30 | The table's keys are exactly R, G, B and the ten digits; every digit has a five-glyph pattern; no pattern is empty |
| Morse.TableIsInjective | fiber_tester.py:16-30 | No two characters share a pattern, so the table is a bijection between its keys and its patterns |
| Morse.PatternSteps | fiber_tester.py:153-183 | A pattern of k glyphs gives 2k − 1 steps (none for the empty pattern) |
| Morse.PatternStepsAt | fiber_tester.py:157-181 | Step i is the glyph i/2 (dot 200 ms, dash 600 ms) when i is even, a 200 ms intra-letter gap when i is odd |
| Morse.PatternStepsGlyphs | fiber_tester.py:157-173 | Every glyph k of the pattern appears, as its timed pulse, at position 2k |
| Morse.PatternStepsGaps | fiber_tester.py:175-181 | Between glyph k and glyph k+1 sits exactly one 200 ms gap, at position 2k + 1 |
| Morse.PatternStepsShape | fiber_tester.py:153-183 | For a non-empty pattern: length 2k − 1, glyphs at even positions, gaps at odd ones, and the last step is not a gap |
| Morse.PatternStepKinds | fiber_tester.py:157-181 | A pattern's steps are only 200 ms dots, 600 ms dashes and 200 ms gaps |
| Morse.PatternStepsInjective | fiber_tester.py:153-183 | Different patterns give different step sequences |
| Morse.MorsePatternAppend | fiber_tester.py:105-111 | The pattern of a concatenation of two texts is the concatenation of their patterns |
| Morse.MorsePatternChar | fiber_tester.py:108-110 | A one-character text gives the table pattern of its upper-cased character, or nothing if the table lacks it |
| Morse.DigitStepsAppend | fiber_tester.py:135-142 | The number part of a concatenation is the concatenation of the parts, or the first failing character |
| Morse.DigitStepsSnoc | fiber_tester.py:135-142 | Adding one character adds its pattern's steps and an inter-letter gap, or fails on that character |
| Morse.FirstUnknownDigit | fiber_tester.py:135-137 | The first character without a table entry is the one the whole number part fails on |
| Morse.DigitStepsOk | fiber_tester.py:135-137 | The number part succeeds exactly when every character of the number has a table entry |
| Morse.TransmissionOfKnown | fiber_tester.py:113-151 | A selection whose initial and digits are all known gives its letter steps, its digit steps and the confirmation step |
| Validation.ValidateColor | fiber_tester.py:48-51 | An accepted colour is non-empty and its upper-cased initial is a key of the table |
| Validation.ColorByInitial | fiber_tester.py:48-51 | Two accepted colours with the same initial are the same colour |
| Validation.ColorExamples | fiber_tester.py:48-51 | "Red", "Green" and "Blue" are accepted; "Invalid", "red" and "" are rejected |
| Validation.PyInt | fiber_tester.py:56 | `int()` of a `str` in base 10: strip whitespace, one optional sign, ASCII digits with single underscores between them, otherwise ValueError (`None`); an empty or blank argument always raises |
| Validation.ValidateNumber | fiber_tester.py:53-59 | Accepts exactly the strings `int()` reads as a value in [0, 100]; an accepted string is never empty |
| Validation.SeparatorNotStripped | fiber_tester.py:55-59 | "\x1c5" is rejected: U+001C passes `str.isspace()` but `int()` does not strip it |
| Validation.TrimLeftRemovesSpaces | fiber_tester.py:56 | Stripping the left removes a prefix made only of whitespace |
| Validation.TrimRightRemovesSpaces | fiber_tester.py:56 | Stripping the right removes a suffix made only of whitespace |
| Validation.StripUnpadded | fiber_tester.py:56 | A string that neither starts nor ends with whitespace is unchanged by stripping |
| Validation.PyIntChars | fiber_tester.py:53-59 | A string `int()` accepts is non-empty and made only of digits, whitespace, signs and underscores |
| Validation.RemoveUnderscoresOfDigits | fiber_tester.py:56 | A string of digits has no underscores to remove |
| Validation.DigitStringValidation | fiber_tester.py:53-59 | For a string of ASCII digits, `int()` gives its decimal value and validation accepts it exactly when that value is at most 100 |
| Validation.LeadingSpaceIgnored | fiber_tester.py:56 | Whitespace in front of the argument does not change what `int()` returns |
| Validation.ParseSigned | fiber_tester.py:56 | After stripping, a sign followed by well-formed digits reads as the signed value |
| Validation.DigitStringWellFormed | fiber_tester.py:56 | A digit string is a well-formed literal with no underscores |
| Validation.SignedUnpadded | fiber_tester.py:56 | A sign followed by digits has nothing to strip |
| Validation.SignedDigits | fiber_tester.py:53-59 | `int()` of "+d" is the value of d, and of "-d" its negation |
| Validation.BoundaryNumbers | fiber_tester.py:57 | "0" and "100" are accepted |
| Validation.DemoNumbers | test_fiber_tester.py:28-32 | "42" is accepted and "150" is rejected |
| Validation.AboveRange | fiber_tester.py:57 | "101" is rejected |
| Validation.NotANumber | fiber_tester.py:55-59 | "1a" and "" are rejected, because `int()` raises ValueError for them |
| Validation.NegativeNumber | fiber_tester.py:57 | "-1" is rejected |
| Validation.LenientNumbers | fiber_tester.py:53-59 | " 5", "+7" and "-0" are accepted, as `int()` reads them as 5, 7 and 0 |
| Validation.UnderscoreNumbers | fiber_tester.py:53-59 | "1_0" is accepted and "1__0" is rejected |
| Transmission.DigitStepsPayload | fiber_tester.py:135-142 | The number part holds only dots, dashes and gaps of 200 or 600 ms |
| Transmission.TransmissionShape | fiber_tester.py:113-151 | A set selection's transmission is non-empty and ends with the one confirmation flash. Every earlier step is a dot, a dash or a 200/600 ms gap, and no step lasts as long as the word gap |
| Transmission.UnsetSelectionIsEmpty | fiber_tester.py:115-116 | The sequence is empty exactly when the colour or the number is unset or empty |
| Transmission.DigitStepsLength | fiber_tester.py:135-142 | The number part has two steps per glyph of its characters |
| Transmission.TransmissionLength | fiber_tester.py:113-151 | A transmission has 2·(colour glyphs) + 2·(digit glyphs) + 1 steps |
| Transmission.GlyphCountOfDigits | fiber_tester.py:20-29 | A string of digits has five glyphs per digit |
| Transmission.ValidSelectionLength | fiber_tester.py:113-151 | A valid colour with a digit string always encodes, in 2·(colour glyphs) + 10·(digits) + 1 steps |
| Transmission.NumeralPunctuationUnknown | fiber_tester.py:136 | Whitespace, signs and underscores have no table entry |
| Transmission.ValidNumberEncodable | fiber_tester.py:53-59 | A validated number can be encoded exactly when it is a string of ASCII digits |
| Transmission.PaddedNumberFails | fiber_tester.py:136 | " 5" passes validation, but its transmission fails on the leading space |
| Transmission.PaddedDigitsFail | fiber_tester.py:136 | The number part of " 5" fails on ' ', and so does the "Red" transmission |
| Transmission.TotalDurationAppend | fiber_tester.py:209 | The total duration of two concatenated sequences is the sum of their totals |
| Transmission.PatternStepsDuration | fiber_tester.py:153-183 | A pattern lasts the sum of its pulses plus 200 ms for each gap between two glyphs |
| Transmission.DigitStepsDuration | fiber_tester.py:135-142 | The number part lasts the sum of its characters' air times |
| Transmission.TransmissionDuration | fiber_tester.py:208-209 | The reported total is the colour letter's air time, plus each digit's air time, plus the 1000 ms confirmation flash |
| Transmission.PulseDurationSnoc | fiber_tester.py:157-173 | Adding a glyph adds its pulse duration |
| Transmission.PatternStepsSnoc | fiber_tester.py:157-181 | Adding a glyph to a non-empty pattern adds one gap and that glyph's step |
| Transmission.BlueSevenPulses | fiber_tester.py:19 | The pulses of B last 1200 ms and those of 7 last 1800 ms |
| Transmission.BlueSeven | test_fiber_tester.py:36-41 | "Blue 7" encodes as 19 steps that last 6600 ms in total |
| Transmission.RedSteps | fiber_tester.py:17 | R gives dot, gap, dash, gap, dot |
| Transmission.FiveSteps | fiber_tester.py:25 | 5 gives five dots separated by 200 ms gaps |
| Transmission.RedFive | fiber_tester.py:113-151 | "Red 5" gives exactly these 17 steps: R's five steps, a 600 ms gap, 5's nine steps, a 600 ms gap, the 1000 ms confirmation |
| Transmission.PatternStepsHaveNoLetterGap | fiber_tester.py:153-183 | A pattern's steps never contain a 600 ms gap |
| Transmission.FirstLetterGapAfter | fiber_tester.py:127-132 | The first 600 ms gap after a character's steps marks where that character ends |
| Transmission.SplitAtLetterGap | fiber_tester.py:127-142 | Two sequences that agree and have their first inter-letter gap after gap-free prefixes have equal prefixes and equal remainders |
| Transmission.SameSteps | fiber_tester.py:16-30 | Two table characters whose patterns give the same steps are the same character |
| Transmission.DigitStepsInjective | fiber_tester.py:135-142 | The number part determines the number |
| Transmission.TransmissionIdentifiesSelection | fiber_tester.py:113-151 | Two valid selections with non-empty numbers and the same transmission are the same selection |
| FiberTester.PushHistory | fiber_tester.py:238-242 | The new record goes first and the older ones follow in order; at most five are kept |
| FiberTester.PushHistoryCases | fiber_tester.py:238-242 | Below the limit nothing is dropped; at the limit the oldest record is dropped |
| FiberTester.MessagesCons | fiber_tester.py:255 | The history lines follow the records in order |
| FiberTester.HistoryKeepsLatest | fiber_tester.py:238-242 | After any series of completions, the history is the five most recent records, newest first |
| FiberTester.FiberTesterController.constructor | fiber_tester.py:42-46 | A new controller has no history and no selection, is not transmitting, and is valid |
| FiberTester.FiberTesterController.SetColor | fiber_tester.py:61-76 | Succeeds exactly when the colour is valid, and then stores it. Otherwise nothing changes. Keeps the invariant |
| FiberTester.FiberTesterController.SetNumber | fiber_tester.py:78-93 | Succeeds exactly when the number is valid, and then stores it as given. Otherwise nothing changes. Keeps the invariant |
| FiberTester.FiberTesterController.ClearSelection | fiber_tester.py:95-103 | Unsets the colour and the number; the history and the flag are unchanged |
| FiberTester.FiberTesterController.GenerateMorsePattern | fiber_tester.py:105-111 | The loop builds the concatenated patterns of the upper-cased known characters, unknown ones skipped |
| FiberTester.FiberTesterController.PatternToSequence | fiber_tester.py:153-183 | The loop builds the pattern's timed steps, with gaps only between glyphs |
| FiberTester.FiberTesterController.CalculateTransmissionSequence | fiber_tester.py:113-151 | Returns the full transmission of the current selection: empty if unset, or the first unknown character |
| FiberTester.FiberTesterController.NumberToSequence | fiber_tester.py:135-142 | The digit loop builds the number part, or stops at the first character the table lacks |
| FiberTester.FiberTesterController.PrepareTransmission | fiber_tester.py:185-219 | Errors in the source's order (no colour, no number, already transmitting, failed lookup). On success: the selection, its steps and their total, which equals the air-time formula. Never "already transmitting" from a valid state. Changes nothing |
| FiberTester.FiberTesterController.CompleteTransmission | fiber_tester.py:221-256 | Fails and changes nothing unless both are set. Otherwise: pushes the record to the front of the history (at most five), clears the selection, returns the history lines. Nothing is ready to send afterwards |
| FiberTester.FiberTesterController.GetStatus | fiber_tester.py:258-266 | Reports the fields and the history lines; from a valid state, ready to send exactly when both are selected, with at most five history lines |
| FiberTesterDemo.ScriptNumbers | test_fiber_tester.py:37-59 | "7", "1", "23" and "100" are valid numbers |
| FiberTesterDemo.ScriptPushes | test_fiber_tester.py:50-67 | Pushing the four transmissions in turn onto an empty history gives them newest first, none dropped |
| FiberTesterDemo.ScriptLines | test_fiber_tester.py:52-67 | The four completed transmissions read "Blue 100 sent", "Green 23 sent", "Red 1 sent", "Blue 7 sent" |
| FiberTesterDemo.TrySelections | test_fiber_tester.py:17-32 | "Red" is taken and "Invalid" refused, then "Green" and "42" are taken and "150" refused; the history is untouched |
| FiberTesterDemo.Send | test_fiber_tester.py:62-66 | Set colour, set number, prepare, complete: the prepared steps are the selection's transmission with their total, the record is pushed to the front of the history, and the selection is cleared |
| FiberTesterDemo.RunScript | test_fiber_tester.py:10-75 | The invalid colour and number are refused. "Blue 7" prepares 19 steps lasting 6600 ms. At the end the history lists the four transmissions newest first and nothing is ready to send |

## Left out

- `main()` and the command-line interface (fiber_tester.py:268 onwards) are not modelled. They parse arguments and print JSON.
- backend-server.py is not part of this model. It is an HTTP bridge to the controller.
- `time.time()` is not modelled as a clock. `CompleteTransmission` takes the timestamp as a parameter.
- The result dictionaries' `message` and `status` strings are left out, as are the steps' `description`, `sequence_type` and `value` fields. Each operation returns only the data the dictionaries carry: success, the selection, the sequence, the total and the history. The record's `message` is kept, because `get_status` reports it.
- A failed lookup raises `KeyError` in the source; the model returns an error value instead.
- `ValidateNumber`: two differences from `int()`. First, non-ASCII decimal digits (e.g. Arabic-Indic digits) are not modelled; `int()` accepts them, the model rejects them. Second, the digit-count limit of CPython 3.11 and later is not modelled. That limit is 4300 digits by default (`sys.set_int_max_str_digits`), and the source does not fix an interpreter version. There `int()` raises ValueError for a longer string such as 4301 zeros, which the model accepts as 0; `DigitStringValidation` and `PyInt` share this.
- `Upper`: upper-cases ASCII letters only. For the colours that validation accepts, the result is the same as Python's `str.upper`.
- `PatternToSequence`: the source's fall-through for a symbol that is neither '·' nor '−' cannot occur, because a pattern is a sequence of glyphs.
- `PrepareTransmission`: nothing sets `is_transmitting`, so the flag is part of the state but always false under `Valid()`.
