/**
 * The Morse encoder of the fiber tester controller: the character table, the
 * timing constants, the timed steps a pattern becomes, and the complete
 * transmission of a (colour, number) selection.
 *
 * The functions here are the specifications; the controller's methods, which
 * build the same sequences with loops, are proved equal to them.
 */
module Morse {
  import opened Basics

  /** The two glyphs of a pattern: '·' (short) and '−' (long, U+2212). */
  datatype Glyph = Short | Long

  type Pattern = seq<Glyph>

  // Timing constants, in milliseconds (1 unit = 200 ms).
  const DotDuration: nat := 200
  const DashDuration: nat := 600
  const IntraLetterGap: nat := 200
  const InterLetterGap: nat := 600
  /** Declared by the controller but never emitted. */
  const WordGap: nat := 1400
  const ConfirmationFlash: nat := 1000

  /** The character table: the colour letters R, G, B and the ten digits. */
  const MorseCode: map<char, Pattern> := map[
    'R' := [Short, Long, Short],
    'G' := [Long, Long, Short],
    'B' := [Long, Short, Short, Short],
    '0' := [Long, Long, Long, Long, Long],
    '1' := [Short, Long, Long, Long, Long],
    '2' := [Short, Short, Long, Long, Long],
    '3' := [Short, Short, Short, Long, Long],
    '4' := [Short, Short, Short, Short, Long],
    '5' := [Short, Short, Short, Short, Short],
    '6' := [Long, Short, Short, Short, Short],
    '7' := [Long, Long, Short, Short, Short],
    '8' := [Long, Long, Long, Short, Short],
    '9' := [Long, Long, Long, Long, Short]
  ]

  const TableKeys: set<char> :=
    {'R', 'G', 'B', '0', '1', '2', '3', '4', '5', '6', '7', '8', '9'}

  predicate IsDigit(c: char)
  {
    '0' <= c <= '9'
  }

  /**
   * The table covers exactly the three colour letters and the ten digits;
   * every pattern is non-empty and every digit pattern has five glyphs.
   */
  lemma TableEntries()
    ensures MorseCode.Keys == TableKeys
    ensures forall c :: IsDigit(c) ==> c in MorseCode && |MorseCode[c]| == 5
    ensures forall c :: c in MorseCode ==> |MorseCode[c]| > 0
  {
    forall c | IsDigit(c)
      ensures c in MorseCode && |MorseCode[c]| == 5
    {
      assert c in {'0', '1', '2', '3', '4', '5', '6', '7', '8', '9'};
    }
  }

  /** No two characters share a pattern, so a pattern identifies its character. */
  lemma TableIsInjective()
    ensures forall a, b :: a in MorseCode && b in MorseCode && a != b ==> MorseCode[a] != MorseCode[b]
  {
    forall a, b | a in MorseCode && b in MorseCode && a != b
      ensures MorseCode[a] != MorseCode[b]
    {
      assert a in TableKeys && b in TableKeys;
    }
  }

  /** A timed step: what the light does, and for how long. */
  datatype StepKind = Dot | Dash | Gap | Confirmation
  datatype Step = Step(kind: StepKind, duration: nat)

  const IntraGapStep: Step := Step(Gap, IntraLetterGap)
  const LetterGapStep: Step := Step(Gap, InterLetterGap)
  const ConfirmationStep: Step := Step(Confirmation, ConfirmationFlash)

  function GlyphStep(g: Glyph): Step
  {
    match g
    case Short => Step(Dot, DotDuration)
    case Long => Step(Dash, DashDuration)
  }

  /**
   * The steps of one pattern: its glyphs in order with an intra-letter gap
   * between two consecutive glyphs and none after the last.
   */
  function PatternSteps(p: Pattern): (r: seq<Step>)
    ensures |r| == if p == [] then 0 else 2 * |p| - 1
  {
    if |p| <= 1 then (if p == [] then [] else [GlyphStep(p[0])])
    else PatternSteps(p[..|p| - 1]) + [IntraGapStep, GlyphStep(p[|p| - 1])]
  }

  /** Even positions are the glyphs in order, odd positions are 200 ms gaps. */
  lemma {:induction false} PatternStepsAt(p: Pattern, i: nat)
    requires i < |PatternSteps(p)|
    ensures i / 2 < |p|
    ensures PatternSteps(p)[i] == if i % 2 == 0 then GlyphStep(p[i / 2]) else IntraGapStep
  {
    if |p| > 1 {
      var q := p[..|p| - 1];
      if i < |PatternSteps(q)| {
        PatternStepsAt(q, i);
        assert q[i / 2] == p[i / 2];
      }
    }
  }

  lemma PatternStepsGlyphs(p: Pattern)
    ensures forall k :: 0 <= k < |p| ==> PatternSteps(p)[2 * k] == GlyphStep(p[k])
  {
    forall k | 0 <= k < |p|
      ensures PatternSteps(p)[2 * k] == GlyphStep(p[k])
    {
      assert (2 * k) / 2 == k && (2 * k) % 2 == 0;
      PatternStepsAt(p, 2 * k);
    }
  }

  lemma PatternStepsGaps(p: Pattern)
    ensures forall k :: 0 <= k < |p| - 1 ==> PatternSteps(p)[2 * k + 1] == IntraGapStep
  {
    forall k | 0 <= k < |p| - 1
      ensures PatternSteps(p)[2 * k + 1] == IntraGapStep
    {
      assert (2 * k + 1) % 2 == 1;
      PatternStepsAt(p, 2 * k + 1);
    }
  }

  /**
   * The shape of a pattern's steps: 2k - 1 steps for k glyphs, glyphs at the
   * even positions, 200 ms gaps at the odd ones, and the last step is a glyph.
   */
  lemma PatternStepsShape(p: Pattern)
    requires p != []
    ensures |PatternSteps(p)| == 2 * |p| - 1
    ensures forall k :: 0 <= k < |p| ==> PatternSteps(p)[2 * k] == GlyphStep(p[k])
    ensures forall k :: 0 <= k < |p| - 1 ==> PatternSteps(p)[2 * k + 1] == IntraGapStep
    ensures PatternSteps(p)[|PatternSteps(p)| - 1].kind != Gap
  {
    PatternStepsGlyphs(p);
    PatternStepsGaps(p);
    var last := 2 * (|p| - 1);
    assert last / 2 == |p| - 1 && last % 2 == 0;
    PatternStepsAt(p, last);
  }

  /** A pattern's steps are dots, dashes and 200 ms gaps only. */
  lemma PatternStepKinds(p: Pattern)
    ensures forall s :: s in PatternSteps(p) ==>
      s == Step(Dot, DotDuration) || s == Step(Dash, DashDuration) || s == IntraGapStep
  {
    forall s | s in PatternSteps(p)
      ensures s == Step(Dot, DotDuration) || s == Step(Dash, DashDuration) || s == IntraGapStep
    {
      var i :| 0 <= i < |PatternSteps(p)| && PatternSteps(p)[i] == s;
      PatternStepsAt(p, i);
    }
  }

  /** The steps of a pattern determine the pattern. */
  lemma PatternStepsInjective(p: Pattern, q: Pattern)
    requires PatternSteps(p) == PatternSteps(q)
    ensures p == q
  {
    if p != [] {
      assert |p| == |q|;
      forall k | 0 <= k < |p|
        ensures p[k] == q[k]
      {
        PatternStepsAt(p, 2 * k);
        PatternStepsAt(q, 2 * k);
      }
    }
  }

  /**
   * The pattern of a text: the patterns of its characters, upper-cased, in
   * order, skipping characters the table does not know.
   */
  function MorsePattern(text: string): Pattern
  {
    if text == [] then []
    else
      var c := Upper(text[|text| - 1]);
      MorsePattern(text[..|text| - 1]) + (if c in MorseCode then MorseCode[c] else [])
  }

  /** The pattern of a concatenation is the concatenation of the patterns. */
  lemma {:induction false} MorsePatternAppend(a: string, b: string)
    ensures MorsePattern(a + b) == MorsePattern(a) + MorsePattern(b)
  {
    if b != [] {
      var b' := b[..|b| - 1];
      assert (a + b)[..|a + b| - 1] == a + b';
      MorsePatternAppend(a, b');
    } else {
      assert a + b == a;
    }
  }

  /** A known character, in either case, contributes its table pattern; any other contributes nothing. */
  lemma MorsePatternChar(c: char)
    ensures MorsePattern([c]) == if Upper(c) in MorseCode then MorseCode[Upper(c)] else []
  {
    assert [c][..0] == [];
  }

  /** The steps of one character of a transmission: its pattern, then an inter-letter gap. */
  function LetterSteps(p: Pattern): seq<Step>
  {
    PatternSteps(p) + [LetterGapStep]
  }

  /**
   * The steps of the number part: for each character left to right, its
   * letter steps; the first character missing from the table is the error.
   */
  function DigitSteps(digits: string): Result<seq<Step>, char>
  {
    if digits == [] then Ok([])
    else if digits[0] !in MorseCode then Err(digits[0])
    else match DigitSteps(digits[1..])
      case Err(c) => Err(c)
      case Ok(rest) => Ok(LetterSteps(MorseCode[digits[0]]) + rest)
  }

  /** The number part of a concatenation is the concatenation of the parts, or the first error. */
  lemma {:induction false} DigitStepsAppend(a: string, b: string)
    ensures DigitSteps(a + b) ==
      match DigitSteps(a)
      case Err(c) => Err(c)
      case Ok(x) => (match DigitSteps(b) case Err(c) => Err(c) case Ok(y) => Ok(x + y))
  {
    if a == [] {
      assert a + b == b;
      if DigitSteps(b).Ok? {
        assert [] + DigitSteps(b).value == DigitSteps(b).value;
      }
    } else {
      assert (a + b)[0] == a[0] && (a + b)[1..] == a[1..] + b;
      if a[0] in MorseCode {
        DigitStepsAppend(a[1..], b);
        if DigitSteps(a[1..]).Ok? && DigitSteps(b).Ok? {
          var l, x, y := LetterSteps(MorseCode[a[0]]), DigitSteps(a[1..]).value, DigitSteps(b).value;
          assert l + (x + y) == (l + x) + y;
        }
      }
    }
  }

  /** Extending the number part by one character: its letter steps, or the error. */
  lemma DigitStepsSnoc(prefix: string, d: char)
    requires DigitSteps(prefix).Ok?
    ensures DigitSteps(prefix + [d]) ==
      if d in MorseCode then Ok(DigitSteps(prefix).value + LetterSteps(MorseCode[d])) else Err(d)
  {
    DigitStepsAppend(prefix, [d]);
    assert [d][1..] == [];
    assert d in MorseCode ==> LetterSteps(MorseCode[d]) + [] == LetterSteps(MorseCode[d]);
  }

  /** The first character the table lacks is the error of the whole number part. */
  lemma FirstUnknownDigit(digits: string, i: nat)
    requires i < |digits| && DigitSteps(digits[..i]).Ok? && digits[i] !in MorseCode
    ensures DigitSteps(digits) == Err(digits[i])
  {
    DigitStepsAppend(digits[..i], digits[i..]);
    assert digits == digits[..i] + digits[i..];
  }

  /** The number part succeeds exactly when every character is in the table. */
  lemma {:induction false} DigitStepsOk(digits: string)
    ensures DigitSteps(digits).Ok? <==> forall i :: 0 <= i < |digits| ==> digits[i] in MorseCode
  {
    if digits != [] {
      DigitStepsOk(digits[1..]);
      if digits[0] in MorseCode && DigitSteps(digits[1..]).Err? {
        var i :| 0 <= i < |digits[1..]| && digits[1..][i] !in MorseCode;
        assert digits[i + 1] !in MorseCode;
      }
    }
  }

  /**
   * The complete transmission of a selection: the colour's initial letter,
   * an inter-letter gap, each digit followed by an inter-letter gap, and one
   * confirmation flash. Empty when the colour or number is unset; an error
   * names the first character the table lacks.
   */
  function TransmissionSequence(color: Option<string>, number: Option<string>): Result<seq<Step>, char>
  {
    if !Truthy(color) || !Truthy(number) then Ok([])
    else
      var letter := Upper(color.value[0]);
      if letter !in MorseCode then Err(letter)
      else match DigitSteps(number.value)
        case Err(c) => Err(c)
        case Ok(ds) => Ok(LetterSteps(MorseCode[letter]) + ds + [ConfirmationStep])
  }

  /** A selection whose initial and digits are all in the table transmits its letter steps, digit steps and confirmation. */
  lemma TransmissionOfKnown(color: string, number: string)
    requires color != "" && number != ""
    requires Upper(color[0]) in MorseCode && DigitSteps(number).Ok?
    ensures TransmissionSequence(Some(color), Some(number))
      == Ok(LetterSteps(MorseCode[Upper(color[0])]) + DigitSteps(number).value + [ConfirmationStep])
  {
  }

  function TotalDuration(steps: seq<Step>): nat
  {
    if steps == [] then 0 else steps[0].duration + TotalDuration(steps[1..])
  }
}
