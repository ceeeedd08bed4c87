/**
 * Properties of a complete transmission: its shape, its length and total
 * duration, which selections can be encoded at all, and that the steps of a
 * transmission determine the selection they came from.
 */
module Transmission {
  import opened Basics
  import opened Morse
  import opened Validation

  /** A step that can occur inside one character's steps or between characters. */
  predicate PayloadStep(s: Step)
  {
    s == Step(Dot, DotDuration) || s == Step(Dash, DashDuration) || s == IntraGapStep || s == LetterGapStep
  }

  /** The number part is made of dots, dashes and gaps of 200 or 600 ms only. */
  lemma {:induction false} DigitStepsPayload(digits: string)
    requires DigitSteps(digits).Ok?
    ensures forall s :: s in DigitSteps(digits).value ==> PayloadStep(s)
  {
    if digits != [] {
      DigitStepsPayload(digits[1..]);
      PatternStepKinds(MorseCode[digits[0]]);
    }
  }

  /**
   * A transmission of a set selection ends with its one confirmation flash;
   * every earlier step is a dot, a dash or a gap of 200 or 600 ms, so no
   * word gap and no end-of-transmission gap is ever emitted.
   */
  lemma TransmissionShape(color: string, number: string, steps: seq<Step>)
    requires color != [] && number != []
    requires TransmissionSequence(Some(color), Some(number)) == Ok(steps)
    ensures steps != [] && steps[|steps| - 1] == ConfirmationStep
    ensures forall i :: 0 <= i < |steps| - 1 ==> PayloadStep(steps[i])
    ensures forall i :: 0 <= i < |steps| ==> steps[i].duration != WordGap
  {
    var letter := Upper(color[0]);
    var ds := DigitSteps(number).value;
    PatternStepKinds(MorseCode[letter]);
    DigitStepsPayload(number);
    assert steps == PatternSteps(MorseCode[letter]) + [LetterGapStep] + ds + [ConfirmationStep];
    forall i | 0 <= i < |steps| - 1
      ensures PayloadStep(steps[i])
    {
      var n := |PatternSteps(MorseCode[letter])|;
      if i < n {
        assert steps[i] in PatternSteps(MorseCode[letter]);
      } else if i > n {
        assert steps[i] == ds[i - n - 1];
        assert steps[i] in ds;
      }
    }
  }

  /** The steps are empty exactly when the colour or the number is unset (None or empty). */
  lemma UnsetSelectionIsEmpty(color: Option<string>, number: Option<string>)
    ensures TransmissionSequence(color, number) == Ok([]) <==> !Truthy(color) || !Truthy(number)
  {
    if Truthy(color) && Truthy(number) && TransmissionSequence(color, number).Ok? {
      TransmissionShape(color.value, number.value, TransmissionSequence(color, number).value);
    }
  }

  /** Number of glyphs in the patterns of the known characters of a string. */
  function GlyphCount(digits: string): nat
  {
    if digits == [] then 0
    else (if digits[0] in MorseCode then |MorseCode[digits[0]]| else 0) + GlyphCount(digits[1..])
  }

  /** Each character of the number part takes two steps per glyph (its glyphs, its gaps). */
  lemma {:induction false} DigitStepsLength(digits: string)
    requires DigitSteps(digits).Ok?
    ensures |DigitSteps(digits).value| == 2 * GlyphCount(digits)
  {
    if digits != [] {
      DigitStepsLength(digits[1..]);
      TableEntries();
    }
  }

  /**
   * Length of a transmission: (2·|colour pattern| − 1 + 1) for the colour,
   * the same for each digit, and one confirmation step.
   */
  lemma TransmissionLength(color: string, number: string, steps: seq<Step>)
    requires color != [] && number != []
    requires TransmissionSequence(Some(color), Some(number)) == Ok(steps)
    ensures |steps| == 2 * |MorseCode[Upper(color[0])]| + 2 * GlyphCount(number) + 1
  {
    DigitStepsLength(number);
    TableEntries();
  }

  lemma {:induction false} GlyphCountOfDigits(digits: string)
    requires forall i :: 0 <= i < |digits| ==> IsDigit(digits[i])
    ensures GlyphCount(digits) == 5 * |digits|
  {
    if digits != [] {
      TableEntries();
      GlyphCountOfDigits(digits[1..]);
    }
  }

  /**
   * A valid colour with a number of ASCII digits always encodes, in
   * 2·|colour pattern| + 10·(number of digits) + 1 steps.
   */
  lemma ValidSelectionLength(color: string, number: string)
    requires ValidateColor(color) && IsDigitString(number)
    ensures TransmissionSequence(Some(color), Some(number)).Ok?
    ensures |TransmissionSequence(Some(color), Some(number)).value|
         == 2 * |MorseCode[Upper(color[0])]| + 10 * |number| + 1
  {
    TableEntries();
    DigitStepsOk(number);
    TransmissionLength(color, number, TransmissionSequence(Some(color), Some(number)).value);
    GlyphCountOfDigits(number);
  }

  /** Whitespace, signs and underscores have no entry in the table. */
  lemma NumeralPunctuationUnknown(c: char)
    requires NumeralChar(c) && !IsDigit(c)
    ensures c !in MorseCode
  {
    TableEntries();
  }

  /**
   * A number `int()` accepts can be encoded only if it is made of ASCII
   * digits: the whitespace, signs and underscores `int()` tolerates have no
   * table entry, so " 5", "+7" or "-0" pass validation and then fail the
   * table lookup.
   */
  lemma ValidNumberEncodable(number: string)
    requires ValidateNumber(number)
    ensures DigitSteps(number).Ok? <==> IsDigitString(number)
  {
    PyIntChars(number);
    DigitStepsOk(number);
    if DigitSteps(number).Ok? {
      forall i | 0 <= i < |number|
        ensures IsDigit(number[i])
      {
        if !IsDigit(number[i]) {
          NumeralPunctuationUnknown(number[i]);
        }
      }
    } else {
      TableEntries();
    }
  }

  /** The padded number " 5" passes validation, and its encoding fails on the leading space. */
  lemma PaddedNumberFails()
    ensures ValidateNumber(" 5")
    ensures TransmissionSequence(Some("Red"), Some(" 5")) == Err(' ')
  {
    LenientNumbers();
    PaddedDigitsFail();
  }

  lemma PaddedDigitsFail()
    ensures DigitSteps(" 5") == Err(' ')
    ensures TransmissionSequence(Some("Red"), Some(" 5")) == Err(' ')
  {
    assert ' ' !in MorseCode by { TableEntries(); }
    assert 'R' in MorseCode;
  }

  // ----- Durations -----

  lemma {:induction false} TotalDurationAppend(a: seq<Step>, b: seq<Step>)
    ensures TotalDuration(a + b) == TotalDuration(a) + TotalDuration(b)
  {
    if a != [] {
      assert (a + b)[1..] == a[1..] + b;
      TotalDurationAppend(a[1..], b);
    } else {
      assert a + b == b;
    }
  }

  function GlyphDuration(g: Glyph): nat
  {
    if g == Short then DotDuration else DashDuration
  }

  /** The summed length of a pattern's pulses, without gaps. */
  function PulseDuration(p: Pattern): nat
  {
    if p == [] then 0 else PulseDuration(p[..|p| - 1]) + GlyphDuration(p[|p| - 1])
  }

  /** A pattern lasts its pulses plus one 200 ms gap between each two glyphs. */
  lemma {:induction false} PatternStepsDuration(p: Pattern)
    requires p != []
    ensures TotalDuration(PatternSteps(p)) == PulseDuration(p) + IntraLetterGap * (|p| - 1)
  {
    if |p| == 1 {
      assert p[..0] == [];
    } else {
      var q := p[..|p| - 1];
      var tail := [IntraGapStep, GlyphStep(p[|p| - 1])];
      PatternStepsDuration(q);
      TotalDurationAppend(PatternSteps(q), tail);
      assert tail[1..] == [GlyphStep(p[|p| - 1])] && tail[1..][1..] == [];
      assert TotalDuration(tail[1..]) == GlyphStep(p[|p| - 1]).duration == GlyphDuration(p[|p| - 1]);
      assert TotalDuration(tail) == IntraLetterGap + GlyphDuration(p[|p| - 1]);
    }
  }

  /** Air time of one known character: its pattern and the inter-letter gap after it. */
  function CharDuration(c: char): nat
    requires c in MorseCode
  {
    var p := MorseCode[c];
    PulseDuration(p) + IntraLetterGap * (|p| - 1) + InterLetterGap
  }

  function NumberDuration(digits: string): nat
    requires forall i :: 0 <= i < |digits| ==> digits[i] in MorseCode
  {
    if digits == [] then 0 else CharDuration(digits[0]) + NumberDuration(digits[1..])
  }

  lemma {:induction false} DigitStepsDuration(digits: string)
    requires DigitSteps(digits).Ok?
    ensures forall i :: 0 <= i < |digits| ==> digits[i] in MorseCode
    ensures TotalDuration(DigitSteps(digits).value) == NumberDuration(digits)
  {
    DigitStepsOk(digits);
    if digits != [] {
      var p := MorseCode[digits[0]];
      TableEntries();
      DigitStepsDuration(digits[1..]);
      PatternStepsDuration(p);
      TotalDurationAppend(PatternSteps(p), [LetterGapStep]);
      TotalDurationAppend(LetterSteps(p), DigitSteps(digits[1..]).value);
    }
  }

  /**
   * The total duration the controller reports is the air time of the colour
   * letter, of each digit, and the 1000 ms confirmation flash.
   */
  lemma TransmissionDuration(color: string, number: string, steps: seq<Step>)
    requires color != [] && number != []
    requires TransmissionSequence(Some(color), Some(number)) == Ok(steps)
    ensures Upper(color[0]) in MorseCode
    ensures forall i :: 0 <= i < |number| ==> number[i] in MorseCode
    ensures TotalDuration(steps) == CharDuration(Upper(color[0])) + NumberDuration(number) + ConfirmationFlash
  {
    var p := MorseCode[Upper(color[0])];
    var ds := DigitSteps(number).value;
    TableEntries();
    DigitStepsDuration(number);
    PatternStepsDuration(p);
    TotalDurationAppend(PatternSteps(p), [LetterGapStep]);
    TotalDurationAppend(LetterSteps(p), ds);
    TotalDurationAppend(LetterSteps(p) + ds, [ConfirmationStep]);
  }

  lemma PulseDurationSnoc(p: Pattern, g: Glyph)
    ensures PulseDuration(p + [g]) == PulseDuration(p) + GlyphDuration(g)
  {
    assert (p + [g])[..|p|] == p;
  }

  lemma PatternStepsSnoc(p: Pattern, g: Glyph)
    requires p != []
    ensures PatternSteps(p + [g]) == PatternSteps(p) + [IntraGapStep, GlyphStep(g)]
  {
    assert (p + [g])[..|p|] == p;
  }

  /** B is dash-dot-dot-dot and 7 is dash-dash-dot-dot-dot. */
  lemma BlueSevenPulses()
    ensures PulseDuration(MorseCode['B']) == 1200 && PulseDuration(MorseCode['7']) == 1800
  {
    var l1 := [Long];
    assert PulseDuration(l1) == DashDuration by { assert l1[..0] == []; }
    var b2 := l1 + [Short];
    var b3 := b2 + [Short];
    var b4 := b3 + [Short];
    PulseDurationSnoc(l1, Short);
    PulseDurationSnoc(b2, Short);
    PulseDurationSnoc(b3, Short);
    assert MorseCode['B'] == b4;
    var s2 := l1 + [Long];
    var s3 := s2 + [Short];
    var s4 := s3 + [Short];
    var s5 := s4 + [Short];
    PulseDurationSnoc(l1, Long);
    PulseDurationSnoc(s2, Short);
    PulseDurationSnoc(s3, Short);
    PulseDurationSnoc(s4, Short);
    assert MorseCode['7'] == s5;
  }

  /** The demo's "Blue 7": 19 steps lasting 6600 ms. */
  lemma BlueSeven()
    ensures TransmissionSequence(Some("Blue"), Some("7")).Ok?
    ensures |TransmissionSequence(Some("Blue"), Some("7")).value| == 19
    ensures TotalDuration(TransmissionSequence(Some("Blue"), Some("7")).value) == 6600
  {
    ColorExamples();
    assert IsDigitString("7");
    ValidSelectionLength("Blue", "7");
    var steps := TransmissionSequence(Some("Blue"), Some("7")).value;
    TransmissionDuration("Blue", "7", steps);
    BlueSevenPulses();
    assert NumberDuration("7") == CharDuration('7') by { assert "7"[1..] == []; }
  }

  /** R is dot-dash-dot. */
  lemma RedSteps()
    ensures PatternSteps(MorseCode['R']) == [Step(Dot, 200), IntraGapStep, Step(Dash, 600), IntraGapStep, Step(Dot, 200)]
  {
    var s1 := [Short];
    var r2 := s1 + [Long];
    var r3 := r2 + [Short];
    PatternStepsSnoc(s1, Long);
    PatternStepsSnoc(r2, Short);
    assert MorseCode['R'] == r3;
  }

  /** 5 is five dots. */
  lemma FiveSteps()
    ensures PatternSteps(MorseCode['5']) == [Step(Dot, 200), IntraGapStep, Step(Dot, 200), IntraGapStep,
      Step(Dot, 200), IntraGapStep, Step(Dot, 200), IntraGapStep, Step(Dot, 200)]
  {
    var s1 := [Short];
    var f2 := s1 + [Short];
    var f3 := f2 + [Short];
    var f4 := f3 + [Short];
    var f5 := f4 + [Short];
    PatternStepsSnoc(s1, Short);
    PatternStepsSnoc(f2, Short);
    PatternStepsSnoc(f3, Short);
    PatternStepsSnoc(f4, Short);
    assert MorseCode['5'] == f5;
  }

  /**
   * The scenario "Red 5": dot, gap, dash, gap, dot for R, a letter gap, five
   * dots separated by gaps for 5, a letter gap, and the confirmation flash.
   */
  lemma RedFive()
    ensures TransmissionSequence(Some("Red"), Some("5")) == Ok([
      Step(Dot, 200), Step(Gap, 200), Step(Dash, 600), Step(Gap, 200), Step(Dot, 200),
      Step(Gap, 600),
      Step(Dot, 200), Step(Gap, 200), Step(Dot, 200), Step(Gap, 200), Step(Dot, 200),
      Step(Gap, 200), Step(Dot, 200), Step(Gap, 200), Step(Dot, 200),
      Step(Gap, 600),
      Step(Confirmation, 1000)])
  {
    var r, f := PatternSteps(MorseCode['R']), PatternSteps(MorseCode['5']);
    RedSteps();
    FiveSteps();
    assert DigitSteps("5") == Ok(f + [LetterGapStep]) by {
      assert "5"[0] == '5' && "5"[1..] == [];
      assert LetterSteps(MorseCode['5']) + [] == LetterSteps(MorseCode['5']);
    }
    assert "Red"[0] == 'R' && Upper('R') == 'R';
    TransmissionOfKnown("Red", "5");
    assert r + [LetterGapStep] + (f + [LetterGapStep]) + [ConfirmationStep]
        == [r[0], r[1], r[2], r[3], r[4], LetterGapStep, f[0], f[1], f[2], f[3], f[4], f[5], f[6], f[7], f[8],
            LetterGapStep, ConfirmationStep];
  }

  // ----- A transmission identifies its selection -----

  lemma PatternStepsHaveNoLetterGap(p: Pattern)
    ensures LetterGapStep !in PatternSteps(p)
  {
    PatternStepKinds(p);
  }

  /** Position of the first inter-letter gap in a step sequence, or its length if there is none. */
  function FirstLetterGap(s: seq<Step>): nat
  {
    if s == [] || s[0] == LetterGapStep then 0 else 1 + FirstLetterGap(s[1..])
  }

  lemma {:induction false} FirstLetterGapAfter(a: seq<Step>, x: seq<Step>)
    requires LetterGapStep !in a
    ensures FirstLetterGap(a + [LetterGapStep] + x) == |a|
  {
    if a != [] {
      assert (a + [LetterGapStep] + x)[1..] == a[1..] + [LetterGapStep] + x;
      FirstLetterGapAfter(a[1..], x);
    }
  }

  /** The first inter-letter gap splits two step sequences at the same place. */
  lemma SplitAtLetterGap(a: seq<Step>, x: seq<Step>, b: seq<Step>, y: seq<Step>)
    requires LetterGapStep !in a && LetterGapStep !in b
    requires a + [LetterGapStep] + x == b + [LetterGapStep] + y
    ensures a == b && x == y
  {
    var s := a + [LetterGapStep] + x;
    FirstLetterGapAfter(a, x);
    FirstLetterGapAfter(b, y);
    assert a == s[..|a|] == b;
    assert x == s[|a| + 1..] == y;
  }

  /** Two table characters whose patterns give the same steps are the same character. */
  lemma SameSteps(a: char, b: char)
    requires a in MorseCode && b in MorseCode
    requires PatternSteps(MorseCode[a]) == PatternSteps(MorseCode[b])
    ensures a == b
  {
    PatternStepsInjective(MorseCode[a], MorseCode[b]);
    TableIsInjective();
  }

  /** The number part determines the number. */
  lemma {:induction false} DigitStepsInjective(m: string, n: string)
    requires DigitSteps(m).Ok? && DigitSteps(m) == DigitSteps(n)
    ensures m == n
  {
    if m != [] && n != [] {
      var p, q := MorseCode[m[0]], MorseCode[n[0]];
      var x, y := DigitSteps(m[1..]).value, DigitSteps(n[1..]).value;
      assert DigitSteps(m).value == PatternSteps(p) + [LetterGapStep] + x;
      assert DigitSteps(n).value == PatternSteps(q) + [LetterGapStep] + y;
      PatternStepsHaveNoLetterGap(p);
      PatternStepsHaveNoLetterGap(q);
      SplitAtLetterGap(PatternSteps(p), x, PatternSteps(q), y);
      SameSteps(m[0], n[0]);
      DigitStepsInjective(m[1..], n[1..]);
      assert m == [m[0]] + m[1..] && n == [n[0]] + n[1..];
    }
  }

  /**
   * Two valid selections that produce the same transmission are the same
   * selection: the colour and every digit can be read back unambiguously.
   */
  lemma TransmissionIdentifiesSelection(c1: string, n1: string, c2: string, n2: string)
    requires ValidateColor(c1) && ValidateColor(c2) && n1 != [] && n2 != []
    requires TransmissionSequence(Some(c1), Some(n1)).Ok?
    requires TransmissionSequence(Some(c1), Some(n1)) == TransmissionSequence(Some(c2), Some(n2))
    ensures c1 == c2 && n1 == n2
  {
    var p, q := MorseCode[Upper(c1[0])], MorseCode[Upper(c2[0])];
    var d1, d2 := DigitSteps(n1).value, DigitSteps(n2).value;
    assert TransmissionSequence(Some(c1), Some(n1)).value == LetterSteps(p) + d1 + [ConfirmationStep];
    assert TransmissionSequence(Some(c2), Some(n2)).value == LetterSteps(q) + d2 + [ConfirmationStep];
    assert LetterSteps(p) + d1 + [ConfirmationStep] == PatternSteps(p) + [LetterGapStep] + (d1 + [ConfirmationStep]);
    assert LetterSteps(q) + d2 + [ConfirmationStep] == PatternSteps(q) + [LetterGapStep] + (d2 + [ConfirmationStep]);
    PatternStepsHaveNoLetterGap(p);
    PatternStepsHaveNoLetterGap(q);
    SplitAtLetterGap(PatternSteps(p), d1 + [ConfirmationStep], PatternSteps(q), d2 + [ConfirmationStep]);
    SameSteps(Upper(c1[0]), Upper(c2[0]));
    ColorByInitial(c1, c2);
    assert d1 == (d1 + [ConfirmationStep])[..|d1|];
    DigitStepsInjective(n1, n2);
  }
}
