/**
 * The fiber tester controller: the current selection (colour and number),
 * the transmitting flag and the history of completed transmissions, with
 * the operations that set, clear, prepare and complete a transmission.
 */
module FiberTester {
  import opened Basics
  import opened Morse
  import opened Validation
  import opened Transmission

  /** At most this many completed transmissions are remembered. */
  const HistoryLimit: nat := 5

  /** One completed transmission; the timestamp is the clock reading the caller supplies. */
  datatype Record = Record(color: string, number: string, timestamp: int)

  /** The line the history shows for a record: "<colour> <number> sent". */
  function Message(r: Record): string
  {
    r.color + " " + r.number + " sent"
  }

  function Messages(h: seq<Record>): (m: seq<string>)
    ensures |m| == |h|
  {
    if h == [] then [] else [Message(h[0])] + Messages(h[1..])
  }

  /**
   * The history after one completion: the new record first, then the
   * earlier ones newest first, the oldest dropped beyond the limit.
   */
  function PushHistory(history: seq<Record>, rec: Record): (r: seq<Record>)
    ensures |r| == Min(|history| + 1, HistoryLimit)
    ensures r[0] == rec && r[1..] == history[..|r| - 1]
  {
    var h := [rec] + history;
    if |h| > HistoryLimit then h[..HistoryLimit] else h
  }

  /** Below the limit nothing is dropped; at the limit the oldest record is. */
  lemma PushHistoryCases(history: seq<Record>, rec: Record)
    requires |history| <= HistoryLimit
    ensures PushHistory(history, rec) ==
      if |history| < HistoryLimit then [rec] + history else [rec] + history[..HistoryLimit - 1]
  {
    var r := PushHistory(history, rec);
    assert r == [r[0]] + r[1..];
  }

  lemma MessagesCons(rec: Record, h: seq<Record>)
    ensures Messages([rec] + h) == [Message(rec)] + Messages(h)
  {
    assert ([rec] + h)[1..] == h;
  }

  /** The history after completing the given records in order, starting from none. */
  function HistoryAfter(recs: seq<Record>): seq<Record>
  {
    if recs == [] then [] else PushHistory(HistoryAfter(recs[..|recs| - 1]), recs[|recs| - 1])
  }

  function Reverse<T>(s: seq<T>): (r: seq<T>)
    ensures |r| == |s|
  {
    if s == [] then [] else [s[|s| - 1]] + Reverse(s[..|s| - 1])
  }

  /** The history holds the five most recent completions, newest first. */
  lemma {:induction false} HistoryKeepsLatest(recs: seq<Record>)
    ensures HistoryAfter(recs) == Reverse(recs)[..Min(|recs|, HistoryLimit)]
  {
    if recs != [] {
      var pre := recs[..|recs| - 1];
      HistoryKeepsLatest(pre);
      var h := HistoryAfter(pre);
      var r := HistoryAfter(recs);
      assert r == PushHistory(h, recs[|recs| - 1]);
      assert Reverse(recs) == [recs[|recs| - 1]] + Reverse(pre);
      var k := Min(|recs|, HistoryLimit);
      assert |r| == k;
      assert r[1..] == Reverse(pre)[..k - 1];
      assert r == [r[0]] + r[1..];
    }
  }

  /** What `get_status` reports. */
  datatype Status = Status(
    color: Option<string>,
    number: Option<string>,
    isTransmitting: bool,
    history: seq<string>,
    readyToSend: bool)

  /** Why a transmission cannot be prepared; UnknownSymbol is the table lookup that raises. */
  datatype PrepareError = NoColor | NoNumber | AlreadyTransmitting | UnknownSymbol(symbol: char)

  /** A prepared transmission: the selection, its steps and their summed duration. */
  datatype Prepared = Prepared(color: string, number: string, sequence: seq<Step>, totalDuration: nat)

  class FiberTesterController {
    var transmissionHistory: seq<Record>
    var currentColor: Option<string>
    var currentNumber: Option<string>
    var isTransmitting: bool

    /**
     * What every operation keeps: a stored colour or number passed its
     * validator (so it is never empty), nothing sets the transmitting flag,
     * and the history is within its limit and made of valid selections.
     */
    ghost predicate Valid()
      reads this
    {
      && (currentColor.Some? ==> ValidateColor(currentColor.value))
      && (currentNumber.Some? ==> ValidateNumber(currentNumber.value) && currentNumber.value != "")
      && !isTransmitting
      && |transmissionHistory| <= HistoryLimit
      && (forall r :: r in transmissionHistory ==> ValidateColor(r.color) && ValidateNumber(r.number))
    }

    constructor()
      ensures Valid()
      ensures transmissionHistory == [] && currentColor == None && currentNumber == None && !isTransmitting
    {
      transmissionHistory := [];
      currentColor := None;
      currentNumber := None;
      isTransmitting := false;
    }

    /** Selects a colour if it is valid; otherwise nothing changes. */
    method SetColor(color: string) returns (success: bool)
      modifies this
      ensures success == ValidateColor(color)
      ensures currentColor == if success then Some(color) else old(currentColor)
      ensures currentNumber == old(currentNumber) && isTransmitting == old(isTransmitting)
      ensures transmissionHistory == old(transmissionHistory)
      ensures old(Valid()) ==> Valid()
    {
      if !ValidateColor(color) {
        return false;
      }
      currentColor := Some(color);
      return true;
    }

    /** Sets the number, kept as given, if it is valid; otherwise nothing changes. */
    method SetNumber(number: string) returns (success: bool)
      modifies this
      ensures success == ValidateNumber(number)
      ensures currentNumber == if success then Some(number) else old(currentNumber)
      ensures currentColor == old(currentColor) && isTransmitting == old(isTransmitting)
      ensures transmissionHistory == old(transmissionHistory)
      ensures old(Valid()) ==> Valid()
    {
      if !ValidateNumber(number) {
        return false;
      }
      PyIntChars(number);
      currentNumber := Some(number);
      return true;
    }

    /** Unsets the colour and the number. */
    method ClearSelection()
      modifies this
      ensures currentColor == None && currentNumber == None
      ensures isTransmitting == old(isTransmitting) && transmissionHistory == old(transmissionHistory)
      ensures old(Valid()) ==> Valid()
    {
      currentColor := None;
      currentNumber := None;
    }

    /** The pattern of a text: its known characters' patterns, in order, case-insensitively. */
    method GenerateMorsePattern(text: string) returns (pattern: Pattern)
      ensures pattern == MorsePattern(text)
    {
      pattern := [];
      for i := 0 to |text|
        invariant pattern == MorsePattern(text[..i])
      {
        var c := Upper(text[i]);
        if c in MorseCode {
          pattern := pattern + MorseCode[c];
        }
        assert text[..i + 1][..i] == text[..i];
      }
      assert text[..|text|] == text;
    }

    /** The timed steps of one pattern. */
    method PatternToSequence(pattern: Pattern) returns (sequence: seq<Step>)
      ensures sequence == PatternSteps(pattern)
    {
      sequence := [];
      for i := 0 to |pattern|
        invariant sequence == PatternSteps(pattern[..i]) + (if 0 < i < |pattern| then [IntraGapStep] else [])
      {
        match pattern[i] {
          case Short => sequence := sequence + [Step(Dot, DotDuration)];
          case Long => sequence := sequence + [Step(Dash, DashDuration)];
        }
        assert pattern[..i + 1][..i] == pattern[..i];
        if i < |pattern| - 1 {
          sequence := sequence + [IntraGapStep];
        }
      }
      assert pattern[..|pattern|] == pattern;
    }

    /** The steps of the current selection, or the first character the table lacks. */
    method CalculateTransmissionSequence() returns (r: Result<seq<Step>, char>)
      ensures r == TransmissionSequence(currentColor, currentNumber)
    {
      if !Truthy(currentColor) || !Truthy(currentNumber) {
        return Ok([]);
      }
      var color, number := currentColor.value, currentNumber.value;
      var letter := Upper(color[0]);
      if letter !in MorseCode {
        return Err(letter);
      }
      var head := PatternToSequence(MorseCode[letter]);
      head := head + [LetterGapStep];
      var digits := NumberToSequence(number);
      match digits {
        case Err(c) =>
          return Err(c);
        case Ok(ds) =>
          TransmissionOfKnown(color, number);
          return Ok(head + ds + [ConfirmationStep]);
      }
    }

    /** The number part of a transmission, character by character, or the first character the table lacks. */
    method NumberToSequence(number: string) returns (r: Result<seq<Step>, char>)
      ensures r == DigitSteps(number)
    {
      var sequence := [];
      for i := 0 to |number|
        invariant DigitSteps(number[..i]) == Ok(sequence)
      {
        var digit := number[i];
        if digit !in MorseCode {
          FirstUnknownDigit(number, i);
          return Err(digit);
        }
        DigitStepsSnoc(number[..i], digit);
        assert number[..i + 1] == number[..i] + [digit];
        var digitSteps := PatternToSequence(MorseCode[digit]);
        sequence := sequence + (digitSteps + [LetterGapStep]);
      }
      assert number[..|number|] == number;
      return Ok(sequence);
    }

    /**
     * Checks that a colour and a number are set and no transmission is in
     * progress, then returns the steps and their total duration. Changes
     * nothing. A number the table cannot encode makes the lookup fail.
     */
    method PrepareTransmission() returns (r: Result<Prepared, PrepareError>)
      ensures !Truthy(currentColor) ==> r == Err(NoColor)
      ensures Truthy(currentColor) && !Truthy(currentNumber) ==> r == Err(NoNumber)
      ensures Truthy(currentColor) && Truthy(currentNumber) && isTransmitting ==> r == Err(AlreadyTransmitting)
      ensures Truthy(currentColor) && Truthy(currentNumber) && !isTransmitting ==>
        match TransmissionSequence(currentColor, currentNumber)
        case Err(c) => r == Err(UnknownSymbol(c))
        case Ok(steps) => r == Ok(Prepared(currentColor.value, currentNumber.value, steps, TotalDuration(steps)))
      ensures Valid() ==> r != Err(AlreadyTransmitting)
      ensures r.Ok? ==>
        && Upper(r.value.color[0]) in MorseCode
        && (forall i :: 0 <= i < |r.value.number| ==> r.value.number[i] in MorseCode)
        && r.value.totalDuration
           == CharDuration(Upper(r.value.color[0])) + NumberDuration(r.value.number) + ConfirmationFlash
    {
      if !Truthy(currentColor) {
        return Err(NoColor);
      }
      if !Truthy(currentNumber) {
        return Err(NoNumber);
      }
      if isTransmitting {
        return Err(AlreadyTransmitting);
      }
      var sequence := CalculateTransmissionSequence();
      match sequence {
        case Err(c) =>
          return Err(UnknownSymbol(c));
        case Ok(steps) =>
          TransmissionDuration(currentColor.value, currentNumber.value, steps);
          return Ok(Prepared(currentColor.value, currentNumber.value, steps, TotalDuration(steps)));
      }
    }

    /**
     * Records the current selection at the front of the history (keeping at
     * most five) and resets the selection; fails, changing nothing, unless a
     * colour and a number are set. Afterwards nothing is ready to send.
     */
    method CompleteTransmission(timestamp: int) returns (success: bool, history: seq<string>)
      modifies this
      ensures success == (Truthy(old(currentColor)) && Truthy(old(currentNumber)))
      ensures !success ==>
        && currentColor == old(currentColor) && currentNumber == old(currentNumber)
        && isTransmitting == old(isTransmitting) && transmissionHistory == old(transmissionHistory)
        && history == []
      ensures success ==>
        && transmissionHistory == PushHistory(old(transmissionHistory),
             Record(old(currentColor).value, old(currentNumber).value, timestamp))
        && currentColor == None && currentNumber == None && !isTransmitting
        && history == Messages(transmissionHistory)
      ensures !GetStatus().readyToSend
      ensures old(Valid()) ==> Valid()
    {
      if !Truthy(currentColor) || !Truthy(currentNumber) {
        return false, [];
      }
      var rec := Record(currentColor.value, currentNumber.value, timestamp);
      transmissionHistory := [rec] + transmissionHistory;
      if |transmissionHistory| > HistoryLimit {
        transmissionHistory := transmissionHistory[..HistoryLimit];
      }
      currentColor := None;
      currentNumber := None;
      isTransmitting := false;
      return true, Messages(transmissionHistory);
    }

    /**
     * The state as `get_status` reports it. For a valid controller, ready
     * to send means exactly that a colour and a number are selected.
     */
    function GetStatus(): (s: Status)
      reads this
      ensures s.color == currentColor && s.number == currentNumber && s.isTransmitting == isTransmitting
      ensures s.history == Messages(transmissionHistory)
      ensures Valid() ==> (s.readyToSend <==> currentColor.Some? && currentNumber.Some?)
      ensures Valid() ==> |s.history| <= HistoryLimit
    {
      Status(currentColor, currentNumber, isTransmitting, Messages(transmissionHistory),
        Truthy(currentColor) && Truthy(currentNumber) && !isTransmitting)
    }
  }
}
