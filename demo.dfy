/**
 * The controller's demonstration script as a verified client: the calls it
 * makes, in order, on a fresh controller, and what each of them yields.
 */
module FiberTesterDemo {
  import opened Basics
  import opened Morse
  import opened Validation
  import opened Transmission
  import opened FiberTester

  /** The numbers the multiple-transmission part of the script sends are valid. */
  lemma ScriptNumbers()
    ensures ValidateNumber("7") && ValidateNumber("1") && ValidateNumber("23") && ValidateNumber("100")
  {
    DigitStringValidation("7");
    DigitStringValidation("1");
    assert DecimalValue("23") == 23 by { assert "23"[..1] == "2"; }
    DigitStringValidation("23");
    BoundaryNumbers();
  }

  /** The script's four transmissions, pushed in turn onto an empty history, newest first. */
  lemma ScriptPushes()
    ensures PushHistory(PushHistory(PushHistory(PushHistory([],
        Record("Blue", "7", 0)), Record("Red", "1", 1)), Record("Green", "23", 2)), Record("Blue", "100", 3))
      == [Record("Blue", "100", 3), Record("Green", "23", 2), Record("Red", "1", 1), Record("Blue", "7", 0)]
  {
    var h1 := [Record("Blue", "7", 0)];
    PushHistoryCases([], h1[0]);
    var h2 := [Record("Red", "1", 1)] + h1;
    PushHistoryCases(h1, h2[0]);
    var h3 := [Record("Green", "23", 2)] + h2;
    PushHistoryCases(h2, h3[0]);
    var h4 := [Record("Blue", "100", 3)] + h3;
    PushHistoryCases(h3, h4[0]);
  }

  /** The lines the history shows for those four records. */
  lemma ScriptLines()
    ensures Messages([Record("Blue", "100", 3), Record("Green", "23", 2), Record("Red", "1", 1), Record("Blue", "7", 0)])
      == ["Blue 100 sent", "Green 23 sent", "Red 1 sent", "Blue 7 sent"]
  {
    var h1 := [Record("Blue", "7", 0)];
    var h2 := [Record("Red", "1", 1)] + h1;
    var h3 := [Record("Green", "23", 2)] + h2;
    var h4 := [Record("Blue", "100", 3)] + h3;
    MessagesCons(h4[0], h3);
    MessagesCons(h3[0], h2);
    MessagesCons(h2[0], h1);
    MessagesCons(h1[0], []);
    assert Message(h4[0]) == "Blue 100 sent" && Message(h3[0]) == "Green 23 sent";
    assert Message(h2[0]) == "Red 1 sent" && Message(h1[0]) == "Blue 7 sent";
  }

  /**
   * The script's first two parts: a valid colour is taken and an invalid one
   * refused, then a valid number is taken and an out-of-range one refused.
   */
  method TrySelections(c: FiberTesterController) returns (refused: seq<bool>)
    requires c.Valid()
    modifies c
    ensures c.Valid() && refused == [false, false]
    ensures c.currentColor == Some("Green") && c.currentNumber == Some("42")
    ensures c.transmissionHistory == old(c.transmissionHistory)
  {
    ColorExamples();
    DemoNumbers();
    var ok := c.SetColor("Red");
    var badColor := c.SetColor("Invalid");
    assert c.currentColor == Some("Red");
    ok := c.SetColor("Green");
    ok := c.SetNumber("42");
    var badNumber := c.SetNumber("150");
    refused := [badColor, badNumber];
  }

  /**
   * One transmission as the script performs it: select the colour and the
   * number, prepare, complete. The prepared steps are the selection's
   * transmission, the record goes to the front of the history and the
   * selection is cleared.
   */
  method Send(c: FiberTesterController, color: string, number: string, timestamp: int)
      returns (prepared: Result<Prepared, PrepareError>)
    requires c.Valid() && ValidateColor(color) && ValidateNumber(number)
    modifies c
    ensures c.Valid()
    ensures TransmissionSequence(Some(color), Some(number)).Ok? ==>
      var steps := TransmissionSequence(Some(color), Some(number)).value;
      prepared == Ok(Prepared(color, number, steps, TotalDuration(steps)))
    ensures c.transmissionHistory == PushHistory(old(c.transmissionHistory), Record(color, number, timestamp))
    ensures c.currentColor == None && c.currentNumber == None
  {
    var ok := c.SetColor(color);
    ok := c.SetNumber(number);
    prepared := c.PrepareTransmission();
    var done, history := c.CompleteTransmission(timestamp);
  }

  /**
   * Runs the script: invalid inputs are refused and leave the selection
   * alone, "Blue 7" prepares 19 steps lasting 6600 ms, and after four
   * completed transmissions the history lists them newest first and
   * nothing is ready to send.
   */
  method RunScript() returns (refused: seq<bool>, blueSeven: Result<Prepared, PrepareError>, final: Status)
    ensures refused == [false, false]
    ensures blueSeven.Ok? && blueSeven.value.color == "Blue" && blueSeven.value.number == "7"
    ensures |blueSeven.value.sequence| == 19 && blueSeven.value.totalDuration == 6600
    ensures final.color == None && final.number == None && !final.readyToSend
    ensures final.history == ["Blue 100 sent", "Green 23 sent", "Red 1 sent", "Blue 7 sent"]
  {
    ColorExamples();
    ScriptNumbers();
    var c := new FiberTesterController();
    refused := TrySelections(c);

    BlueSeven();
    blueSeven := Send(c, "Blue", "7", 0);
    var prepared := Send(c, "Red", "1", 1);
    prepared := Send(c, "Green", "23", 2);
    prepared := Send(c, "Blue", "100", 3);
    ScriptPushes();
    ScriptLines();

    final := c.GetStatus();
  }
}
