/**
 Reporting a breach: the text each sink writes, the standard output stream as
 an object that the sinks append to, and the dispatcher that classifies a
 reading and hands the result to the sink its target selects.
 */
module Alerting {
  import opened BreachClassification

  datatype Option<T> = None | Some(value: T)

  /** Where an alert goes. OutOfRange stands for any integer cast to the C
      enumeration that names neither enumerator. */
  datatype AlertTarget = ToController | ToEmail | OutOfRange

  /** A battery pack: its cooling arrangement and a brand name. */
  datatype BatteryCharacter = BatteryCharacter(coolingType: CoolingType, brand: string)

  /** One row of the email sink's message table. */
  datatype BreachMessage = BreachMessage(kind: BreachType, text: string)

  // ---------------------------------------------------------------------
  // Controller sink

  /** The header 0xfeed as printf's %x writes it. */
  const ControllerHeader: string := "feed"

  /** The lower-case hexadecimal digit of a value below 16, as %x writes it. */
  function HexDigit(d: nat): char
    requires d < 16
  {
    "0123456789abcdef"[d]
  }

  /** The line sendToController writes: header, " : ", the breach code in
      hexadecimal, newline. It is nine characters long, and its eighth
      character is the digit of the breach code. */
  function ControllerLine(breach: BreachType): (line: string)
    ensures |line| == 9
    ensures line[..7] == "feed : " && line[8] == '\n'
    ensures line[7] as int == '0' as int + breach.Code()
  {
    ControllerHeader + " : " + [HexDigit(breach.Code())] + "\n"
  }

  /** The breach whose code a digit carries, if any. */
  function BreachOfDigit(c: char): Option<BreachType>
  {
    if c == '0' then Some(Normal)
    else if c == '1' then Some(TooLow)
    else if c == '2' then Some(TooHigh)
    else None
  }

  /** A decoder of the wire format "feed : <0|1|2>\n": the breach a line
      carries, or None for any other text. It models no part of the program;
      it is the inverse that ControllerLine is proved against. */
  function ParseControllerLine(line: string): Option<BreachType>
  {
    if |line| == 9 && line[..7] == ControllerHeader + " : " && line[8] == '\n'
    then BreachOfDigit(line[7])
    else None
  }

  /** The decoder recovers the breach from the line the sink writes. */
  lemma ControllerLineRoundTrip(breach: BreachType)
    ensures ParseControllerLine(ControllerLine(breach)) == Some(breach)
  {
  }

  /** The only lines the decoder accepts are those the sink writes, so two
      different breaches never produce the same line. */
  lemma ParseControllerLineOnlySinkLines(line: string, breach: BreachType)
    requires ParseControllerLine(line) == Some(breach)
    ensures line == ControllerLine(breach)
  {
  }

  /** The three lines of the wire contract, written out. */
  lemma ControllerLines()
    ensures ControllerLine(Normal) == "feed : 0\n"
    ensures ControllerLine(TooLow) == "feed : 1\n"
    ensures ControllerLine(TooHigh) == "feed : 2\n"
  {
  }

  // ---------------------------------------------------------------------
  // Email sink

  /** The recipient and the two messages of sendToEmail. */
  const Recipient: string := "a.b@c.com"
  const TooLowMessage: string := "Hi, the temperature is too low"
  const TooHighMessage: string := "Hi, the temperature is too high"

  /** The contents of the local array breachMessages of sendToEmail. NORMAL
      has no row. */
  function MessageTable(): seq<BreachMessage>
  {
    [BreachMessage(TooLow, TooLowMessage), BreachMessage(TooHigh, TooHighMessage)]
  }

  /** The index of the first row of the table whose type is the breach, or
      the table's length when no row matches: where the search of sendToEmail
      stops. */
  function FindIndex(table: seq<BreachMessage>, breach: BreachType): (k: nat)
    ensures k <= |table|
    ensures k < |table| ==> table[k].kind == breach
    ensures forall j :: 0 <= j < k ==> table[j].kind != breach
  {
    if table == [] then 0
    else if table[0].kind == breach then 0
    else 1 + FindIndex(table[1..], breach)
  }

  /** The search stops at the row of TOO_LOW, at the row of TOO_HIGH, and
      runs off the end of the table for NORMAL. */
  lemma MessageTableSearch()
    ensures FindIndex(MessageTable(), TooLow) == 0
    ensures FindIndex(MessageTable(), TooHigh) == 1
    ensures FindIndex(MessageTable(), Normal) == 2
  {
  }

  /** What sendToEmail writes for a breach: the line naming the recipient
      and the message of the first matching row, or nothing when no row
      matches, which is the case for NORMAL. */
  function EmailText(breach: BreachType): (text: string)
    ensures text == "" <==> breach == Normal
    ensures breach == TooLow ==> text == "To: " + Recipient + "\n" + TooLowMessage + "\n"
    ensures breach == TooHigh ==> text == "To: " + Recipient + "\n" + TooHighMessage + "\n"
  {
    MessageTableSearch();
    var table := MessageTable();
    var k := FindIndex(table, breach);
    if k < |table| then "To: " + Recipient + "\n" + table[k].text + "\n" else ""
  }

  // ---------------------------------------------------------------------
  // Dispatcher

  /** What checkAndAlert writes: the text of the sink the target selects,
      for the breach that the battery's cooling type gives the reading; an
      unrecognised target writes nothing. */
  function AlertText(target: AlertTarget, battery: BatteryCharacter, temperatureInC: real): (text: string)
    ensures target == ToController ==>
              ParseControllerLine(text) == Some(ClassifyTemperatureBreach(battery.coolingType, temperatureInC))
    ensures target == ToEmail ==>
              (text == "" <==> 0.0 <= temperatureInC <= GetTemperatureRange(battery.coolingType).upperLimit)
    ensures target == ToEmail && temperatureInC < 0.0 ==>
              text == "To: " + Recipient + "\n" + TooLowMessage + "\n"
    ensures target == ToEmail && GetTemperatureRange(battery.coolingType).upperLimit < temperatureInC ==>
              text == "To: " + Recipient + "\n" + TooHighMessage + "\n"
    ensures target == OutOfRange ==> text == ""
  {
    var breach := ClassifyTemperatureBreach(battery.coolingType, temperatureInC);
    match target
    case ToController =>
      ControllerLineRoundTrip(breach);
      ControllerLine(breach)
    case ToEmail => EmailText(breach)
    case OutOfRange => ""
  }

  /** The brand of a battery plays no part in what is written. */
  lemma AlertTextIgnoresBrand(target: AlertTarget, a: BatteryCharacter, b: BatteryCharacter, temperatureInC: real)
    requires a.coolingType == b.coolingType
    ensures AlertText(target, a, temperatureInC) == AlertText(target, b, temperatureInC)
  {
  }

  // ---------------------------------------------------------------------
  // The standard output stream

  /** The process's standard output; `output` is everything written so far. */
  class Console {
    var output: string

    constructor ()
      ensures output == ""
    {
      output := "";
    }

    /** sendToController: one printf of the controller line. */
    method SendToController(breach: BreachType)
      modifies this
      ensures output == old(output) + ControllerLine(breach)
    {
      output := output + ControllerHeader + " : " + [HexDigit(breach.Code())] + "\n";
    }

    /** sendToEmail: a linear search over the message table that stops at the
        first row whose type is the breach, printing the recipient and the
        row's message; when no row matches nothing is printed. */
    method SendToEmail(breach: BreachType)
      modifies this
      ensures output == old(output) + EmailText(breach)
    {
      var messages := new BreachMessage[] [
        BreachMessage(TooLow, TooLowMessage),
        BreachMessage(TooHigh, TooHighMessage)
      ];
      var messageCount := messages.Length;
      assert messages[..] == MessageTable();
      for i := 0 to messageCount
        invariant messages[..] == MessageTable()
        invariant forall j :: 0 <= j < i ==> messages[j].kind != breach
        invariant output == old(output)
      {
        if messages[i].kind == breach {
          output := output + "To: " + Recipient + "\n";
          output := output + messages[i].text + "\n";
          assert FindIndex(MessageTable(), breach) == i;
          break;
        }
      }
    }

    /** checkAndAlert: classify the reading by the battery's cooling type and
        call the sink the target selects; the switch has no default, so an
        unrecognised target prints nothing. */
    method CheckAndAlert(target: AlertTarget, battery: BatteryCharacter, temperatureInC: real)
      modifies this
      ensures output == old(output) + AlertText(target, battery, temperatureInC)
    {
      var breach := ClassifyTemperatureBreach(battery.coolingType, temperatureInC);
      match target {
        case ToController =>
          SendToController(breach);
        case ToEmail =>
          SendToEmail(breach);
        case OutOfRange =>
      }
    }
  }

  /** Calls of the dispatcher on a passively cooled battery and what each
      leaves on a fresh output stream. */
  method CheckAndAlertExamples()
  {
    var battery := BatteryCharacter(PassiveCooling, "BrandX");
    ControllerLines();

    var console := new Console();
    console.CheckAndAlert(ToController, battery, 36.0);
    assert console.output == "feed : 2\n";

    console := new Console();
    console.CheckAndAlert(ToController, battery, -1.0);
    assert console.output == "feed : 1\n";

    console := new Console();
    console.CheckAndAlert(ToController, battery, 30.0);
    assert console.output == "feed : 0\n";

    console := new Console();
    console.CheckAndAlert(ToEmail, battery, -5.0);
    assert console.output == "To: " + Recipient + "\n" + TooLowMessage + "\n";

    console := new Console();
    console.CheckAndAlert(ToEmail, battery, 50.0);
    assert console.output == "To: " + Recipient + "\n" + TooHighMessage + "\n";

    console := new Console();
    console.CheckAndAlert(ToEmail, battery, 30.0);
    assert console.output == "";

    console := new Console();
    console.CheckAndAlert(OutOfRange, battery, 50.0);
    assert console.output == "";
  }
}
