# Typewise battery temperature alert

A Dafny model of `typewise-alert.cpp`, the library that decides whether a
battery temperature is within the limits of the pack's cooling arrangement
and reports the result to a controller or by email.

- `classification.dfy`, module `BreachClassification`: the pure part. The
  range table gives each cooling type its temperature band (passive 0–35,
  high active 0–45, medium active 0–40 degrees). `InferBreach` compares a
  reading against a band with strict comparisons, testing the lower limit
  first. `ClassifyTemperatureBreach` composes the two.
- `alerting.dfy`, module `Alerting`: the reporting part. Standard output is
  a `Console` object whose `output` string the sinks append to.
  `SendToController` writes `feed : <code>\n`, where `feed` is the header
  0xfeed as `%x` prints it and the code is NORMAL = 0, TOO_LOW = 1,
  TOO_HIGH = 2. `SendToEmail` searches a two-row message table with a loop
  that stops at the first match, and prints the recipient line and the
  message. `CheckAndAlert` classifies the reading by the battery's cooling
  type and calls the sink its target selects. Each method is specified by a
  function of the text it appends (`ControllerLine`, `EmailText`,
  `AlertText`), and the lemmas are stated about those functions.
  `ParseControllerLine` decodes the wire format `feed : (0|1|2)\n`. It is
  defined only for the specification and models no part of the program: it
  is the inverse that `ControllerLine` is proved against.
  `CheckAndAlertExamples` shows what the dispatcher leaves on a fresh stream
  for the sample calls of the test file.

The header `typewise-alert.h` is not part of this model. The enumerator
values of `BreachType` (NORMAL = 0, TOO_LOW = 1, TOO_HIGH = 2) come from the
controller lines expected at typewise-alert.tests.cpp:67-76. The order of
the cooling types comes from the row comments of the range table.

## Code and tests disagree

The model follows the code in each of these cases:

- `sendToEmail(NORMAL)` prints nothing. The message table has no NORMAL row,
  so the search finds no match (typewise-alert.cpp:55-67). The tests expect a
  "Hi, the temperature is normal" block (typewise-alert.tests.cpp:91, :116).
  `EmailText` proves that the text is empty exactly for NORMAL.
- An alert target outside the enumeration prints nothing, because the switch
  has no default (typewise-alert.cpp:39-46). The test expects
  `Unknown alert target\n` (typewise-alert.tests.cpp:120). The model has a
  target variant `OutOfRange` for such a value. `AlertText` proves that it
  writes nothing.
- A cooling type outside the enumeration indexes past the three-row array
  (typewise-alert.cpp:12). The test expects the band {0, 0}
  (typewise-alert.tests.cpp:29-31). The model admits only the three cooling
  types (see "Left out").

## Model

| member | source | states |
|---|---|---|
| `BreachClassification.GetTemperatureRange` | typewise-alert.cpp:6-13 | every band is well formed and starts at 0; the upper limit is 35 for PASSIVE, 45 for HI_ACTIVE and 40 for MED_ACTIVE |
| `BreachClassification.InferBreach` | typewise-alert.cpp:16-24 | TOO_LOW iff the reading is below the lower limit; TOO_HIGH iff it is not below the lower limit and above the upper one, which for a well-formed band is iff it is above the upper limit; NORMAL iff lower <= reading <= upper |
| `BreachClassification.BoundariesAreNormal` | typewise-alert.cpp:17-23 | a reading equal to either limit of a well-formed band is NORMAL (the comparisons are strict) |
| `BreachClassification.CrossedBandPrefersTooLow` | typewise-alert.cpp:17-22 | on a band whose lower limit is above its upper limit nothing is NORMAL, and a reading between the limits is TOO_LOW because the lower test comes first |
| `BreachClassification.ClassifyTemperatureBreach` | typewise-alert.cpp:27-30 | the breach of the reading against the cooling type's band: TOO_LOW iff below 0, TOO_HIGH iff above the type's upper limit, NORMAL iff within the band, both limits included |
| `BreachClassification.ClassificationPerCoolingType` | typewise-alert.cpp:6-30 | a reading is NORMAL for passive, medium active and high active cooling iff it lies in [0, 35], [0, 40] and [0, 45] respectively |
| `Alerting.ControllerLine` | typewise-alert.cpp:50-51 | the controller line is nine characters: `feed : `, then the digit of the breach code (0, 1 or 2), then a newline |
| `Alerting.ControllerLineRoundTrip` | typewise-alert.cpp:49-52 | the wire-format decoder reads back from the line `feed : <code>\n` the breach it was written for |
| `Alerting.ParseControllerLineOnlySinkLines` | typewise-alert.cpp:49-52 | every line the wire-format decoder accepts is the sink's line for the breach it decodes to, so the line is determined by the breach and vice versa |
| `Alerting.ControllerLines` | typewise-alert.cpp:49-52 | the three controller lines are `feed : 0\n`, `feed : 1\n` and `feed : 2\n` for NORMAL, TOO_LOW and TOO_HIGH |
| `Alerting.FindIndex` | typewise-alert.cpp:61-67 | the index where the message search stops is the first row whose type is the breach, or the table length when no row matches |
| `Alerting.MessageTableSearch` | typewise-alert.cpp:55-67 | in the two-row table the search stops at row 0 for TOO_LOW, at row 1 for TOO_HIGH, and runs off the end for NORMAL |
| `Alerting.EmailText` | typewise-alert.cpp:53-68 | the email text is empty iff the breach is NORMAL; for TOO_LOW and TOO_HIGH it is the line `To: a.b@c.com` followed by the matching message line |
| `Alerting.AlertText` | typewise-alert.cpp:32-47 | for TO_CONTROLLER the text is a controller line that decodes to the breach of the reading under the battery's cooling type; for TO_EMAIL it is empty iff the reading is within the band, the recipient line and the too-low message for a reading below 0, and the recipient line and the too-high message for a reading above the cooling type's upper limit; for an unknown target it is empty |
| `Alerting.AlertTextIgnoresBrand` | typewise-alert.cpp:32-37 | two batteries with the same cooling type produce the same alert text whatever their brands |
| `Alerting.Console.SendToController` | typewise-alert.cpp:49-52 | appends exactly the controller line of the breach to the output and nothing else |
| `Alerting.Console.SendToEmail` | typewise-alert.cpp:53-68 | the loop over the message array keeps the output unchanged until the first matching row, then appends the recipient and message lines and stops; the output grows by exactly the email text |
| `Alerting.Console.CheckAndAlert` | typewise-alert.cpp:32-47 | appends exactly the text of the one sink the target selects, applied to the breach computed from the cooling type alone; nothing for an unknown target |

## Left out

- Standard output is an appended string. Buffering, flushing and the interleaving of concurrent writers are not modelled.
- `printf`'s `%x` conversion is modelled only for what the code prints: the fixed header 0xfeed (the text `feed`) and single-digit codes. General hexadecimal formatting is not modelled.
- Temperatures are exact reals. IEEE `double` rounding and NaN are not modelled. With NaN, both comparisons in `inferBreach` would be false, so the result would be NORMAL.
- A cooling type cast from an integer outside the enumeration is undefined behaviour in the code (an out-of-bounds array read). The model admits only the three declared cooling types.
- The brand of `BatteryCharacter` is a `string`. Its C representation is in `typewise-alert.h`, which is not part of this model. It plays no part in the behaviour.
- `messageCount` is computed in the code with `sizeof`. The model takes it as the length of the message array.
