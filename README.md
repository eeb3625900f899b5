# ESP32 AI Webcam — decision rules and serial link, in Dafny

The web page classifies webcam frames with a Teachable Machine image model
and forwards the winning class name to an ESP32 over Web Serial. Almost all
of `script.js` is glue around the browser. This project models the part of it
that makes decisions:

- **Classifier** (`classifier.dfy`): the `Prediction` record, the 0.6
  confidence cutoff, and the selection loop of `predict`. The loop keeps the
  first entry with the largest probability because it compares with a strict `>`.
- **Styling** (`styling.dfy`): the pure part of `updateUI`. The class name is
  lower-cased and matched against `vegetal`, `plastico`/`plástico` and `nada`,
  with a default style for any other name. The label is shown at weight 700
  above the cutoff and at weight 500 otherwise.
- **Serial** (`serial.dfy`): the globals `isConnected`, `writer` and
  `serialPort` become the class `SerialLink`. Each of its methods is proved
  against a pure transition on `LinkState` (`Connect`, `Disconnect`, `Send`,
  `Toggle`). The characters written to the board are the field `wire`.
  The outcome of each browser serial call (`requestPort`, `open`,
  `getWriter`, `close`, `write`) is an input. The lemmas cover the partial
  states those failures leave, an invariant of every reachable state, and the
  line framing: a line-oriented reader gets back exactly the labels that
  were written.
- **Frame** (`frame.dfy`): one iteration of `predict`. If the model is not
  loaded, it does nothing. Otherwise it selects the top prediction, computes
  the view, and sends the class name when the probability is above the cutoff.
  A rejected `model.predict` is an error outcome, and so is an empty
  prediction list (`updateUI` throws on `undefined`). Neither error changes
  the link.

The code in `script.js` sends on every frame whose top probability is above
the cutoff. It keeps no record of the last class sent and has no activity
log. Some descriptions of the project mention a debounce on the last sent
class, a capped log and a user-supplied model URL. This model follows the
code: `Frame.RepeatedReadingIsSentEveryFrame` proves the same confident
reading is written on two consecutive frames.

## Model

| member | source | states |
|---|---|---|
| `Classifier.TopIndex` | script.js:209-214 | for a non-empty list, the result is the first index holding the maximum probability: nothing in the list is larger, and everything before it is strictly smaller |
| `Classifier.SelectTop` | script.js:209-214 | the scan returns nothing exactly when the list is empty; otherwise it returns an entry of the list that no entry exceeds, namely the one at `TopIndex` |
| `Classifier.FirstMaxIsUnique` | script.js:209-214 | an index is a first maximum iff it is the one the scan selects |
| `Classifier.EarliestMaximumWins` | script.js:211 | of two entries with equal probability, the later one is never selected |
| `Classifier.TopAboveThresholdIff` | script.js:11 | the selected entry is above the cutoff iff some entry of the list is |
| `Styling.LowerChar` | script.js:242 | a lower-cased character is never upper case, and only upper-case letters are changed (by +32) |
| `Styling.Lower` | script.js:242 | lower-casing keeps the length and lower-cases each character in place |
| `Styling.LowerIsIdempotent` | script.js:242 | lower-casing an already lower-cased name changes nothing |
| `Styling.CategoryOfMatches` | script.js:242-255 | each category is chosen exactly for its lower-cased names: `vegetal`; `plastico` or `plástico`; `nada`; every other name gets the default |
| `Styling.CategoryIgnoresCase` | script.js:242 | a name and its lower-cased form get the same category |
| `Styling.ClassList` | script.js:241-255 | after the reset to `class-name` the label carries exactly one category class, and it is the class of the name's category |
| `Styling.HighlightFor` | script.js:258-264 | weight 700 iff the probability is strictly above 0.6, weight 500 iff it is at most 0.6 |
| `Styling.UpdateUI` | script.js:233-265 | the view shows the class name, the class of its category, and weight 700 exactly above the cutoff |
| `Styling.AccentedUpperCaseIsPlastico` | script.js:246-248 | `PLÁSTICO` is styled as `plastico` |
| `Styling.CapitalisedVegetal` | script.js:243-245 | `Vegetal` is styled as `vegetal` |
| `Styling.UnknownNameIsDefault` | script.js:253-254 | a name outside the known ones, such as `Papel`, gets the default style |
| `Serial.ToggleDispatches` | script.js:113-119 | the button disconnects when the flag is up and connects otherwise |
| `Serial.ConnectSetsFlagOnlyOnFullSuccess` | script.js:122-146 | the flag goes up iff `requestPort`, `open` and `getWriter` all succeed, and then writer and port are the requested ones; on a failure the flag and writer stay as they were, while the port is already the requested one once `requestPort` resolved |
| `Serial.DisconnectClearsAndIsIdempotent` | script.js:150-166 | when `close` succeeds, or there is no port to close, writer, port and flag are all cleared, and a second disconnect changes nothing |
| `Serial.FailedCloseLeavesLinkMute` | script.js:152-162 | when `close` rejects, the writer is cleared but the flag stays up and the port stays set, so every send is a no-op |
| `Serial.SendWritesOneLine` | script.js:176-185 | a send changes no connection field; it appends the label followed by one line feed iff the flag and the writer are both set and the write succeeds, and otherwise the wire is unchanged |
| `Serial.ApplyKeepsConsistent` | script.js:113-185 | a click or a send keeps the invariant that a writer is held only while connected and the flag is up only while a port is held |
| `Serial.RunKeepsConsistent` | script.js:113-185 | every sequence of clicks and sends keeps that invariant |
| `Serial.RunWire` | script.js:183-185 | over any sequence of events, the wire grows by exactly the messages of the delivered labels, in order |
| `Serial.LinesOfMessage` | script.js:183 | splitting a message followed by any stream gives the label first, provided the label holds no line feed |
| `Serial.LinesOfFramed` | script.js:183 | newline framing round-trips: splitting the concatenated messages gives back the labels |
| `Serial.DeliveredComeFromSends` | script.js:176-185 | every delivered label is the data of some send event |
| `Serial.DeviceReadsDeliveredLabels` | script.js:176-185 | from the page-load state, the lines the board reads are exactly the labels written, in order, provided no label holds a line feed |
| `Serial.SerialLink.constructor` | script.js:5-7 | the link starts with the flag down, no writer, no port and nothing written |
| `Serial.SerialLink.ConnectSerial` | script.js:122-146 | the new state is `Connect` of the old one |
| `Serial.SerialLink.DisconnectSerial` | script.js:150-173 | the new state is `Disconnect` of the old one |
| `Serial.SerialLink.ToggleSerialConnection` | script.js:113-119 | the new state is `Toggle` of the old one |
| `Serial.SerialLink.SendToESP32` | script.js:176-192 | the new state is `Send` of the old one |
| `Frame.Predict` | script.js:195-230 | the outcome is `FrameDecision` of the inputs, and the link changes only by the send of a `Shown` frame that sends |
| `Frame.ShownLabelIsTopAndSentIffAboveCutoff` | script.js:209-222 | for a non-empty list, the label shown is the first most probable class, and it is sent iff its probability is strictly above 0.6 |
| `Frame.HighlightAgreesWithSend` | script.js:220-222 | on every shown frame the label is emphasised exactly when it is sent |
| `Frame.NothingSentAtOrBelowCutoff` | script.js:11 | if every probability is at most 0.6 (0.6 itself included), the link is left unchanged |
| `Frame.FailedFramesChangeNothing` | script.js:196-199 | an unloaded model, a rejected inference or an empty list ends the frame without touching the link |
| `Frame.RepeatedReadingIsSentEveryFrame` | script.js:220-222 | `[vegetal 0.9, plastico 0.1]` on two frames while connected writes `vegetal\n` twice |
| `Frame.TieSendsEarlierClass` | script.js:211 | with two classes at 0.7, the earlier one is the one written |

## Left out

- Camera setup and drawing the frame (`getUserMedia`, `onloadedmetadata`, `drawImage`): these are browser media I/O.
- Model loading and inference (`tmImage.load`, `model.predict`, `getClassLabels`): these are foreign library calls. The prediction list, or the rejection of `model.predict`, is an input. `isModelLoaded` and `model` are set together by `loadModel`, so they are one input here.
- The confidence percentage (`Math.round(probability * 100)`): this is float arithmetic for display only. Probabilities are reals, so NaN and floating-point rounding are not modelled.
- Button text, colours, status text, the error banner and its 5-second timeout, and console logging: these are DOM side effects.
- `requestAnimationFrame` rescheduling, and the global `error`/`unhandledrejection` handlers: one iteration is modelled, not the unbounded loop.
- `checkBrowserSupport` and the Web Serial feature detection: these only probe the host.
- Interleaving of awaited calls with other events (for example, a click while a write is pending): each operation is modelled as running to completion.
- `TextEncoder`: the wire holds characters, not UTF-8 bytes.
- The baud rate passed to `open`: it is the constant `Serial.BaudRate`, not part of the port state.
- A write that fails part way: a rejected `write` leaves the wire unchanged.
- `writer.releaseLock()`: it is assumed not to throw.
- Styling.Lower: lower-cases only ASCII A-Z and the Latin-1 letters À-Þ (except ×), not the full Unicode case mapping of `toLowerCase`. No other character lower-cases onto the letters of `vegetal`, `plastico`, `plástico` or `nada`, so the chosen category is unaffected.
