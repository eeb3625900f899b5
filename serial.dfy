/**
 * The serial link to the ESP32 (script.js, `toggleSerialConnection`,
 * `connectSerial`, `disconnectSerial`, `sendToESP32`). The three globals
 * `isConnected`, `writer` and `serialPort` become the fields of `SerialLink`;
 * the characters the board has received become `wire`. Every call into the
 * browser's serial API is an input saying whether it succeeded.
 */
module Serial {
  import opened Wrappers

  /** `BAUD_RATE`, the speed `connectSerial` opens the port at. */
  const BaudRate: nat := 115200

  /** A port handle returned by `navigator.serial.requestPort`. */
  datatype Port = Port(id: nat)

  /** The writer `getWriter` hands out for a port's writable stream. */
  datatype Writer = Writer(port: Port)

  /** The outcomes of the three awaited calls in `connectSerial`:
      `requestPort` (None when the user cancels or it rejects), `open`, `getWriter`. */
  datatype ConnectAttempt = ConnectAttempt(requested: Option<Port>, openSucceeds: bool, getWriterSucceeds: bool)

  /** The connection fields and everything written so far. */
  datatype LinkState = LinkState(isConnected: bool, writer: Option<Writer>, serialPort: Option<Port>, wire: string)

  /** The page-load values of the globals: nothing connected, nothing written. */
  const Initial: LinkState := LinkState(false, None, None, "")

  /** What `sendToESP32` writes for `data`: the text and one line feed. */
  function Message(data: string): string {
    data + "\n"
  }

  /** `connectSerial`: each step assigns its global only once the awaited call
      before it has resolved, so a failure leaves the later fields as they were. */
  function Connect(s: LinkState, a: ConnectAttempt): LinkState {
    match a.requested
    case None => s
    case Some(p) =>
      if a.openSucceeds && a.getWriterSucceeds then
        s.(serialPort := Some(p), writer := Some(Writer(p)), isConnected := true)
      else
        s.(serialPort := Some(p))
  }

  /** `disconnectSerial`: the writer is released and cleared first; a port is
      then closed, and when `close` rejects the rest of the body is skipped. */
  function Disconnect(s: LinkState, closeSucceeds: bool): LinkState {
    var released := s.(writer := None);
    if released.serialPort.None? then released.(isConnected := false)
    else if closeSucceeds then released.(serialPort := None, isConnected := false)
    else released
  }

  /** `sendToESP32`: a no-op unless both the flag and the writer are set; a
      rejected `write` is caught and leaves the wire as it was. */
  function Send(s: LinkState, data: string, writeSucceeds: bool): LinkState {
    if !s.isConnected || s.writer.None? then s
    else if writeSucceeds then s.(wire := s.wire + Message(data))
    else s
  }

  /** `toggleSerialConnection`: the button dispatches on `isConnected`. */
  function Toggle(s: LinkState, a: ConnectAttempt, closeSucceeds: bool): LinkState {
    if s.isConnected then Disconnect(s, closeSucceeds) else Connect(s, a)
  }

  lemma ToggleDispatches(s: LinkState, a: ConnectAttempt, closeSucceeds: bool)
    ensures s.isConnected ==> Toggle(s, a, closeSucceeds) == Disconnect(s, closeSucceeds)
    ensures !s.isConnected ==> Toggle(s, a, closeSucceeds) == Connect(s, a)
  {
  }

  /** The flag goes up only when all three calls succeed; on any failure it
      stays as it was, the writer is untouched, and the port is the requested
      one as soon as `requestPort` resolved. */
  lemma ConnectSetsFlagOnlyOnFullSuccess(s: LinkState, a: ConnectAttempt)
    requires !s.isConnected
    ensures Connect(s, a).isConnected <==>
            a.requested.Some? && a.openSucceeds && a.getWriterSucceeds
    ensures Connect(s, a).isConnected ==>
            Connect(s, a).writer == Some(Writer(a.requested.value)) &&
            Connect(s, a).serialPort == a.requested
    ensures !Connect(s, a).isConnected ==>
            Connect(s, a).writer == s.writer &&
            Connect(s, a).serialPort == (if a.requested.Some? then a.requested else s.serialPort)
    ensures Connect(s, a).wire == s.wire
  {
  }

  /** A disconnect whose `close` succeeds (or that has no port to close)
      clears all three fields, and a second disconnect changes nothing. */
  lemma DisconnectClearsAndIsIdempotent(s: LinkState, closeSucceeds: bool, again: bool)
    requires closeSucceeds || s.serialPort.None?
    ensures var t := Disconnect(s, closeSucceeds);
            !t.isConnected && t.writer.None? && t.serialPort.None? && t.wire == s.wire &&
            Disconnect(t, again) == t
  {
  }

  /** When `close` rejects, the writer is already gone but the flag stays up:
      the link then reads as connected, every send is a no-op, and the next
      toggle tries to disconnect again. */
  lemma FailedCloseLeavesLinkMute(s: LinkState, data: string, writeSucceeds: bool)
    requires s.serialPort.Some? && s.isConnected
    ensures var t := Disconnect(s, false);
            t.isConnected && t.writer.None? && t.serialPort == s.serialPort &&
            Send(t, data, writeSucceeds) == t
  {
  }

  /** What reaches the wire is the label followed by exactly one line feed,
      and only when both the flag and the writer are set. */
  lemma SendWritesOneLine(s: LinkState, data: string, writeSucceeds: bool)
    ensures var t := Send(s, data, writeSucceeds);
            t.isConnected == s.isConnected && t.writer == s.writer && t.serialPort == s.serialPort
    ensures Send(s, data, writeSucceeds).wire ==
            if s.isConnected && s.writer.Some? && writeSucceeds then s.wire + data + ['\n'] else s.wire
  {
  }

  // ---- Reachable states ----

  /** A user action that touches the link: a click on the connect button or a frame's send. */
  datatype LinkEvent =
    | Click(attempt: ConnectAttempt, closeSucceeds: bool)
    | SendLabel(data: string, writeSucceeds: bool)

  function Apply(s: LinkState, e: LinkEvent): LinkState {
    match e
    case Click(a, c) => Toggle(s, a, c)
    case SendLabel(d, w) => Send(s, d, w)
  }

  function Run(s: LinkState, events: seq<LinkEvent>): LinkState
    decreases |events|
  {
    if events == [] then s else Run(Apply(s, events[0]), events[1..])
  }

  /** In every state the page can reach, a writer is held only while the flag
      is up, and the flag is up only while a port is held. The converse of the
      first half fails: a rejected `close` leaves the flag up without a writer. */
  predicate Consistent(s: LinkState) {
    (s.writer.Some? ==> s.isConnected) && (s.isConnected ==> s.serialPort.Some?)
  }

  lemma ApplyKeepsConsistent(s: LinkState, e: LinkEvent)
    requires Consistent(s)
    ensures Consistent(Apply(s, e))
  {
  }

  lemma {:induction false} RunKeepsConsistent(s: LinkState, events: seq<LinkEvent>)
    requires Consistent(s)
    ensures Consistent(Run(s, events))
    decreases |events|
  {
    if events != [] {
      ApplyKeepsConsistent(s, events[0]);
      RunKeepsConsistent(Apply(s, events[0]), events[1..]);
    }
  }

  // ---- What the board reads back ----

  /** The labels whose `write` actually happened during `events`, in order. */
  function Delivered(s: LinkState, events: seq<LinkEvent>): seq<string>
    decreases |events|
  {
    if events == [] then []
    else
      var e := events[0];
      var written := e.SendLabel? && s.isConnected && s.writer.Some? && e.writeSucceeds;
      (if written then [e.data] else []) + Delivered(Apply(s, e), events[1..])
  }

  /** The concatenation of the messages for `labels`. */
  function Framed(labels: seq<string>): string
    decreases |labels|
  {
    if labels == [] then "" else Message(labels[0]) + Framed(labels[1..])
  }

  /** The wire only ever grows, by one message per delivered label. */
  lemma {:induction false} RunWire(s: LinkState, events: seq<LinkEvent>)
    ensures Run(s, events).wire == s.wire + Framed(Delivered(s, events))
    decreases |events|
  {
    if events != [] {
      var e := events[0];
      var t := Apply(s, e);
      RunWire(t, events[1..]);
      var rest := Delivered(t, events[1..]);
      if e.SendLabel? && s.isConnected && s.writer.Some? && e.writeSucceeds {
        assert Delivered(s, events) == [e.data] + rest;
        assert ([e.data] + rest)[1..] == rest;
        assert t.wire == s.wire + Message(e.data);
      } else {
        assert Delivered(s, events) == rest;
        assert t.wire == s.wire;
      }
    }
  }

  /** Position of the first `c` in `w`. */
  function IndexOf(w: string, c: char): (i: nat)
    requires c in w
    ensures i < |w| && w[i] == c
    ensures forall j :: 0 <= j < i ==> w[j] != c
    decreases |w|
  {
    if w[0] == c then 0
    else
      var j := IndexOf(w[1..], c);
      j + 1
  }

  /** How a line-oriented reader splits the stream: every complete line, without its line feed. */
  function Lines(w: string): seq<string>
    decreases |w|
  {
    if '\n' !in w then []
    else
      var i := IndexOf(w, '\n');
      [w[..i]] + Lines(w[i + 1..])
  }

  lemma LinesOfMessage(data: string, rest: string)
    requires '\n' !in data
    ensures Lines(Message(data) + rest) == [data] + Lines(rest)
  {
    var w := Message(data) + rest;
    assert w[|data|] == '\n';
    var i := IndexOf(w, '\n');
    assert w[..i] == data;
    assert w[i + 1..] == rest;
  }

  /** Newline framing round-trips: a reader splitting the stream into lines
      gets back exactly the labels, as long as no label holds a line feed. */
  lemma {:induction false} LinesOfFramed(labels: seq<string>)
    requires forall l :: l in labels ==> '\n' !in l
    ensures Lines(Framed(labels)) == labels
    decreases |labels|
  {
    if labels == [] {
      assert '\n' !in "";
    } else {
      LinesOfMessage(labels[0], Framed(labels[1..]));
      LinesOfFramed(labels[1..]);
    }
  }

  /** Everything delivered was the data of some send. */
  lemma {:induction false} DeliveredComeFromSends(s: LinkState, events: seq<LinkEvent>)
    ensures forall l :: l in Delivered(s, events) ==>
              exists k :: 0 <= k < |events| && events[k].SendLabel? && events[k].data == l
    decreases |events|
  {
    if events != [] {
      var e := events[0];
      DeliveredComeFromSends(Apply(s, e), events[1..]);
      forall l | l in Delivered(s, events)
        ensures exists k :: 0 <= k < |events| && events[k].SendLabel? && events[k].data == l
      {
        if l in Delivered(Apply(s, e), events[1..]) {
          var k :| 0 <= k < |events| - 1 && events[1..][k].SendLabel? && events[1..][k].data == l;
          assert events[k + 1] == events[1..][k];
        } else {
          assert events[0].SendLabel? && events[0].data == l;
        }
      }
    }
  }

  /** End to end: starting from the page-load state, the board reads back
      exactly the labels that were written, in the order they were sent. */
  lemma DeviceReadsDeliveredLabels(events: seq<LinkEvent>)
    requires forall k :: 0 <= k < |events| && events[k].SendLabel? ==> '\n' !in events[k].data
    ensures Lines(Run(Initial, events).wire) == Delivered(Initial, events)
  {
    RunWire(Initial, events);
    DeliveredComeFromSends(Initial, events);
    assert Run(Initial, events).wire == Framed(Delivered(Initial, events));
    LinesOfFramed(Delivered(Initial, events));
  }

  // ---- The globals, updated in place ----

  class SerialLink {
    var isConnected: bool
    var writer: Option<Writer>
    var serialPort: Option<Port>
    var wire: string

    function State(): LinkState
      reads this
    {
      LinkState(isConnected, writer, serialPort, wire)
    }

    constructor ()
      ensures State() == Initial
    {
      isConnected, writer, serialPort, wire := false, None, None, "";
    }

    method ConnectSerial(a: ConnectAttempt)
      modifies this
      ensures State() == Connect(old(State()), a)
    {
      if a.requested.None? {
        return;
      }
      serialPort := a.requested;
      if !a.openSucceeds {
        return;
      }
      if !a.getWriterSucceeds {
        return;
      }
      writer := Some(Writer(a.requested.value));
      isConnected := true;
    }

    method DisconnectSerial(closeSucceeds: bool)
      modifies this
      ensures State() == Disconnect(old(State()), closeSucceeds)
    {
      if writer.Some? {
        writer := None;
      }
      if serialPort.Some? {
        if !closeSucceeds {
          return;
        }
        serialPort := None;
      }
      isConnected := false;
    }

    method ToggleSerialConnection(a: ConnectAttempt, closeSucceeds: bool)
      modifies this
      ensures State() == Toggle(old(State()), a, closeSucceeds)
    {
      if isConnected {
        DisconnectSerial(closeSucceeds);
      } else {
        ConnectSerial(a);
      }
    }

    method SendToESP32(data: string, writeSucceeds: bool)
      modifies this
      ensures State() == Send(old(State()), data, writeSucceeds)
    {
      if !isConnected || writer.None? {
        return;
      }
      if writeSucceeds {
        wire := wire + Message(data);
      }
    }
  }
}
