/** The cistern controller (the node's main program): the remote pump command
    handler, the automatic pump rule applied on each control tick with the
    records it publishes, the byte-by-byte UART command reader and the line
    clean-up of the interactive console. */
module Cistern {
  import opened Esp
  import opened CString
  import opened Storage
  import AdcDriver
  import Tds
  import opened Sensor
  import opened Tasks

  // ---------------------------------------------------------------------------
  // Remote pump commands

  const ControlTopic: seq<char> := "cistern_control"

  /** The payload buffer holds 32 characters including its terminator. */
  const PayloadCapacity: nat := 32

  datatype PumpCommand = PumpOn | PumpOff | PumpAuto | NoCommand

  /** The topic test `strncmp(topic, "cistern_control", topic_len) == 0`, which
      compares only as many characters as the received topic has. */
  predicate TopicAccepted(topic: seq<char>)
  {
    StrNEq(topic, ControlTopic, |topic|)
  }

  /** The received payload as the handler copies it: at most 31 characters,
      cut at a NUL byte. */
  function Payload(data: seq<char>): (p: seq<char>)
    ensures |p| < PayloadCapacity
    ensures NUL !in p
    ensures NUL !in data && |data| < PayloadCapacity ==> p == data
  {
    var len := if |data| < PayloadCapacity - 1 then |data| else PayloadCapacity - 1;
    CStr(data[..len])
  }

  /** The command a payload carries: "ON", "OFF" or "AUTO" in any letter case. */
  function Decode(payload: seq<char>): (c: PumpCommand)
    ensures c == PumpOn <==> Fold(CStr(payload)) == "on"
    ensures c == PumpOff <==> Fold(CStr(payload)) == "off"
    ensures c == PumpAuto <==> Fold(CStr(payload)) == "auto"
  {
    PumpWordsFold();
    if StrCaseEq(payload, "ON") then PumpOn
    else if StrCaseEq(payload, "OFF") then PumpOff
    else if StrCaseEq(payload, "AUTO") then PumpAuto
    else NoCommand
  }

  /** A command word as `strcasecmp` sees it: its lower-case form. */
  lemma WordFolds(word: seq<char>, lower: seq<char>)
    requires NUL !in word && |word| == |lower|
    requires forall i :: 0 <= i < |word| ==> Lower(word[i]) == lower[i]
    ensures Fold(CStr(word)) == lower
  {
    CStrOfNulFree(word);
  }

  lemma PumpWordsFold()
    ensures Fold(CStr("ON")) == "on" && Fold(CStr("OFF")) == "off" && Fold(CStr("AUTO")) == "auto"
  {
    WordFolds("ON", "on");
    WordFolds("OFF", "off");
    WordFolds("AUTO", "auto");
  }

  datatype MqttEvent = MqttData(topic: seq<char>, data: seq<char>) | OtherMqttEvent

  /** The command an MQTT event delivers, if any. */
  function CommandOf(ev: MqttEvent): (c: PumpCommand)
    ensures c != NoCommand ==> ev.MqttData? && TopicAccepted(ev.topic)
    ensures c == PumpOn <==> ev.MqttData? && TopicAccepted(ev.topic) && Fold(Payload(ev.data)) == "on"
    ensures c == PumpOff <==> ev.MqttData? && TopicAccepted(ev.topic) && Fold(Payload(ev.data)) == "off"
    ensures c == PumpAuto <==> ev.MqttData? && TopicAccepted(ev.topic) && Fold(Payload(ev.data)) == "auto"
  {
    if ev.MqttData? && TopicAccepted(ev.topic) then
      CStrOfNulFree(Payload(ev.data));
      Decode(Payload(ev.data))
    else NoCommand
  }

  /** Letter case does not matter to the decoder. */
  lemma DecodeIgnoresCase(p: seq<char>, q: seq<char>)
    requires Fold(CStr(p)) == Fold(CStr(q))
    ensures Decode(p) == Decode(q)
  {
  }

  /** For a topic without NUL bytes, the test accepts exactly the prefixes of
      "cistern_control" — the empty topic and "cistern" included — and so
      rejects any longer topic that merely starts with it. */
  lemma TopicAcceptsExactlyPrefixes(topic: seq<char>)
    requires NUL !in topic
    ensures TopicAccepted(topic) <==> |topic| <= |ControlTopic| && topic == ControlTopic[..|topic|]
  {
    assert NUL !in ControlTopic;
    StrNEqIsPrefix(topic, ControlTopic);
  }

  // ---------------------------------------------------------------------------
  // The automatic pump rule

  const LevelLowCm: real := 20.0
  const LevelHighCm: real := 180.0

  /** The automatic rule as the control task evaluates it: low level with
      acceptable water turns the pump on; high level or dirty water turns it off;
      otherwise the relay is left alone (None). */
  function AutoRelay(level: real, state: WaterState): (d: Option<bool>)
    ensures d == Some(true) <==> level < LevelLowCm && state != Dirty
    ensures d == Some(false) <==> level > LevelHighCm || state == Dirty
    ensures d == None <==> LevelLowCm <= level <= LevelHighCm && state != Dirty
  {
    var levelLow := level < LevelLowCm;
    var levelHigh := level > LevelHighCm;
    var acceptable := state != Dirty;
    if levelLow && acceptable then Some(true)
    else if levelHigh || !acceptable then Some(false)
    else None
  }

  /** The rule table with its documented precedence: high level first, then
      dirty water, then low level; the band in between holds the relay. */
  function RuleTable(level: real, state: WaterState): Option<bool>
  {
    if level > LevelHighCm then Some(false)
    else if state == Dirty then Some(false)
    else if level < LevelLowCm then Some(true)
    else None
  }

  /** The control task's branch order and the precedence table agree on every
      input, because "low" and "high" never hold together. */
  lemma AutoRelayFollowsRuleTable(level: real, state: WaterState)
    ensures AutoRelay(level, state) == RuleTable(level, state)
  {
  }

  /** Dirty water always switches the pump off, whatever the level. */
  lemma DirtyWaterStopsPump(level: real)
    ensures AutoRelay(level, Dirty) == Some(false)
  {
  }

  /** A failed level read (stored as -1) counts as a low level. */
  lemma FailedLevelCountsAsLow(state: WaterState)
    ensures AutoRelay(FailedReading, state) == Some(state != Dirty)
  {
  }

  /** Inside the 20..180 cm band clean or medium water leaves the relay as it is. */
  lemma BandHoldsRelay(level: real, state: WaterState)
    requires LevelLowCm <= level <= LevelHighCm && state != Dirty
    ensures AutoRelay(level, state) == None
  {
  }

  // ---------------------------------------------------------------------------
  // Published records

  datatype Value = Fixed(value: real, decimals: nat) | Text(text: string)
  datatype Publication = Publication(topic: string, value: Value)

  function StateLabel(s: WaterState): string
  {
    ["LIMPIA", "MEDIA", "SUCIA"][Index(s)]
  }

  /** Distinct water states are published under distinct labels, so a
      subscriber can recover the classification from the text. */
  lemma StateLabelsDistinct(a: WaterState, b: WaterState)
    requires StateLabel(a) == StateLabel(b)
    ensures a == b
  {
  }

  function PumpLabel(on: bool): string
  {
    if on then "ON" else "OFF"
  }

  /** The four values one tick publishes when MQTT is connected, in order. */
  function Publications(d: SensorData, pumpOn: bool): (p: seq<Publication>)
    ensures |p| == 4
    ensures forall i, j :: 0 <= i < j < |p| ==> p[i].topic != p[j].topic
    ensures p[0].topic == "cistern/water_level" && p[0].value == Fixed(d.waterLevel, 2)
    ensures p[1].topic == "cistern/tds_value" && p[1].value == Fixed(d.tdsValue, 1)
    ensures p[2].topic == "cistern/water_state" && p[2].value == Text(StateLabel(d.waterState))
    ensures p[3].topic == "cistern/pump_state" && (p[3].value == Text("ON") <==> pumpOn)
  {
    [ Publication("cistern/water_level", Fixed(d.waterLevel, 2)),
      Publication("cistern/tds_value", Fixed(d.tdsValue, 1)),
      Publication("cistern/water_state", Text(StateLabel(d.waterState))),
      Publication("cistern/pump_state", Text(PumpLabel(pumpOn))) ]
  }

  // ---------------------------------------------------------------------------
  // The UART command reader

  /** The size of the line buffer, terminator included. */
  const LineCapacity: nat := 128

  predicate IsLineEnd(ch: char)
  {
    ch == '\r' || ch == '\n'
  }

  /** One received byte: a line end completes a non-empty line (and is ignored on
      an empty one); any other byte is appended while there is room and dropped
      otherwise. Returns the new buffer and the completed line. */
  function Assemble(buf: seq<char>, ch: char): (res: (seq<char>, Option<seq<char>>))
    requires |buf| < LineCapacity
    ensures |res.0| < LineCapacity
    ensures res.1.Some? <==> IsLineEnd(ch) && |buf| > 0
    ensures res.1.Some? ==> res.1.value == buf && res.0 == []
    ensures IsLineEnd(ch) && buf == [] ==> res.0 == []
    ensures !IsLineEnd(ch) ==> res.0 == if |buf| < LineCapacity - 1 then buf + [ch] else buf
  {
    if IsLineEnd(ch) then
      if |buf| > 0 then ([], Some(buf)) else (buf, None)
    else if |buf| < LineCapacity - 1 then (buf + [ch], None)
    else (buf, None)
  }

  /** The buffer after a run of bytes without line ends. */
  function AssembleText(buf: seq<char>, text: seq<char>): (b: seq<char>)
    requires |buf| < LineCapacity
    requires forall i :: 0 <= i < |text| ==> !IsLineEnd(text[i])
    ensures |b| < LineCapacity
    decreases |text|
  {
    if text == [] then buf else AssembleText(Assemble(buf, text[0]).0, text[1..])
  }

  /** A run of ordinary bytes keeps only the first 127 characters of the line. */
  lemma {:induction false} AssembleTextTruncates(buf: seq<char>, text: seq<char>)
    requires |buf| < LineCapacity
    requires forall i :: 0 <= i < |text| ==> !IsLineEnd(text[i])
    ensures var all := buf + text;
            AssembleText(buf, text) == all[..if |all| < LineCapacity - 1 then |all| else LineCapacity - 1]
    decreases |text|
  {
    if text != [] {
      var next := Assemble(buf, text[0]).0;
      AssembleTextTruncates(next, text[1..]);
      if |buf| < LineCapacity - 1 {
        assert next + text[1..] == buf + text;
      } else {
        assert (buf + text)[..LineCapacity - 1] == buf;
        var rest := next + text[1..];
        assert rest[..LineCapacity - 1] == buf;
      }
    }
  }

  /** A line typed as text followed by a line end reaches the dispatcher as
      its first 127 characters; an empty line dispatches nothing. */
  lemma TypedLineIsDispatched(text: seq<char>, eol: char)
    requires forall i :: 0 <= i < |text| ==> !IsLineEnd(text[i])
    requires IsLineEnd(eol)
    ensures var b := AssembleText([], text);
            Assemble(b, eol).1 == if text == [] then None
                                  else Some(text[..if |text| < LineCapacity - 1 then |text| else LineCapacity - 1])
  {
    AssembleTextTruncates([], text);
    assert [] + text == text;
  }

  lemma UartWordsFold()
    ensures Fold(CStr("calA")) == "cala" && Fold(CStr("calB")) == "calb"
    ensures Fold(CStr("save")) == "save" && Fold(CStr("show")) == "show"
  {
    WordFolds("calA", "cala");
    WordFolds("calB", "calb");
    WordFolds("save", "save");
    WordFolds("show", "show");
  }

  datatype UartCommand = CalA | CalB | SaveCal | Show | Unknown

  /** The UART dispatcher: case-insensitive match of the C string in the buffer. */
  function UartCommandOf(line: seq<char>): (c: UartCommand)
    ensures c == CalA <==> Fold(CStr(line)) == "cala"
    ensures c == CalB <==> Fold(CStr(line)) == "calb"
    ensures c == SaveCal <==> Fold(CStr(line)) == "save"
    ensures c == Show <==> Fold(CStr(line)) == "show"
  {
    UartWordsFold();
    if StrCaseEq(line, "calA") then CalA
    else if StrCaseEq(line, "calB") then CalB
    else if StrCaseEq(line, "save") then SaveCal
    else if StrCaseEq(line, "show") then Show
    else Unknown
  }

  /** One UART read attempt: nothing within the timeout, or one byte together
      with the ADC samples and NVS outcomes the command it completes would see. */
  datatype UartInput = NoByte | Byte(ch: char, adc: AdcDriver.Sampler, st: Tds.Statuses)

  /** The effect of a dispatched line on the calibration engine and the store. */
  function Dispatch(e: Tds.EngineState, line: seq<char>, adc: AdcDriver.Sampler, st: Tds.Statuses): (r: Tds.EngineState)
    ensures UartCommandOf(line) == CalA ==>
              r.lastRaw == Tds.RawSample(adc) && r.cal == Tds.PointA(e.cal, r.lastRaw) && r.entries == e.entries
    ensures UartCommandOf(line) == CalB ==>
              r.lastRaw == Tds.RawSample(adc) && r.cal == Tds.PointB(e.cal, r.lastRaw) && r.entries == e.entries
    ensures UartCommandOf(line) == SaveCal ==>
              r.cal == e.cal && r.lastRaw == e.lastRaw && r.entries == Tds.Save(e.cal, e.entries, st).entries
    ensures UartCommandOf(line) == Show || UartCommandOf(line) == Unknown ==> r == e
  {
    match UartCommandOf(line)
    case CalA => Tds.CaptureA(e, adc)
    case CalB => Tds.CaptureB(e, adc)
    case SaveCal => Tds.Persist(e, st).1
    case _ => e
  }

  datatype UartState = UartState(buf: seq<char>, engine: Tds.EngineState)

  function UartStep(s: UartState, input: UartInput): (t: UartState)
    requires |s.buf| < LineCapacity
    ensures |t.buf| < LineCapacity
  {
    match input
    case NoByte => s
    case Byte(ch, adc, st) =>
      var (buf, line) := Assemble(s.buf, ch);
      UartState(buf, if line.Some? then Dispatch(s.engine, line.value, adc, st) else s.engine)
  }

  /** The state after a sequence of read attempts. */
  function UartRun(s: UartState, inputs: seq<UartInput>): (t: UartState)
    requires |s.buf| < LineCapacity
    ensures |t.buf| < LineCapacity
  {
    if inputs == [] then s
    else UartStep(UartRun(s, inputs[..|inputs| - 1]), inputs[|inputs| - 1])
  }

  /** Lines that are not calibration commands never change the calibration. */
  lemma {:induction false} OnlyCalibrationCommandsChangeCalibration(e: Tds.EngineState, line: seq<char>,
                                                                   adc: AdcDriver.Sampler, st: Tds.Statuses)
    requires UartCommandOf(line) != CalA && UartCommandOf(line) != CalB
    ensures Dispatch(e, line, adc, st).cal == e.cal
  {
  }

  /** The line buffer of the UART task: `line[128]` and the fill index `idx`. */
  class UartLineAssembler {
    const line: array<char>
    var idx: nat

    ghost predicate Valid()
      reads this
    {
      line.Length == LineCapacity && idx < LineCapacity
    }

    function Buffered(): seq<char>
      reads this, line
      requires Valid()
    {
      line[..idx]
    }

    constructor ()
      ensures Valid() && fresh(line) && Buffered() == []
    {
      line := new char[LineCapacity];
      idx := 0;
    }

    /** Handle one received byte. A completed line is terminated in place and
        returned, and the index goes back to 0. */
    method Feed(ch: char) returns (completed: Option<seq<char>>)
      requires Valid()
      modifies this`idx, line
      ensures Valid()
      ensures (Buffered(), completed) == Assemble(old(Buffered()), ch)
      ensures completed.Some? ==> line[|completed.value|] == NUL
    {
      if ch == '\r' || ch == '\n' {
        if idx > 0 {
          line[idx] := NUL;
          assert line[..idx] == old(line[..idx]);
          completed := Some(line[..idx]);
          idx := 0;
        } else {
          completed := None;
        }
      } else {
        if idx < line.Length - 1 {
          line[idx] := ch;
          assert line[..idx + 1] == old(line[..idx]) + [ch];
          idx := idx + 1;
        }
        completed := None;
      }
    }
  }

  // ---------------------------------------------------------------------------
  // The interactive console line

  /** The command the console runs for the line fgets stored in `buf`: one
      trailing CR or LF is removed, and a CR before it too. */
  function ReplLine(buf: seq<char>): (r: seq<char>)
    ensures var s := CStr(buf);
            |r| <= |s| && r == s[..|r|] && |s| - |r| <= 2
    ensures var s := CStr(buf);
            |s| == |r| + 1 ==> IsLineEnd(s[|r|])
    ensures var s := CStr(buf);
            |s| == |r| + 2 ==> s[|r|] == '\r' && IsLineEnd(s[|r| + 1])
    ensures var s := CStr(buf);
            |s| > 0 && IsLineEnd(s[|s| - 1]) ==> |r| < |s|
    ensures var s := CStr(buf);
            |s| >= 2 && IsLineEnd(s[|s| - 1]) && s[|s| - 2] == '\r' ==> r == s[..|s| - 2]
    ensures var s := CStr(buf);
            |s| >= 1 && IsLineEnd(s[|s| - 1]) && (|s| == 1 || s[|s| - 2] != '\r') ==> r == s[..|s| - 1]
    ensures var s := CStr(buf);
            (|s| == 0 || !IsLineEnd(s[|s| - 1])) ==> r == s
  {
    var s := CStr(buf);
    var len := |s|;
    if len > 0 && (s[len - 1] == '\n' || s[len - 1] == '\r') then
      if len > 1 && s[len - 2] == '\r' then s[..len - 2] else s[..len - 1]
    else s
  }

  /** Only the bare line endings strip to the empty command. */
  lemma ReplLineEmpty(buf: seq<char>)
    ensures |ReplLine(buf)| == 0 <==> CStr(buf) in {"", "\n", "\r", "\r\n", "\r\r"}
  {
    var s := CStr(buf);
    if |s| == 1 {
      assert s == [s[0]];
    } else if |s| == 2 {
      assert s == [s[0], s[1]];
    }
  }

  /** The console hands a line to the command interpreter only when it is not empty. */
  predicate ReplRuns(buf: seq<char>)
    ensures !ReplRuns(buf) <==> CStr(buf) in {"", "\n", "\r", "\r\n", "\r\r"}
  {
    ReplLineEmpty(buf);
    |ReplLine(buf)| > 0
  }

  // ---------------------------------------------------------------------------
  // The controller

  class Controller {
    var pumpManualOverride: bool
    /** The control task's own copy of the latest sensor record. */
    var snapshot: SensorData
    const tasks: TaskSystem
    const uart: UartLineAssembler

    constructor (t: TaskSystem)
      ensures !pumpManualOverride && snapshot == Zeroed && tasks == t
      ensures fresh(uart) && fresh(uart.line) && uart.Valid() && uart.Buffered() == []
    {
      pumpManualOverride := false;
      snapshot := Zeroed;
      tasks := t;
      uart := new UartLineAssembler();
    }

    /** mqtt_event_handler: ON and OFF drive the relay and set the manual override;
        AUTO clears the override; anything else changes nothing. */
    method HandleMqttEvent(ev: MqttEvent)
      modifies this`pumpManualOverride, tasks`relayState, tasks`relayWrites
      ensures var c := CommandOf(ev);
              (c == PumpOn || c == PumpOff) ==>
                pumpManualOverride
                && tasks.relayState == (if tasks.relayPin >= 0 then c == PumpOn else old(tasks.relayState))
                && tasks.relayWrites == RelayWritesAfter(tasks.relayPin, old(tasks.relayState), old(tasks.relayWrites), c == PumpOn)
      ensures CommandOf(ev) == PumpAuto ==> !pumpManualOverride
      ensures CommandOf(ev) == PumpAuto || CommandOf(ev) == NoCommand ==>
                tasks.relayState == old(tasks.relayState) && tasks.relayWrites == old(tasks.relayWrites)
      ensures CommandOf(ev) == NoCommand ==> pumpManualOverride == old(pumpManualOverride)
    {
      if ev.MqttData? {
        if StrNEq(ev.topic, ControlTopic, |ev.topic|) {
          var payload := Payload(ev.data);
          if StrCaseEq(payload, "ON") {
            var _ := tasks.SetPumpRelay(true);
            pumpManualOverride := true;
          } else if StrCaseEq(payload, "OFF") {
            var _ := tasks.SetPumpRelay(false);
            pumpManualOverride := true;
          } else if StrCaseEq(payload, "AUTO") {
            pumpManualOverride := false;
          }
        }
      }
    }

    /** One iteration of the control task: take the shared record (lock wait
        outcome as input); in automatic mode apply the pump rule; publish the four
        values when MQTT is connected. */
    method ControlTick(lockAcquired: bool, mqttConnected: bool) returns (published: seq<Publication>)
      modifies this`snapshot, tasks`relayState, tasks`relayWrites
      ensures var ok := tasks.hasMutex && lockAcquired;
              (ok ==> snapshot == tasks.sensorData)
              && (!ok ==> snapshot == old(snapshot) && published == []
                          && tasks.relayState == old(tasks.relayState) && tasks.relayWrites == old(tasks.relayWrites))
      ensures pumpManualOverride ==>
                tasks.relayState == old(tasks.relayState) && tasks.relayWrites == old(tasks.relayWrites)
      ensures tasks.hasMutex && lockAcquired && !pumpManualOverride ==>
                tasks.relayState == (match AutoRelay(snapshot.waterLevel, snapshot.waterState)
                                     case Some(on) => if tasks.relayPin >= 0 then on else old(tasks.relayState)
                                     case None => old(tasks.relayState))
      ensures tasks.hasMutex && lockAcquired && !pumpManualOverride ==>
                tasks.relayWrites == (match AutoRelay(snapshot.waterLevel, snapshot.waterState)
                                      case Some(on) => RelayWritesAfter(tasks.relayPin, old(tasks.relayState), old(tasks.relayWrites), on)
                                      case None => old(tasks.relayWrites))
      ensures published == if tasks.hasMutex && lockAcquired && mqttConnected
                           then Publications(snapshot, tasks.relayState) else []
    {
      published := [];
      var err, out := tasks.ReadSensorData(Ref(snapshot), lockAcquired);
      snapshot := out.target;
      if err == Ok {
        if !pumpManualOverride {
          var levelLow := snapshot.waterLevel < 20.0;
          var levelHigh := snapshot.waterLevel > 180.0;
          var acceptable := snapshot.waterState != Dirty;
          if levelLow && acceptable {
            var _ := tasks.SetPumpRelay(true);
          } else if levelHigh || !acceptable {
            var _ := tasks.SetPumpRelay(false);
          }
        }
        if mqttConnected {
          published := Publications(snapshot, tasks.PumpRelayState());
        }
      }
    }

    /** uart_command_task over a sequence of read attempts: bytes are assembled
        into lines and each completed line is dispatched to the calibration
        commands. */
    method RunUart(inputs: seq<UartInput>, store: Nvs)
      requires uart.Valid()
      modifies uart`idx, uart.line, tasks.sensors.tds, store
      ensures uart.Valid()
      ensures UartState(uart.Buffered(), tasks.sensors.tds.State(store))
              == UartRun(UartState(old(uart.Buffered()), old(tasks.sensors.tds.State(store))), inputs)
    {
      ghost var start := UartState(uart.Buffered(), tasks.sensors.tds.State(store));
      var sensors := tasks.sensors;
      for i := 0 to |inputs|
        invariant uart.Valid()
        invariant UartState(uart.Buffered(), sensors.tds.State(store)) == UartRun(start, inputs[..i])
      {
        assert inputs[..i + 1][..i] == inputs[..i];
        match inputs[i]
        case NoByte =>
        case Byte(ch, adc, st) =>
          var completed := uart.Feed(ch);
          if completed.Some? {
            var line := completed.value;
            if StrCaseEq(line, "calA") {
              sensors.DoCalA(adc);
            } else if StrCaseEq(line, "calB") {
              sensors.DoCalB(adc);
            } else if StrCaseEq(line, "save") {
              sensors.DoSave(store, st);
            } else if StrCaseEq(line, "show") {
              var _, _ := sensors.DoShow();
            }
          }
      }
      assert inputs[..|inputs|] == inputs;
    }
  }
}
