/** The stand-alone calibration tool's console: each line read from standard
    input is cut at its first newline and matched exactly (case-sensitively)
    against calA, calB, save and show. Its calibration engine is the one in
    module Tds (the tool's own tds.c is not part of this model; it offers the
    same interface). */
module CalibrationConsole {
  import opened Esp
  import opened CString
  import opened Storage
  import AdcDriver
  import Tds

  /** Where `strchr(line, '\n')` stops: the first newline, or the terminator, or
      the end of the buffer. */
  function ScanEnd(s: seq<char>): (k: nat)
    ensures k <= |s|
    ensures forall j :: 0 <= j < k ==> s[j] != NUL && s[j] != '\n'
    ensures k < |s| ==> s[k] == NUL || s[k] == '\n'
  {
    if s == [] || s[0] == NUL || s[0] == '\n' then 0 else 1 + ScanEnd(s[1..])
  }

  /** The buffer after `if (nl) *nl = '\0'`. */
  function CutAtNewline(s: seq<char>): (t: seq<char>)
    ensures |t| == |s|
  {
    var k := ScanEnd(s);
    if k < |s| && s[k] == '\n' then s[k := NUL] else s
  }

  /** The command text of a line: everything before its first newline (or NUL). */
  function CommandText(text: seq<char>): seq<char>
  {
    text[..ScanEnd(text)]
  }

  lemma {:induction false} CStrStopsAt(s: seq<char>, k: nat)
    requires k <= |s|
    requires forall j :: 0 <= j < k ==> s[j] != NUL
    requires k < |s| ==> s[k] == NUL
    ensures CStr(s) == s[..k]
  {
    if k > 0 {
      CStrStopsAt(s[1..], k - 1);
      assert s[..k] == [s[0]] + s[1..][..k - 1];
    }
  }

  lemma {:induction false} ScanEndUnique(s: seq<char>, k: nat)
    requires k <= |s|
    requires forall j :: 0 <= j < k ==> s[j] != NUL && s[j] != '\n'
    requires k < |s| ==> s[k] == NUL || s[k] == '\n'
    ensures ScanEnd(s) == k
  {
    if k > 0 {
      ScanEndUnique(s[1..], k - 1);
    }
  }

  /** The terminator fgets appends never moves where the scan stops inside the text. */
  lemma {:induction false} ScanEndOverTerminator(text: seq<char>)
    ensures ScanEnd(text + [NUL]) == ScanEnd(text)
  {
    if text != [] && text[0] != NUL && text[0] != '\n' {
      assert (text + [NUL])[1..] == text[1..] + [NUL];
      ScanEndOverTerminator(text[1..]);
    }
  }

  /** Cutting the buffer in place leaves, as its C string, exactly the text
      before the first newline: anything after it is discarded. */
  lemma CutKeepsTextBeforeNewline(text: seq<char>)
    ensures CStr(CutAtNewline(text + [NUL])) == CommandText(text)
  {
    var s := text + [NUL];
    ScanEndOverTerminator(text);
    var k := ScanEnd(s);
    var t := CutAtNewline(s);
    CStrStopsAt(t, k);
    assert t[..k] == text[..k];
  }

  /** strchr + the in-place cut. */
  method StripNewline(line: array<char>)
    modifies line
    ensures line[..] == CutAtNewline(old(line[..]))
  {
    var i := 0;
    while i < line.Length && line[i] != NUL && line[i] != '\n'
      invariant 0 <= i <= line.Length
      invariant forall j :: 0 <= j < i ==> line[j] != NUL && line[j] != '\n'
    {
      i := i + 1;
    }
    ScanEndUnique(line[..], i);
    if i < line.Length && line[i] == '\n' {
      line[i] := NUL;
    }
  }

  /** What fgets delivered: nothing (end of input or an error), or the buffer
      contents before the terminator, with the ADC samples and NVS outcomes the
      command would see. */
  datatype ConsoleInput = NoLine | Line(text: seq<char>, adc: AdcDriver.Sampler, st: Tds.Statuses)

  /** What the console prints in reply to a line. */
  datatype Reply =
    | PointASaved(raw: real)
    | PointBSet(raw: real)
    | Persisted
    | SaveFailed
    | Shown(offset: real, gain: real)
    | Usage

  /** console_task's handling of one fgets result. */
  function Step(e: Tds.EngineState, input: ConsoleInput): (res: (Tds.EngineState, seq<Reply>))
    ensures input.NoLine? ==> res == (e, [])
    ensures input.Line? && CommandText(input.text) == "calA" ==>
              res.0 == Tds.CaptureA(e, input.adc) && res.1 == [PointASaved(res.0.lastRaw)]
    ensures input.Line? && CommandText(input.text) == "calB" ==>
              res.0 == Tds.CaptureB(e, input.adc) && res.1 == [PointBSet(res.0.lastRaw)]
    ensures input.Line? && CommandText(input.text) == "save" ==>
              res.0 == Tds.Persist(e, input.st).1
              && res.1 == [if Tds.Save(e.cal, e.entries, input.st).err == Ok then Persisted else SaveFailed]
    ensures input.Line? && CommandText(input.text) !in {"calA", "calB", "save"} ==> res.0 == e
    ensures input.Line? && CommandText(input.text) == "show" ==> res.1 == [Shown(e.cal.offset, e.cal.gain)]
    ensures input.Line? && CommandText(input.text) == [] ==> res.1 == []
    ensures input.Line? && CommandText(input.text) !in {"calA", "calB", "save", "show", ""} ==> res.1 == [Usage]
  {
    match input
    case NoLine => (e, [])
    case Line(text, adc, st) =>
      var cmd := CommandText(text);
      if cmd == "calA" then
        var t := Tds.CaptureA(e, adc);
        (t, [PointASaved(t.lastRaw)])
      else if cmd == "calB" then
        var t := Tds.CaptureB(e, adc);
        (t, [PointBSet(t.lastRaw)])
      else if cmd == "save" then
        var (err, t) := Tds.Persist(e, st);
        (t, [if err == Ok then Persisted else SaveFailed])
      else if cmd == "show" then
        (e, [Shown(e.cal.offset, e.cal.gain)])
      else if |cmd| == 0 then
        (e, [])
      else
        (e, [Usage])
  }

  /** The state and the replies after a sequence of fgets results. */
  function Run(e: Tds.EngineState, inputs: seq<ConsoleInput>): (Tds.EngineState, seq<Reply>)
  {
    if inputs == [] then (e, [])
    else
      var (mid, before) := Run(e, inputs[..|inputs| - 1]);
      var (last, replies) := Step(mid, inputs[|inputs| - 1]);
      (last, before + replies)
  }

  /** The fgets buffer holding `text`, cut at its first newline: the command
      that is matched. */
  method ReadCommand(text: seq<char>) returns (cmd: seq<char>)
    ensures cmd == CommandText(text)
  {
    var line := new char[|text| + 1](j requires 0 <= j <= |text| => if j < |text| then text[j] else NUL);
    assert line[..] == text + [NUL];
    StripNewline(line);
    CutKeepsTextBeforeNewline(text);
    cmd := CStr(line[..]);
  }

  /** One line of console_task: cut, match, act, reply. */
  method HandleLine(tds: Tds.TdsEngine, store: Nvs, text: seq<char>, adc: AdcDriver.Sampler, st: Tds.Statuses)
    returns (out: seq<Reply>)
    modifies tds, store
    ensures (tds.State(store), out) == Step(old(tds.State(store)), Line(text, adc, st))
  {
    var cmd := ReadCommand(text);
    if cmd == "calA" {
      var raw := tds.ReadRaw(adc);
      tds.SetCalibrationPointA(raw);
      out := [PointASaved(raw)];
    } else if cmd == "calB" {
      var raw := tds.ReadRaw(adc);
      tds.SetCalibrationPointB(raw);
      out := [PointBSet(raw)];
    } else if cmd == "save" {
      var r := tds.SaveCalibration(store, st);
      out := [if r == Ok then Persisted else SaveFailed];
    } else if cmd == "show" {
      out := [Shown(tds.offset, tds.gain)];
    } else if |cmd| == 0 {
      out := [];
    } else {
      out := [Usage];
    }
  }

  /** console_task over a sequence of fgets results. */
  method RunConsole(tds: Tds.TdsEngine, store: Nvs, inputs: seq<ConsoleInput>) returns (replies: seq<Reply>)
    modifies tds, store
    ensures (tds.State(store), replies) == Run(old(tds.State(store)), inputs)
  {
    replies := [];
    ghost var start := tds.State(store);
    for i := 0 to |inputs|
      invariant (tds.State(store), replies) == Run(start, inputs[..i])
    {
      assert inputs[..i + 1][..i] == inputs[..i];
      match inputs[i]
      case NoLine =>
        assert replies + [] == replies;
      case Line(text, adc, st) =>
        var out := HandleLine(tds, store, text, adc, st);
        replies := replies + out;
    }
    assert inputs[..|inputs|] == inputs;
  }
}
