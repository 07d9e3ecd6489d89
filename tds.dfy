/** The two-point TDS calibration engine of the cistern node: module state
    `tds_offset`, `tds_gain` and `last_raw`, the calibrated reading, and the
    persistence of offset and gain in the NVS store. Floats are reals here:
    no rounding, NaN or infinity, so the guard `raw - offset == 0.0f` reads
    `raw == offset`. */
module Tds {
  import opened Esp
  import opened Storage
  import AdcDriver

  const KeyOffset: string := "tds_offset"
  const KeyGain: string := "tds_gain"

  /** The scale applied to the normalised reading. */
  const PpmScale: real := 1000.0

  /** The number of ADC samples `tds_read_raw` averages. */
  const RawSamples: int := 20

  datatype Calibration = Calibration(offset: real, gain: real)

  /** The state before any calibration: offset 0, gain 1. */
  const Default: Calibration := Calibration(0.0, 1.0)

  /** The NVS status of each of the two writes of a save, and of each of the
      two reads of a load. */
  datatype Statuses = Statuses(offsetStatus: EspErr, gainStatus: EspErr)

  /** Point A: the offset becomes the raw sample. */
  function PointA(c: Calibration, raw: real): (r: Calibration)
    ensures r.offset == raw && r.gain == c.gain
  {
    c.(offset := raw)
  }

  /** Point B: the gain becomes 1 / (raw - offset), unless raw equals the offset,
      in which case the attempt is ignored. */
  function PointB(c: Calibration, raw: real): (r: Calibration)
    ensures r.offset == c.offset
    ensures raw == c.offset ==> r == c
    ensures raw != c.offset ==> r.gain * (raw - c.offset) == 1.0
  {
    if raw - c.offset == 0.0 then c
    else c.(gain := 1.0 / (raw - c.offset))
  }

  /** The calibrated reading `(raw - offset) * gain * 1000`. */
  function Ppm(c: Calibration, raw: real): (p: real)
    ensures raw == c.offset ==> p == 0.0
    ensures c.gain * (raw - c.offset) == 1.0 ==> p == PpmScale
  {
    (raw - c.offset) * c.gain * PpmScale
  }

  /** After point A at raw a, a reading of a calibrates to 0. */
  lemma ZeroAtPointA(c: Calibration, a: real)
    ensures Ppm(PointA(c, a), a) == 0.0
  {
  }

  /** After point B at raw != offset, a reading of raw calibrates to 1000. */
  lemma PointBReadsFullScale(c: Calibration, raw: real)
    ensures raw != c.offset ==> Ppm(PointB(c, raw), raw) == PpmScale
  {
  }

  /** After point A at a and point B at b != a, a reading of b calibrates to 1000. */
  lemma FullScaleAtPointB(c: Calibration, a: real, b: real)
    requires a != b
    ensures Ppm(PointB(PointA(c, a), b), b) == PpmScale
  {
  }

  /** After points A at a and B at b != a, the calibration is the straight line
      through (a, 0) and (b, 1000). */
  lemma TwoPointLine(c: Calibration, a: real, b: real, x: real)
    requires a != b
    ensures Ppm(PointB(PointA(c, a), b), x) == PpmScale * (x - a) / (b - a)
  {
    assert PointB(PointA(c, a), b) == Calibration(a, 1.0 / (b - a));
  }

  /** A rejected point B changes no later reading. */
  lemma RejectedPointBKeepsReadings(c: Calibration, x: real)
    ensures Ppm(PointB(c, c.offset), x) == Ppm(c, x)
  {
  }

  /** tds_save_calibration on the store contents `entries`: the offset is written
      first; if that fails, its error is returned and the gain is not written;
      otherwise the result is that of the gain write. */
  datatype SaveResult = SaveResult(err: EspErr, entries: map<string, real>)

  function Save(c: Calibration, entries: map<string, real>, st: Statuses): (o: SaveResult)
    ensures st.offsetStatus != Ok ==> o == SaveResult(st.offsetStatus, entries)
    ensures st.offsetStatus == Ok ==> o.err == st.gainStatus
    ensures o.err == Ok <==> st.offsetStatus == Ok && st.gainStatus == Ok
    ensures o.err == Ok ==> KeyOffset in o.entries && o.entries[KeyOffset] == c.offset
                            && KeyGain in o.entries && o.entries[KeyGain] == c.gain
    ensures o.err == Ok ==> o.entries.Keys == entries.Keys + {KeyOffset, KeyGain}
    ensures o.err == Ok ==> forall k :: k in entries && k != KeyOffset && k != KeyGain ==> o.entries[k] == entries[k]
    ensures st.offsetStatus == Ok && st.gainStatus != Ok ==> o.entries == Written(entries, KeyOffset, c.offset, Ok)
  {
    var e1 := Written(entries, KeyOffset, c.offset, st.offsetStatus);
    if st.offsetStatus != Ok then SaveResult(st.offsetStatus, entries)
    else SaveResult(st.gainStatus, Written(e1, KeyGain, c.gain, st.gainStatus))
  }

  /** tds_load_calibration: each field is replaced only when its own read
      succeeded; OK when at least one did, otherwise FAIL with nothing changed. */
  datatype LoadResult = LoadResult(err: EspErr, cal: Calibration)

  function Load(c: Calibration, entries: map<string, real>, st: Statuses): (o: LoadResult)
    ensures o.cal.offset == (if st.offsetStatus == Ok && KeyOffset in entries then entries[KeyOffset] else c.offset)
    ensures o.cal.gain == (if st.gainStatus == Ok && KeyGain in entries then entries[KeyGain] else c.gain)
    ensures o.err == Ok || o.err == Fail
    ensures o.err == Ok <==> (st.offsetStatus == Ok && KeyOffset in entries) || (st.gainStatus == Ok && KeyGain in entries)
    ensures o.err == Fail ==> o.cal == c
  {
    var r1 := ReadOutcome(entries, KeyOffset, st.offsetStatus);
    var r2 := ReadOutcome(entries, KeyGain, st.gainStatus);
    var offset := if r1 == Ok then entries[KeyOffset] else c.offset;
    var gain := if r2 == Ok then entries[KeyGain] else c.gain;
    LoadResult(if r1 == Ok || r2 == Ok then Ok else Fail, Calibration(offset, gain))
  }

  /** A successful save followed by a load with working NVS reads, into any
      engine state (a fresh one after reboot included), restores exactly the
      saved offset and gain. */
  lemma SaveLoadRoundTrip(c: Calibration, other: Calibration, entries: map<string, real>, st: Statuses)
    requires Save(c, entries, st).err == Ok
    ensures Load(other, Save(c, entries, st).entries, Statuses(Ok, Ok)) == LoadResult(Ok, c)
  {
  }

  /** Loading twice from the same store with the same NVS outcomes, as the node's
      start-up does, is the same as loading once. */
  lemma LoadIdempotent(c: Calibration, entries: map<string, real>, st: Statuses)
    ensures Load(Load(c, entries, st).cal, entries, st) == Load(c, entries, st)
  {
  }

  /** Everything a calibration command can change: the calibration, the last
      raw sample and the store contents. */
  datatype EngineState = EngineState(cal: Calibration, lastRaw: real, entries: map<string, real>)

  /** A fresh raw sample: the average of 20 ADC reads. */
  function RawSample(adc: AdcDriver.Sampler): real
  {
    AdcDriver.Average(RawSamples, adc) as real
  }

  /** Read a raw sample and make it calibration point A. */
  function CaptureA(s: EngineState, adc: AdcDriver.Sampler): (t: EngineState)
    ensures t.lastRaw == RawSample(adc) && t.entries == s.entries
    ensures t.cal == PointA(s.cal, t.lastRaw)
    ensures Ppm(t.cal, t.lastRaw) == 0.0
  {
    var raw := RawSample(adc);
    s.(cal := PointA(s.cal, raw), lastRaw := raw)
  }

  /** Read a raw sample and make it calibration point B. */
  function CaptureB(s: EngineState, adc: AdcDriver.Sampler): (t: EngineState)
    ensures t.lastRaw == RawSample(adc) && t.entries == s.entries
    ensures t.cal.offset == s.cal.offset
    ensures t.lastRaw != s.cal.offset ==> Ppm(t.cal, t.lastRaw) == PpmScale
    ensures t.lastRaw == s.cal.offset ==> t.cal == s.cal
  {
    var raw := RawSample(adc);
    PointBReadsFullScale(s.cal, raw);
    s.(cal := PointB(s.cal, raw), lastRaw := raw)
  }

  /** Persist the calibration; the error is what the save returned. */
  function Persist(s: EngineState, st: Statuses): (res: (EspErr, EngineState))
    ensures res.1.cal == s.cal && res.1.lastRaw == s.lastRaw
    ensures res.0 == Save(s.cal, s.entries, st).err
    ensures res.1.entries == Save(s.cal, s.entries, st).entries
  {
    var o := Save(s.cal, s.entries, st);
    (o.err, s.(entries := o.entries))
  }

  /** The module state of tds.c. */
  class TdsEngine {
    var offset: real
    var gain: real
    var lastRaw: real

    function Cal(): Calibration
      reads this
    {
      Calibration(offset, gain)
    }

    /** The engine together with the store it persists to. */
    function State(store: Nvs): EngineState
      reads this, store
    {
      EngineState(Cal(), lastRaw, store.entries)
    }

    /** The static initialisers. */
    constructor ()
      ensures Cal() == Default && lastRaw == 0.0
    {
      offset, gain, lastRaw := 0.0, 1.0, 0.0;
    }

    /** tds_init: loads the stored calibration, keeping the defaults for any field
        that could not be read. */
    method Init(store: Nvs, st: Statuses)
      modifies this`offset, this`gain
      ensures Cal() == Load(old(Cal()), store.entries, st).cal
    {
      var _ := LoadCalibration(store, st);
    }

    /** tds_read_raw: averages 20 ADC samples and remembers the result in last_raw. */
    method ReadRaw(adc: AdcDriver.Sampler) returns (raw: real)
      modifies this`lastRaw
      ensures raw == AdcDriver.Average(RawSamples, adc) as real
      ensures lastRaw == raw
    {
      var avg := AdcDriver.ReadRaw(RawSamples, adc);
      lastRaw := avg as real;
      raw := lastRaw;
    }

    /** tds_read_ppm: a fresh raw sample, calibrated with the current offset and gain. */
    method ReadPpm(adc: AdcDriver.Sampler) returns (ppm: real)
      modifies this`lastRaw
      ensures lastRaw == AdcDriver.Average(RawSamples, adc) as real
      ensures ppm == Ppm(Cal(), lastRaw)
    {
      var raw := ReadRaw(adc);
      ppm := Calibrated(raw);
    }

    /** The conversion step of tds_read_ppm: normalize, then scale to ppm. */
    method Calibrated(raw: real) returns (ppm: real)
      ensures ppm == Ppm(Cal(), raw)
      ensures raw == offset ==> ppm == 0.0
      ensures gain * (raw - offset) == 1.0 ==> ppm == PpmScale
      ensures raw != offset && gain != 0.0 ==> ppm != 0.0
    {
      var normalized := (raw - offset) * gain;
      ppm := normalized * PpmScale;
    }

    method SetCalibrationPointA(raw: real)
      modifies this`offset
      ensures Cal() == PointA(old(Cal()), raw)
    {
      offset := raw;
    }

    method SetCalibrationPointB(raw: real)
      modifies this`gain
      ensures Cal() == PointB(old(Cal()), raw)
    {
      if raw - offset == 0.0 {
        return;
      }
      gain := 1.0 / (raw - offset);
    }

    method SaveCalibration(store: Nvs, st: Statuses) returns (r: EspErr)
      modifies store
      ensures SaveResult(r, store.entries) == Save(Cal(), old(store.entries), st)
    {
      r := store.SaveFloat(KeyOffset, offset, st.offsetStatus);
      if r != Ok {
        return;
      }
      r := store.SaveFloat(KeyGain, gain, st.gainStatus);
    }

    method LoadCalibration(store: Nvs, st: Statuses) returns (r: EspErr)
      modifies this`offset, this`gain
      ensures LoadResult(r, Cal()) == Load(old(Cal()), store.entries, st)
    {
      var off, g := 0.0, 1.0;
      var r1, v1 := store.LoadFloat(KeyOffset, st.offsetStatus);
      if r1 == Ok { off := v1; }
      var r2, v2 := store.LoadFloat(KeyGain, st.gainStatus);
      if r2 == Ok { g := v2; }
      if r1 == Ok { offset := off; }
      if r2 == Ok { gain := g; }
      r := if r1 == Ok || r2 == Ok then Ok else Fail;
    }
  }
}
