/** The sensor component of the cistern node: water-quality classification,
    the ultrasonic level read (its pulse timing reduced to an outcome), the
    clamped TDS read, the assembled sensor record and the calibration command
    wrappers. */
module Sensor {
  import opened Esp
  import opened Storage
  import AdcDriver
  import Tds

  /** water_state_t; its C value is `Index`. */
  datatype WaterState = Clean | Medium | Dirty

  function Index(s: WaterState): (i: nat)
    ensures i <= 2
  {
    match s
    case Clean => 0
    case Medium => 1
    case Dirty => 2
  }

  const CleanBelow: real := 300.0
  const DirtyAbove: real := 600.0

  /** sensor_classify_water_quality. */
  function Classify(tds: real): (s: WaterState)
    ensures s == Clean <==> tds < CleanBelow
    ensures s == Medium <==> CleanBelow <= tds <= DirtyAbove
    ensures s == Dirty <==> tds > DirtyAbove
  {
    if tds < 300.0 then Clean
    else if tds <= 600.0 then Medium
    else Dirty
  }

  /** A larger TDS value never classifies as cleaner water. */
  lemma ClassifyMonotone(a: real, b: real)
    requires a <= b
    ensures Index(Classify(a)) <= Index(Classify(b))
  {
  }

  /** sensor_data_t. */
  datatype SensorData = SensorData(waterLevel: real, tdsValue: real, waterState: WaterState, timestamp: nat)

  /** The contents after `memset(data, 0, sizeof(sensor_data_t))`. */
  const Zeroed: SensorData := SensorData(0.0, 0.0, Clean, 0)

  /** The sentinel stored for a failed level or TDS read. */
  const FailedReading: real := -1.0

  /** What the echo pulse measurement produced: a timeout while waiting for the
      echo to rise, a timeout while waiting for it to fall, or a distance. */
  datatype EchoOutcome = RiseTimeout | FallTimeout | Measured(distanceCm: real)

  /** The seconds timestamp `(uint32_t)(esp_timer_get_time() / 1000000)`. */
  function Timestamp(nowUs: nat): (t: nat)
    ensures t < U32Modulus
    ensures nowUs < 1000000 * U32Modulus ==> t * 1000000 <= nowUs < (t + 1) * 1000000
  {
    ToU32(nowUs / 1000000)
  }

  /** negative ppm is reported as 0 */
  function ClampPpm(ppm: real): (v: real)
    ensures v >= 0.0
    ensures ppm >= 0.0 ==> v == ppm
    ensures ppm < 0.0 ==> v == 0.0
  {
    if ppm < 0.0 then 0.0 else ppm
  }

  /** The record sensor_read_all fills: the level, or -1 if the ultrasonic read
      failed; the clamped ppm; its class; the timestamp. */
  function Record(level: EspErr, distance: real, ppm: real, nowUs: nat): (d: SensorData)
    ensures level == Ok ==> d.waterLevel == distance
    ensures level != Ok ==> d.waterLevel == FailedReading
    ensures d.tdsValue >= 0.0 && d.waterState == Classify(d.tdsValue)
    ensures ppm >= 0.0 ==> d.tdsValue == ppm
    ensures ppm < 0.0 ==> d.tdsValue == 0.0 && d.waterState == Clean
    ensures d.timestamp == Timestamp(nowUs)
  {
    var waterLevel := if level == Ok then distance else -1.0;
    var tdsValue := ClampPpm(ppm);
    var waterState := if tdsValue >= 0.0 then Classify(tdsValue) else Clean;
    SensorData(waterLevel, tdsValue, waterState, Timestamp(nowUs))
  }

  /** The module state of sensor.c: the configured pins and the TDS engine it
      drives. */
  class Sensors {
    var trigPin: int
    var echoPin: int
    var adcChannel: int
    const tds: Tds.TdsEngine

    constructor ()
      ensures trigPin == -1 && echoPin == -1 && adcChannel == -1
      ensures fresh(tds) && tds.Cal() == Tds.Default
    {
      trigPin, echoPin, adcChannel := -1, -1, -1;
      tds := new Tds.TdsEngine();
    }

    /** sensor_init: stores the pins first, then configures TRIG and ECHO
        (returning the first GPIO error), then loads the calibration twice:
        once in tds_init and once directly. */
    method Init(trig: int, echo: int, adcPin: int, trigStatus: EspErr, echoStatus: EspErr,
                store: Nvs, firstLoad: Tds.Statuses, secondLoad: Tds.Statuses) returns (r: EspErr)
      modifies this, tds
      ensures trigPin == trig && echoPin == echo && adcChannel == adcPin
      ensures r == (if trigStatus != Ok then trigStatus else echoStatus)
      ensures r != Ok ==> tds.Cal() == old(tds.Cal())
      ensures r == Ok ==> tds.Cal() == Tds.Load(Tds.Load(old(tds.Cal()), store.entries, firstLoad).cal,
                                                store.entries, secondLoad).cal
      ensures r == Ok && firstLoad == secondLoad ==>
                tds.Cal() == Tds.Load(old(tds.Cal()), store.entries, firstLoad).cal
      ensures tds.lastRaw == old(tds.lastRaw)
    {
      trigPin, echoPin, adcChannel := trig, echo, adcPin;
      if trigStatus != Ok {
        return trigStatus;
      }
      if echoStatus != Ok {
        return echoStatus;
      }
      ghost var before := tds.Cal();
      tds.Init(store, firstLoad);
      var _ := tds.LoadCalibration(store, secondLoad);
      Tds.LoadIdempotent(before, store.entries, firstLoad);
      r := Ok;
    }

    /** sensor_read_ultrasonic: a NULL destination is rejected before an
        unconfigured sensor; a timeout stores 0.0. The returned pointer is the
        destination as the call leaves it. */
    method ReadUltrasonic(dest: Ptr<real>, echo: EchoOutcome) returns (r: EspErr, out: Ptr<real>)
      ensures dest == Null ==> r == InvalidArg && out == dest
      ensures dest != Null && (trigPin < 0 || echoPin < 0) ==> r == InvalidState && out == dest
      ensures dest != Null && trigPin >= 0 && echoPin >= 0 ==>
                match echo
                case Measured(d) => r == Ok && out == Ref(d)
                case _ => r == Timeout && out == Ref(0.0)
    {
      if dest == Null {
        return InvalidArg, dest;
      }
      if trigPin < 0 || echoPin < 0 {
        return InvalidState, dest;
      }
      match echo
      case RiseTimeout =>
        return Timeout, Ref(0.0);
      case FallTimeout =>
        return Timeout, Ref(0.0);
      case Measured(d) =>
        return Ok, Ref(d);
    }

    /** sensor_read_tds: NULL is rejected without touching the sensor; otherwise
        the calibrated reading, clamped at 0, and always OK. */
    method ReadTds(dest: Ptr<real>, adc: AdcDriver.Sampler) returns (r: EspErr, out: Ptr<real>)
      modifies tds`lastRaw
      ensures dest == Null ==> r == InvalidArg && out == dest && tds.lastRaw == old(tds.lastRaw)
      ensures dest != Null ==> r == Ok && tds.lastRaw == AdcDriver.Average(Tds.RawSamples, adc) as real
                               && out == Ref(ClampPpm(Tds.Ppm(tds.Cal(), tds.lastRaw)))
    {
      if dest == Null {
        return InvalidArg, dest;
      }
      var ppm := tds.ReadPpm(adc);
      if ppm < 0.0 {
        ppm := 0.0;
      }
      return Ok, Ref(ppm);
    }

    /** sensor_read_all: OK for every non-NULL destination, whatever the sensors do. */
    method ReadAll(dest: Ptr<SensorData>, nowUs: nat, echo: EchoOutcome, adc: AdcDriver.Sampler)
      returns (r: EspErr, out: Ptr<SensorData>)
      modifies tds`lastRaw
      ensures dest == Null ==> r == InvalidArg && out == dest && tds.lastRaw == old(tds.lastRaw)
      ensures dest != Null ==> r == Ok && tds.lastRaw == AdcDriver.Average(Tds.RawSamples, adc) as real
      ensures dest != Null ==> out == Ref(Record(LevelStatus(echo), Distance(echo),
                                                 Tds.Ppm(tds.Cal(), tds.lastRaw), nowUs))
    {
      if dest == Null {
        return InvalidArg, dest;
      }
      var data := Zeroed;
      data := data.(timestamp := Timestamp(nowUs));
      var ret, level := ReadUltrasonic(Ref(data.waterLevel), echo);
      data := data.(waterLevel := level.target);
      if ret != Ok {
        data := data.(waterLevel := -1.0);
      }
      var tdsRet, tdsOut := ReadTds(Ref(data.tdsValue), adc);
      data := data.(tdsValue := tdsOut.target);
      if tdsRet != Ok {
        data := data.(tdsValue := -1.0);
      }
      if data.tdsValue >= 0.0 {
        data := data.(waterState := Classify(data.tdsValue));
      } else {
        data := data.(waterState := Clean);
      }
      return Ok, Ref(data);
    }

    /** The status the ultrasonic read reports for a non-NULL destination. */
    function LevelStatus(echo: EchoOutcome): (r: EspErr)
      reads this
      ensures r == Ok <==> trigPin >= 0 && echoPin >= 0 && echo.Measured?
      ensures r == InvalidState <==> trigPin < 0 || echoPin < 0
      ensures r == Ok || r == InvalidState || r == Timeout
    {
      if trigPin < 0 || echoPin < 0 then InvalidState
      else if echo.Measured? then Ok
      else Timeout
    }

    /** sensor_do_calA: one fresh raw sample becomes calibration point A. */
    method DoCalA(adc: AdcDriver.Sampler)
      modifies tds
      ensures tds.lastRaw == AdcDriver.Average(Tds.RawSamples, adc) as real
      ensures tds.Cal() == Tds.PointA(old(tds.Cal()), tds.lastRaw)
    {
      var raw := tds.ReadRaw(adc);
      tds.SetCalibrationPointA(raw);
    }

    /** sensor_do_calB: one fresh raw sample becomes calibration point B. */
    method DoCalB(adc: AdcDriver.Sampler)
      modifies tds
      ensures tds.lastRaw == AdcDriver.Average(Tds.RawSamples, adc) as real
      ensures tds.Cal() == Tds.PointB(old(tds.Cal()), tds.lastRaw)
    {
      var raw := tds.ReadRaw(adc);
      tds.SetCalibrationPointB(raw);
    }

    /** sensor_do_save: persists the calibration; the outcome is only logged. */
    method DoSave(store: Nvs, st: Tds.Statuses)
      modifies store
      ensures store.entries == Tds.Save(tds.Cal(), old(store.entries), st).entries
    {
      var _ := tds.SaveCalibration(store, st);
    }

    /** sensor_do_show: reports offset and gain and changes nothing. */
    method DoShow() returns (offset: real, gain: real)
      ensures Tds.Calibration(offset, gain) == tds.Cal()
    {
      offset, gain := tds.offset, tds.gain;
    }
  }

  /** The distance the ultrasonic read stores when it succeeds. */
  function Distance(echo: EchoOutcome): real
  {
    if echo.Measured? then echo.distanceCm else 0.0
  }
}
