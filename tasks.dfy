/** The tasks component of the cistern node: the pump relay, the shared sensor record
    guarded by a mutex, and one iteration of the periodic sensor reader. The
    mutex is reduced to whether it exists and whether a wait for it succeeded. */
module Tasks {
  import opened Esp
  import opened Storage
  import AdcDriver
  import Tds
  import opened Sensor

  /** task_config_t, without the sampling interval (timing is not modelled). */
  datatype TaskConfig = TaskConfig(trigPin: int, echoPin: int, tdsAdcPin: int, pumpRelayPin: int)

  /** The outcomes of the external calls tasks_init makes, in call order. */
  datatype InitStatuses = InitStatuses(
    mutexCreated: bool,
    trigStatus: EspErr, echoStatus: EspErr,
    firstLoad: Tds.Statuses, secondLoad: Tds.Statuses,
    relayGpioStatus: EspErr)

  /** One `gpio_set_level(pin, level)` call. */
  datatype GpioWrite = GpioWrite(pin: int, level: int)

  /** The GPIO trace after `tasks_set_pump_relay(enable)` with the relay on `pin`
      in state `state`: one write of the new level, and only when the pin is
      configured and the state changes. */
  function RelayWritesAfter(pin: int, state: bool, writes: seq<GpioWrite>, enable: bool): (w: seq<GpioWrite>)
    ensures |writes| <= |w| <= |writes| + 1 && w[..|writes|] == writes
    ensures |w| == |writes| + 1 <==> pin >= 0 && state != enable
    ensures |w| == |writes| + 1 ==> w[|writes|].pin == pin && (w[|writes|].level == 1 <==> enable)
  {
    if pin >= 0 && state != enable then writes + [GpioWrite(pin, if enable then 1 else 0)] else writes
  }

  class TaskSystem {
    var sensorData: SensorData
    var hasMutex: bool
    var relayPin: int
    var relayState: bool
    /** Every level written to the relay pin, oldest first. */
    var relayWrites: seq<GpioWrite>
    const sensors: Sensors

    constructor ()
      ensures sensorData == Zeroed && !hasMutex && relayPin == -1 && !relayState && relayWrites == []
      ensures fresh(sensors) && fresh(sensors.tds)
      ensures sensors.trigPin == -1 && sensors.echoPin == -1 && sensors.tds.Cal() == Tds.Default
    {
      sensorData, hasMutex, relayPin, relayState, relayWrites := Zeroed, false, -1, false, [];
      sensors := new Sensors();
    }

    /** tasks_init: NULL is rejected first; the relay pin is recorded only after
        the mutex and the sensors were set up, and a fully successful call leaves
        the relay off. */
    method Init(config: Ptr<TaskConfig>, st: InitStatuses, store: Nvs) returns (r: EspErr)
      modifies this, sensors, sensors.tds
      ensures config == Null ==> r == InvalidArg && relayPin == old(relayPin) && hasMutex == old(hasMutex)
                                 && sensors.tds.Cal() == old(sensors.tds.Cal())
      ensures config != Null ==> hasMutex == st.mutexCreated
      ensures config != Null && !st.mutexCreated ==> r == Fail && relayPin == old(relayPin)
      ensures config != Null && st.mutexCreated && st.trigStatus != Ok ==> r == st.trigStatus && relayPin == old(relayPin)
      ensures config != Null && st.mutexCreated && st.trigStatus == Ok && st.echoStatus != Ok ==>
                r == st.echoStatus && relayPin == old(relayPin)
      ensures config != Null && st.mutexCreated && st.trigStatus == Ok && st.echoStatus == Ok ==>
                r == st.relayGpioStatus && relayPin == config.target.pumpRelayPin
      ensures r == Ok <==> config != Null && st.mutexCreated && st.trigStatus == Ok && st.echoStatus == Ok
                           && st.relayGpioStatus == Ok
      ensures r == Ok ==> relayPin == config.target.pumpRelayPin && !relayState
                          && relayWrites == old(relayWrites) + [GpioWrite(relayPin, 0)]
                          && sensors.trigPin == config.target.trigPin && sensors.echoPin == config.target.echoPin
      ensures r != Ok ==> relayState == old(relayState) && relayWrites == old(relayWrites)
      ensures sensorData == old(sensorData)
      ensures config == Null || !st.mutexCreated ==>
                sensors.trigPin == old(sensors.trigPin) && sensors.echoPin == old(sensors.echoPin)
                && sensors.adcChannel == old(sensors.adcChannel)
      ensures config != Null && st.mutexCreated ==>
                sensors.trigPin == config.target.trigPin && sensors.echoPin == config.target.echoPin
                && sensors.adcChannel == config.target.tdsAdcPin
      ensures (config == Null || !st.mutexCreated || st.trigStatus != Ok || st.echoStatus != Ok) ==>
                sensors.tds.Cal() == old(sensors.tds.Cal())
      ensures config != Null && st.mutexCreated && st.trigStatus == Ok && st.echoStatus == Ok ==>
                sensors.tds.Cal() == Tds.Load(Tds.Load(old(sensors.tds.Cal()), store.entries, st.firstLoad).cal,
                                              store.entries, st.secondLoad).cal
      ensures sensors.tds.lastRaw == old(sensors.tds.lastRaw)
    {
      if config == Null {
        return InvalidArg;
      }
      hasMutex := st.mutexCreated;
      if !hasMutex {
        return Fail;
      }
      var cfg := config.target;
      r := sensors.Init(cfg.trigPin, cfg.echoPin, cfg.tdsAdcPin, st.trigStatus, st.echoStatus,
                        store, st.firstLoad, st.secondLoad);
      if r != Ok {
        return;
      }
      relayPin := cfg.pumpRelayPin;
      if st.relayGpioStatus != Ok {
        return st.relayGpioStatus;
      }
      relayWrites := relayWrites + [GpioWrite(relayPin, 0)];
      relayState := false;
      r := Ok;
    }

    /** tasks_set_pump_relay: refused while the pin is not configured; writes the
        GPIO only when the requested state differs from the current one. */
    method SetPumpRelay(enable: bool) returns (r: EspErr)
      modifies this`relayState, this`relayWrites
      ensures relayPin < 0 ==> r == InvalidState && relayState == old(relayState) && relayWrites == old(relayWrites)
      ensures relayPin >= 0 ==> r == Ok && relayState == enable
      ensures relayPin >= 0 && old(relayState) != enable ==>
                relayWrites == old(relayWrites) + [GpioWrite(relayPin, if enable then 1 else 0)]
      ensures old(relayState) == enable ==> relayWrites == old(relayWrites) && relayState == enable
      ensures relayWrites == RelayWritesAfter(relayPin, old(relayState), old(relayWrites), enable)
    {
      if relayPin < 0 {
        return InvalidState;
      }
      if relayState != enable {
        relayWrites := relayWrites + [GpioWrite(relayPin, if enable then 1 else 0)];
        relayState := enable;
      }
      r := Ok;
    }

    /** tasks_get_pump_relay_state. */
    function PumpRelayState(): bool
      reads this
    {
      relayState
    }

    /** tasks_read_sensor_data: NULL, then a missing mutex, then a lock timeout are
        reported in that order, each leaving the destination untouched; on success
        the destination is a copy of the shared record. */
    method ReadSensorData(dest: Ptr<SensorData>, lockAcquired: bool) returns (r: EspErr, out: Ptr<SensorData>)
      ensures dest == Null ==> r == InvalidArg
      ensures dest != Null && !hasMutex ==> r == InvalidState
      ensures dest != Null && hasMutex && !lockAcquired ==> r == Timeout
      ensures r != Ok ==> out == dest
      ensures r == Ok <==> dest != Null && hasMutex && lockAcquired
      ensures r == Ok ==> out == Ref(sensorData)
    {
      if dest == Null {
        return InvalidArg, dest;
      }
      if !hasMutex {
        return InvalidState, dest;
      }
      if lockAcquired {
        return Ok, Ref(sensorData);
      }
      return Timeout, dest;
    }

    /** One iteration of task_sensor_read_loop: read every sensor into a local
        record, then publish it to the shared record only if the lock was
        obtained. */
    method SensorLoopStep(nowUs: nat, echo: EchoOutcome, adc: AdcDriver.Sampler, lockAcquired: bool)
      modifies this`sensorData, sensors.tds`lastRaw
      ensures sensors.tds.lastRaw == AdcDriver.Average(Tds.RawSamples, adc) as real
      ensures lockAcquired ==> sensorData == Record(sensors.LevelStatus(echo), Distance(echo),
                                                    Tds.Ppm(sensors.tds.Cal(), sensors.tds.lastRaw), nowUs)
      ensures !lockAcquired ==> sensorData == old(sensorData)
    {
      var err, local := sensors.ReadAll(Ref(Zeroed), nowUs, echo, adc);
      if err == Ok {
        if lockAcquired {
          sensorData := local.target;
        }
      }
    }
  }
}
