/**
 * iodevice::Ai2DiSwitch: turns one analog input channel of a device into
 * one discrete input bit. The bit is (value >= level), inverted when the
 * `invert` flag is set. The device is read only once a channel has been
 * configured (`devEnb`); otherwise the analog value is taken as 0.
 */
module IoDeviceAi2DiSwitch {
  import opened Common
  import opened IoDeviceController

  /** base::IoData, reduced to its discrete inputs: channel -> bit. */
  class IoData {
    var discreteInputs: map<nat, bool>

    constructor ()
      ensures discreteInputs == map[]
    {
      discreteInputs := map[];
    }

    method SetDiscreteInput(channel: nat, value: bool)
      modifies this
      ensures discreteInputs == old(discreteInputs)[channel := value]
    {
      discreteInputs := discreteInputs[channel := value];
    }
  }

  /** The discrete bit for analog value `vin`. */
  function SwitchFlag(vin: real, level: real, invert: bool): (flag: bool)
    ensures !invert ==> (flag <==> vin >= level)
    ensures invert ==> (flag <==> vin < level)
  {
    var flag := vin >= level;
    if invert then !flag else flag
  }

  /** Setting the inverted flag flips every bit. */
  lemma InvertFlips(vin: real, level: real)
    ensures SwitchFlag(vin, level, true) == !SwitchFlag(vin, level, false)
  {
  }

  /** Without inversion the bit is monotone in the analog value. */
  lemma SwitchMonotone(v1: real, v2: real, level: real)
    requires v1 <= v2
    ensures SwitchFlag(v1, level, false) ==> SwitchFlag(v2, level, false)
    ensures SwitchFlag(v2, level, true) ==> SwitchFlag(v1, level, true)
  {
  }

  class Ai2DiSwitch {
    var devEnb: bool
    var location: uint32
    var channel: uint32
    var level: real
    var invert: bool

    /** The constructor runs initData(): disabled, location 0, channel 0, level 0, not inverted. */
    constructor ()
      ensures !devEnb && location == 0 && channel == 0 && level == 0.0 && !invert
    {
      devEnb := false;
      location := 0;
      channel := 0;
      level := 0.0;
      invert := false;
    }

    function GetLocation(): uint32
      reads this
    {
      location
    }

    function GetChannel(): uint32
      reads this
    {
      channel
    }

    function GetLevel(): real
      reads this
    {
      level
    }

    function GetInvertFlag(): bool
      reads this
    {
      invert
    }

    method SetLocation(v: uint32) returns (ok: bool)
      modifies this
      ensures ok && location == v
      ensures devEnb == old(devEnb) && channel == old(channel) && level == old(level) && invert == old(invert)
    {
      location := v;
      ok := true;
    }

    /** setChannel(): configuring a channel also enables the device read. */
    method SetChannel(v: uint32) returns (ok: bool)
      modifies this
      ensures ok && channel == v && devEnb
      ensures location == old(location) && level == old(level) && invert == old(invert)
    {
      channel := v;
      devEnb := true;
      ok := true;
    }

    method SetLevel(v: real) returns (ok: bool)
      modifies this
      ensures ok && level == v
      ensures devEnb == old(devEnb) && location == old(location) && channel == old(channel) && invert == old(invert)
    {
      level := v;
      ok := true;
    }

    method SetInvertFlag(f: bool) returns (ok: bool)
      modifies this
      ensures ok && invert == f
      ensures devEnb == old(devEnb) && location == old(location) && channel == old(channel) && level == old(level)
    {
      invert := f;
      ok := true;
    }

    /**
     * processInputs(): read the analog value (0 unless a device is given and
     * enabled and the read succeeds) and, when `inData` is given, write the
     * switched bit at `location`.
     */
    method ProcessInputs(dt: real, device: Controller?, inData: IoData?)
      requires device != null ==> device.Valid()
      modifies inData
      ensures inData != null ==>
        var vin := if device != null && devEnb && channel < device.numAI then device.inData[channel] else 0.0;
        inData.discreteInputs == old(inData.discreteInputs)[location := SwitchFlag(vin, level, invert)]
    {
      var vin := 0.0;
      if device != null && devEnb {
        var _, written := device.GetAnalogInput(Some(vin), channel);
        vin := written.value;
      }
      if inData != null {
        var flag := vin >= level;
        if invert {
          flag := !flag;
        }
        inData.SetDiscreteInput(location, flag);
      }
    }

    /** setSlotLocation(): a null or negative number is refused. */
    method SetSlotLocation(msg: Option<int32>) returns (ok: bool)
      modifies this
      ensures ok <==> msg.Some? && msg.value >= 0
      ensures location == if ok then msg.value else old(location)
      ensures devEnb == old(devEnb) && channel == old(channel) && level == old(level) && invert == old(invert)
    {
      ok := false;
      if msg.Some? {
        var v := msg.value;
        if v >= 0 {
          ok := SetLocation(v);
        }
      }
    }

    /** setSlotChannel(): a null or negative number is refused; otherwise setChannel(). */
    method SetSlotChannel(msg: Option<int32>) returns (ok: bool)
      modifies this
      ensures ok <==> msg.Some? && msg.value >= 0
      ensures ok ==> channel == msg.value && devEnb
      ensures !ok ==> channel == old(channel) && devEnb == old(devEnb)
      ensures location == old(location) && level == old(level) && invert == old(invert)
    {
      ok := false;
      if msg.Some? {
        var v := msg.value;
        if v >= 0 {
          ok := SetChannel(v);
        }
      }
    }

    /** setSlotLevel(): any number is accepted, a null one refused. */
    method SetSlotLevel(msg: Option<real>) returns (ok: bool)
      modifies this
      ensures ok <==> msg.Some?
      ensures level == if ok then msg.value else old(level)
      ensures devEnb == old(devEnb) && location == old(location) && channel == old(channel) && invert == old(invert)
    {
      ok := false;
      if msg.Some? {
        ok := SetLevel(msg.value);
      }
    }

    /** setSlotInverted(): the number's boolean value; a null number is refused. */
    method SetSlotInverted(msg: Option<bool>) returns (ok: bool)
      modifies this
      ensures ok <==> msg.Some?
      ensures invert == if ok then msg.value else old(invert)
      ensures devEnb == old(devEnb) && location == old(location) && channel == old(channel) && level == old(level)
    {
      ok := false;
      if msg.Some? {
        ok := SetInvertFlag(msg.value);
      }
    }
  }
}
