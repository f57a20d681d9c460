/**
 * iodevice::Controller: an I/O device holding `numAI` analog channels in
 * `inData` and `numDI` discrete bits in `inBits`. Reads are bounds-checked
 * and write through an out-pointer only when they succeed; the device index
 * accepts 0 through 31.
 *
 * An out-pointer is an Option holding the pointee's current value (None is
 * a null pointer); a read returns the pointee's value after the call.
 */
module IoDeviceController {
  import opened Common

  /** The highest device index setDeviceIndex() accepts. */
  const MaxDeviceIndex: int := 31

  class Controller {
    var deviceIndex: uint32
    var numAI: uint16
    var inData: array<real>
    var numDI: uint16
    var inBits: array<bool>

    /** The channel counts never exceed the buffers that hold the channels. */
    ghost predicate Valid()
      reads this
    {
      numAI <= inData.Length && numDI <= inBits.Length
    }

    /** A device with the given channel counts, all channels zero, index 0. */
    constructor (analogChannels: uint16, discreteChannels: uint16)
      ensures Valid() && fresh(inData) && fresh(inBits)
      ensures deviceIndex == 0 && numAI == analogChannels && numDI == discreteChannels
    {
      deviceIndex := 0;
      numAI := analogChannels;
      inData := new real[analogChannels](_ => 0.0);
      numDI := discreteChannels;
      inBits := new bool[discreteChannels](_ => false);
    }

    function GetNumDiscreteInputChannels(): uint16
      reads this
    {
      numDI
    }

    /** A controller has a single discrete input port. */
    function GetNumDiscreteInputPorts(): (n: uint16)
      ensures n == 1
    {
      1
    }

    function GetNumAnalogInputs(): uint16
      reads this
    {
      numAI
    }

    function GetDeviceIndex(): uint32
      reads this
    {
      deviceIndex
    }

    /** getDiscreteInput(): the port argument is ignored. */
    method GetDiscreteInput(value: Option<bool>, bit: uint32, port: uint32) returns (ok: bool, written: Option<bool>)
      requires Valid()
      ensures ok <==> value.Some? && bit < numDI
      ensures ok ==> written == Some(inBits[bit])
      ensures !ok ==> written == value
    {
      ok := false;
      written := value;
      if value.Some? && bit < numDI as int {
        written := Some(inBits[bit]);
        ok := true;
      }
    }

    /** getAnalogInput(). */
    method GetAnalogInput(value: Option<real>, channel: uint32) returns (ok: bool, written: Option<real>)
      requires Valid()
      ensures ok <==> value.Some? && channel < numAI
      ensures ok ==> written == Some(inData[channel])
      ensures !ok ==> written == value
    {
      ok := false;
      written := value;
      if value.Some? && channel < numAI as int {
        written := Some(inData[channel]);
        ok := true;
      }
    }

    /** setDeviceIndex(): only 0 .. 31 are device indices. */
    method SetDeviceIndex(v: int32) returns (ok: bool)
      modifies this
      ensures ok <==> 0 <= v <= MaxDeviceIndex
      ensures deviceIndex == if ok then v else old(deviceIndex)
      ensures numAI == old(numAI) && numDI == old(numDI) && inData == old(inData) && inBits == old(inBits)
    {
      ok := false;
      if v >= 0 && v <= MaxDeviceIndex {
        deviceIndex := v;
        ok := true;
      }
    }

    /** setSlotDeviceIndex(): a null number is refused, any other goes to setDeviceIndex(). */
    method SetSlotDeviceIndex(msg: Option<int32>) returns (ok: bool)
      modifies this
      ensures ok <==> msg.Some? && 0 <= msg.value <= MaxDeviceIndex
      ensures deviceIndex == if ok then msg.value else old(deviceIndex)
      ensures numAI == old(numAI) && numDI == old(numDI) && inData == old(inData) && inBits == old(inBits)
    {
      ok := false;
      if msg.Some? {
        ok := SetDeviceIndex(msg.value);
      }
    }
  }
}
