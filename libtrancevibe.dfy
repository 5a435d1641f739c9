/**
  The TranceVibrator driver: enumeration of the attached TranceVibrators,
  opening one of them by its bus/address, and setting its speed with one
  vendor control transfer.
*/
module TranceVibe {
  import opened Wrappers
  import opened Usb
  import opened DeviceFilter

  /**
    `TranceVibeDeviceInfo`: a TranceVibrator found by enumeration, known only
    by where it is attached (several units share the vendor/product pair and
    carry no serial number). Building one is the constructor `Location(bus,
    address)`; the libusb context the original keeps beside these two fields
    is not modelled (see `Open`).
  */
  type DeviceInfo = Location

  /** `TranceVibeDevice`: an opened TranceVibrator, owning its handle. */
  datatype Device = Device(handle: Handle)

  /** Request code of the speed command. */
  const SET_SPEED: Byte := 1
  /** Timeout of every speed command: one second. */
  const SET_TIMEOUT_MS: nat := 1000

  /**
    `get_devices`: creates a libusb context (`init` is the outcome), lists
    the attached devices (`listing`), and returns the location of every
    TranceVibrator among them in enumeration order. Any failure, including
    a failed descriptor read on any one device, aborts the call with that
    error.
  */
  method GetDevices(init: Result<(), UsbError>, listing: Listing) returns (r: Result<seq<DeviceInfo>, UsbError>)
    ensures init.Failure? ==> r == Failure(init.error)
    ensures init.Success? && listing.Failure? ==> r == Failure(listing.error)
    ensures init.Success? && listing.Success? ==>
      var devs := listing.value;
      var k := FirstFailure(devs);
      r == if k < |devs| then Failure(devs[k].descriptor.error) else Success(Locations(devs))
  {
    if init.Failure? {
      return Failure(init.error);
    }
    if listing.Failure? {
      return Failure(listing.error);
    }
    var devs := listing.value;
    var devices: seq<DeviceInfo> := [];
    var i := 0;
    while i < |devs|
      invariant 0 <= i <= |devs|
      invariant forall j :: 0 <= j < i ==> devs[j].descriptor.Success?
      invariant devices == Locations(devs[..i])
    {
      var device := devs[i];
      assert devs[..i + 1][..i] == devs[..i];
      if device.descriptor.Failure? {
        return Failure(device.descriptor.error);
      }
      var desc := device.descriptor.value;
      i := i + 1;
      if desc.vendorId != VID || desc.productId != PID {
        continue;
      }
      devices := devices + [Location(device.busNumber, device.address)];
    }
    assert devs[..i] == devs;
    return Success(devices);
  }

  /**
    `TranceVibeDeviceInfo::open`: lists the devices again (`listing` is what
    the info's libusb context reports now) and opens the first one that is a
    TranceVibrator at `info`'s bus and address. A failed descriptor read
    ends the scan with that error; a failed open returns that error without
    looking further; no match at all is `NoDevice`. `info` itself is a
    value and is left as it was.
  */
  method Open(info: DeviceInfo, listing: Listing) returns (r: Result<Device, UsbError>)
    ensures listing.Failure? ==> r == Failure(listing.error)
    ensures listing.Success? ==>
      var devs := listing.value;
      var k := FirstStop(devs, info);
      r == if k == |devs| then Failure(NoDevice)
           else if devs[k].descriptor.Failure? then Failure(devs[k].descriptor.error)
           else match devs[k].openOutcome
             case Success(h) => Success(Device(h))
             case Failure(e) => Failure(e)
  {
    if listing.Failure? {
      return Failure(listing.error);
    }
    var devs := listing.value;
    var i := 0;
    while i < |devs|
      invariant 0 <= i <= |devs|
      invariant forall j :: 0 <= j < i ==> devs[j].descriptor.Success? && !IsAt(devs[j], info)
    {
      var dev := devs[i];
      if dev.descriptor.Failure? {
        return Failure(dev.descriptor.error);
      }
      var desc := dev.descriptor.value;
      if desc.vendorId != VID || desc.productId != PID ||
         dev.busNumber != info.busNumber || dev.address != info.address {
        i := i + 1;
        continue;
      }
      match dev.openOutcome {
        case Success(h) => return Success(Device(h));
        case Failure(e) => return Failure(e);
      }
    }
    return Failure(NoDevice);
  }

  /** The control request that sets the speed: vendor, to the interface, no payload. */
  function SpeedRequest(speed: Byte): (req: ControlRequest)
    ensures DecodeSpeed(req) == Some(speed)
  {
    ControlRequest(RequestType(Out, Vendor, ToInterface), SET_SPEED, speed, 0, [], SET_TIMEOUT_MS)
  }

  /** The speed a control request sets, if it is a speed command at all. */
  function DecodeSpeed(req: ControlRequest): Option<Byte>
  {
    if req.requestType == RequestType(Out, Vendor, ToInterface) && req.request == SET_SPEED &&
       req.index == 0 && req.data == [] && req.timeoutMs == SET_TIMEOUT_MS && req.value < 0x100
    then Some(req.value)
    else None
  }

  /** A speed command is fully determined by its speed: the encoding has no other freedom. */
  lemma SpeedRequestUnique(req: ControlRequest, speed: Byte)
    requires DecodeSpeed(req) == Some(speed)
    ensures req == SpeedRequest(speed)
  {
  }

  /** The wire fields of the speed command, as bytes. */
  lemma SpeedRequestFields(speed: Byte)
    ensures var req := SpeedRequest(speed);
      req.requestType == 0x41 && req.request == 1 && req.value == speed &&
      req.index == 0 && req.data == [] && req.timeoutMs == 1000
  {
    var b := RequestType(Out, Vendor, ToInterface);
    assert b == 0x41;
  }

  /** What one call of `set` did: the control writes it issued, and what it returned. */
  datatype SetCall = SetCall(issued: seq<Transfer>, result: Result<nat, UsbError>)

  /**
    `TranceVibeDevice::set`: one control write on the device's handle that
    carries `speed` as its value; `writeControl` is the transport, and its
    reply (bytes written, or the error) is returned unchanged.
  */
  function Set(dev: Device, speed: Byte, writeControl: Transfer -> Result<nat, UsbError>): (call: SetCall)
    ensures |call.issued| == 1
    ensures call.issued[0].handle == dev.handle
    ensures DecodeSpeed(call.issued[0].request) == Some(speed)
    ensures call.result == writeControl(call.issued[0])
  {
    var transfer := Transfer(dev.handle, SpeedRequest(speed));
    SetCall([transfer], writeControl(transfer))
  }

  /**
    One TranceVibrator at bus 1, address 5: it is enumerated, opened, and
    driven to full speed and back to rest.
  */
  method SingleDeviceScenario()
  {
    var unit := DeviceRecord(Success(Descriptor(VID, PID)), 1, 5, Success(Handle(7)));
    var other := DeviceRecord(Success(Descriptor(0x046d, 0xc52b)), 1, 2, Success(Handle(8)));
    var listing: Listing := Success([other, unit]);
    assert FirstFailure([other, unit]) == 2;
    assert [other, unit][..1] == [other];
    assert Locations([other, unit]) == [Location(1, 5)];
    var infos := GetDevices(Success(()), listing);
    assert infos == Success([Location(1, 5)]);
    assert FirstStop([other, unit], Location(1, 5)) == 1;
    var session := Open(infos.value[0], listing);
    assert session == Success(Device(Handle(7)));
    var ack := (t: Transfer) => Success(0);
    var full := Set(session.value, 255, ack);
    var rest := Set(session.value, 0, ack);
    SpeedRequestFields(255);
    SpeedRequestFields(0);
    assert full.issued[0].request.value == 255 && full.result == Success(0);
    assert rest.issued[0].request.value == 0 && rest.result == Success(0);
    var gone := Open(Location(1, 5), Success([other]));
    assert FirstStop([other], Location(1, 5)) == 1;
    assert gone == Failure(NoDevice);
  }
}
