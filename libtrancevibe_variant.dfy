/**
  The earlier version of the driver: one object per TranceVibrator that
  remembers the device it found. Its scans pass over devices whose
  descriptor cannot be read, its `open` only records the device, and its
  `close` and `set` do nothing.
*/
module TranceVibeVariant {
  import opened Wrappers
  import opened Usb
  import opened DeviceFilter

  /** `TranceVibe`; the libusb context it owns is not modelled (see `Open`). */
  class TranceVibe {
    /** The device found by the last successful `Open`, if any. */
    var device: Option<DeviceRecord>
    /** An open handle; no operation of this version ever sets it. */
    var handle: Option<Handle>
    var busNumber: Byte
    var address: Byte
    /** The original's `opened` flag (`opened` is a Dafny keyword). */
    var isOpened: bool

    /** Where the unit this object stands for is attached. */
    function Where(): Location
      reads this
    {
      Location(busNumber, address)
    }

    /** Nothing found, nothing opened. */
    predicate Unopened()
      reads this
    {
      device == None && handle == None && !isOpened
    }

    /** `TranceVibe::new`. */
    constructor (busNumber: Byte, address: Byte)
      ensures this.busNumber == busNumber && this.address == address
      ensures Unopened()
    {
      this.device := None;
      this.busNumber := busNumber;
      this.address := address;
      this.handle := None;
      this.isOpened := false;
    }

    /**
      `TranceVibe::open`: scans `listing` (what the object's context reports
      now) and stores the first TranceVibrator at this object's bus and
      address, passing over devices whose descriptor cannot be read. Finding
      nothing is not an error and leaves `device` as it was.
    */
    method Open(listing: Listing) returns (r: Result<(), UsbError>)
      modifies this`device
      ensures listing.Failure? ==> r == Failure(listing.error) && device == old(device)
      ensures listing.Success? ==> r == Success(())
      ensures listing.Success? ==>
        device == match FirstAt(listing.value, Where())
          case None => old(device)
          case Some(i) => Some(listing.value[i])
      ensures handle == old(handle) && isOpened == old(isOpened)
      ensures busNumber == old(busNumber) && address == old(address)
    {
      if listing.Failure? {
        return Failure(listing.error);
      }
      var devs := listing.value;
      var i := 0;
      while i < |devs|
        invariant 0 <= i <= |devs|
        invariant device == old(device)
        invariant forall j :: 0 <= j < i ==> !IsAt(devs[j], Where())
      {
        var dev := devs[i];
        i := i + 1;
        if dev.descriptor.Failure? {
          continue;
        }
        var desc := dev.descriptor.value;
        if desc.vendorId != VID || desc.productId != PID ||
           dev.busNumber != busNumber || dev.address != address {
          continue;
        }
        device := Some(dev);
        break;
      }
      return Success(());
    }

    /** `TranceVibe::close`: succeeds and changes nothing. */
    method Close() returns (r: Result<(), UsbError>)
      ensures r == Success(())
    {
      return Success(());
    }

    /** `TranceVibe::set`: succeeds, sends nothing and changes nothing. */
    method Set(speed: Byte) returns (r: Result<(), UsbError>)
      ensures r == Success(())
    {
      return Success(());
    }
  }

  /** No object occurs twice in `s`. */
  predicate Distinct(s: seq<TranceVibe>)
  {
    forall k, l :: 0 <= k < l < |s| ==> s[k] != s[l]
  }

  lemma DistinctAppend(s: seq<TranceVibe>, unit: TranceVibe)
    requires Distinct(s) && unit !in s
    ensures Distinct(s + [unit])
  {
  }

  /**
    `get_devices`: lists the attached devices (`listing`, reported by a
    freshly created context) and builds one unopened object per
    TranceVibrator, in enumeration order, passing over devices whose
    descriptor cannot be read.
  */
  method GetDevices(listing: Listing) returns (r: Result<seq<TranceVibe>, UsbError>)
    ensures listing.Failure? ==> r == Failure(listing.error)
    ensures listing.Success? ==> r.Success? && |r.value| == |Locations(listing.value)|
    ensures listing.Success? ==> forall k :: 0 <= k < |r.value| ==>
      fresh(r.value[k]) && r.value[k].Where() == Locations(listing.value)[k] && r.value[k].Unopened()
    ensures listing.Success? ==> Distinct(r.value)
  {
    if listing.Failure? {
      return Failure(listing.error);
    }
    var devs := listing.value;
    var devices: seq<TranceVibe> := [];
    ghost var found: seq<Location> := [];
    var i := 0;
    while i < |devs|
      invariant 0 <= i <= |devs|
      invariant found == Locations(devs[..i])
      invariant |devices| == |found|
      invariant forall k :: 0 <= k < |devices| ==> fresh(devices[k])
      invariant forall k :: 0 <= k < |devices| ==> devices[k].Where() == found[k]
      invariant forall k :: 0 <= k < |devices| ==> devices[k].Unopened()
      invariant Distinct(devices)
    {
      var device := devs[i];
      assert devs[..i + 1][..i] == devs[..i];
      i := i + 1;
      if device.descriptor.Failure? {
        continue;
      }
      var desc := device.descriptor.value;
      if desc.vendorId != VID || desc.productId != PID {
        continue;
      }
      var unit := new TranceVibe(device.busNumber, device.address);
      DistinctAppend(devices, unit);
      devices := devices + [unit];
      found := found + [LocationOf(device)];
    }
    assert devs[..i] == devs;
    return Success(devices);
  }
}
