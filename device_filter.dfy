/**
  Which entries of a USB device list are TranceVibrators, and where the
  scans of both driver versions stop. Both versions of the driver define the
  same vendor/product pair; everything here is a specification that the
  scanning loops of the two versions are proved against.
*/
module DeviceFilter {
  import opened Wrappers
  import opened Usb

  /** Vendor id shared by every TranceVibrator. */
  const VID: Word := 0x0b49
  /** Product id shared by every TranceVibrator. */
  const PID: Word := 0x064f

  /** Where a device is attached: the only identity a TranceVibrator has. */
  datatype Location = Location(busNumber: Byte, address: Byte)

  function LocationOf(rec: DeviceRecord): Location
  {
    Location(rec.busNumber, rec.address)
  }

  /** The descriptor was read and carries the TranceVibrator vendor/product pair. */
  predicate IsTranceVibe(rec: DeviceRecord)
  {
    rec.descriptor.Success? && rec.descriptor.value.vendorId == VID && rec.descriptor.value.productId == PID
  }

  /** A TranceVibrator attached at `loc`. */
  predicate IsAt(rec: DeviceRecord, loc: Location)
  {
    IsTranceVibe(rec) && LocationOf(rec) == loc
  }

  /** The positions, in enumeration order, of the TranceVibrators in `devs`. */
  function MatchIndices(devs: seq<DeviceRecord>): (idx: seq<nat>)
    ensures forall k :: 0 <= k < |idx| ==> idx[k] < |devs| && IsTranceVibe(devs[idx[k]])
    ensures forall k, l :: 0 <= k < l < |idx| ==> idx[k] < idx[l]
    ensures forall i :: 0 <= i < |devs| && IsTranceVibe(devs[i]) ==> i in idx
  {
    if devs == [] then []
    else
      var init := devs[..|devs| - 1];
      assert forall i :: 0 <= i < |init| ==> init[i] == devs[i];
      MatchIndices(init) + (if IsTranceVibe(devs[|devs| - 1]) then [|devs| - 1] else [])
  }

  /**
    The locations of the TranceVibrators in `devs`, in enumeration order.
    A device whose descriptor could not be read is not one of them.
  */
  function Locations(devs: seq<DeviceRecord>): (locs: seq<Location>)
    ensures |locs| == |MatchIndices(devs)|
    ensures forall k :: 0 <= k < |locs| ==> locs[k] == LocationOf(devs[MatchIndices(devs)[k]])
  {
    if devs == [] then []
    else
      var init := devs[..|devs| - 1];
      assert forall i :: 0 <= i < |init| ==> init[i] == devs[i];
      var last := devs[|devs| - 1];
      Locations(init) + (if IsTranceVibe(last) then [LocationOf(last)] else [])
  }

  /** Position of the first device whose descriptor read fails, or `|devs|`. */
  function FirstFailure(devs: seq<DeviceRecord>): (k: nat)
    ensures k <= |devs|
    ensures forall j :: 0 <= j < k ==> devs[j].descriptor.Success?
    ensures k < |devs| ==> devs[k].descriptor.Failure?
  {
    if devs == [] || devs[0].descriptor.Failure? then 0
    else 1 + FirstFailure(devs[1..])
  }

  /**
    Where a scan for `loc` that gives up on the first unreadable descriptor
    stops: the first device that is unreadable or a TranceVibrator at `loc`,
    or `|devs|` when there is none.
  */
  function FirstStop(devs: seq<DeviceRecord>, loc: Location): (k: nat)
    ensures k <= |devs|
    ensures forall j :: 0 <= j < k ==> devs[j].descriptor.Success? && !IsAt(devs[j], loc)
    ensures k < |devs| ==> devs[k].descriptor.Failure? || IsAt(devs[k], loc)
  {
    if devs == [] || devs[0].descriptor.Failure? || IsAt(devs[0], loc) then 0
    else 1 + FirstStop(devs[1..], loc)
  }

  /**
    Where a scan for `loc` that passes over unreadable descriptors stops:
    the first TranceVibrator at `loc`, if any.
  */
  function FirstAt(devs: seq<DeviceRecord>, loc: Location): (r: Option<nat>)
    ensures r.Some? ==> r.value < |devs| && IsAt(devs[r.value], loc)
    ensures r.Some? ==> forall j :: 0 <= j < r.value ==> !IsAt(devs[j], loc)
    ensures r.None? ==> forall j :: 0 <= j < |devs| ==> !IsAt(devs[j], loc)
  {
    if devs == [] then None
    else if IsAt(devs[0], loc) then Some(0)
    else match FirstAt(devs[1..], loc)
      case None => None
      case Some(i) => Some(i + 1)
  }

  /** Filtering distributes over concatenation of device lists. */
  lemma {:induction false} LocationsAppend(a: seq<DeviceRecord>, b: seq<DeviceRecord>)
    ensures Locations(a + b) == Locations(a) + Locations(b)
    decreases |b|
  {
    if b == [] {
      assert a + b == a;
    } else {
      var b' := b[..|b| - 1];
      assert (a + b)[..|a + b| - 1] == a + b';
      LocationsAppend(a, b');
    }
  }

  /**
    A device whose descriptor cannot be read contributes nothing: removing
    it from the list leaves the locations of the others unchanged.
  */
  lemma UnreadableDeviceIgnored(devs: seq<DeviceRecord>, i: nat)
    requires i < |devs| && devs[i].descriptor.Failure?
    ensures Locations(devs[..i] + devs[i + 1..]) == Locations(devs)
  {
    var front, upTo, back := devs[..i], devs[..i + 1], devs[i + 1..];
    assert devs == upTo + back;
    assert upTo[..|upTo| - 1] == front;
    assert Locations(upTo) == Locations(front);
    LocationsAppend(upTo, back);
    LocationsAppend(front, back);
  }

  /**
    When every descriptor can be read, the scan that gives up on unreadable
    descriptors and the one that passes over them stop at the same device.
  */
  lemma ScansAgreeWhenAllReadable(devs: seq<DeviceRecord>, loc: Location)
    requires FirstFailure(devs) == |devs|
    ensures FirstStop(devs, loc) == match FirstAt(devs, loc) case None => |devs| case Some(i) => i
  {
  }

  /**
    Every location found by enumeration of a list in which all descriptors
    can be read is found again by a scan of the same list that gives up on
    unreadable descriptors: that scan stops at a TranceVibrator at that
    location, never at the end of the list.
  */
  lemma EnumeratedLocationIsFound(devs: seq<DeviceRecord>, k: nat)
    requires FirstFailure(devs) == |devs|
    requires k < |Locations(devs)|
    ensures var loc := Locations(devs)[k];
      FirstStop(devs, loc) < |devs| && IsAt(devs[FirstStop(devs, loc)], loc)
  {
    var loc := Locations(devs)[k];
    var i := MatchIndices(devs)[k];
    assert IsAt(devs[i], loc);
    var s := FirstStop(devs, loc);
    assert s <= i;
    if s < |devs| {
      assert devs[s].descriptor.Success?;
    }
  }

  /**
    Every location found by enumeration, whatever descriptors could not be
    read, is found again by a scan of the same list that passes over
    unreadable descriptors.
  */
  lemma EnumeratedLocationIsFoundSkipping(devs: seq<DeviceRecord>, k: nat)
    requires k < |Locations(devs)|
    ensures FirstAt(devs, Locations(devs)[k]).Some?
  {
    var i := MatchIndices(devs)[k];
    assert IsAt(devs[i], Locations(devs)[k]);
  }
}
