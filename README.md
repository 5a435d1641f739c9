# libtrancevibe in Dafny

A model of the Rust crate that finds and drives Rez TranceVibrators: USB
vibration units that all share vendor id 0x0b49 and product id 0x064f and
carry no serial number, so a unit is told apart only by its bus number and
address. The crate enumerates the attached units, reopens one by its
bus/address, and sets its speed (0 = off, 255 = full) with a single vendor
control transfer.

The USB stack (libusb) is not modelled. What it reports reaches the model
as parameters:

- the outcome of creating a context;
- the device list, a sequence of `Usb.DeviceRecord`, each with its
  descriptor-read outcome, its bus number, its address and the outcome
  opening it would have;
- the reply to a control write, a function from the transfer to bytes
  written or an error.

Two versions of the driver are modelled:

- `libtrancevibe.dfy` (module `TranceVibe`) is the version the crate
  exports (`src/libtrancevibe.rs`).
  - `GetDevices` and `Open` are loops proved against the scan
    specifications in `device_filter.dfy`.
  - `Set` builds the one control request and hands it to the transport.
  - `TranceVibeDeviceInfo::new` is the datatype constructor
    `Location(bus, address)` (`DeviceInfo` is a synonym).
  - `TranceVibeDevice::new` is the constructor `Device(handle)`.
  - `SingleDeviceScenario` walks through one unit being enumerated, opened,
    set to 255 and 0, and then reported as `NoDevice` once it is gone.
- `libtrancevibe_variant.dfy` (module `TranceVibeVariant`) is the earlier
  `src/libtrancevibe/mod.rs`. It is a class whose `Open` records the device
  it finds in its `device` field.

The two versions differ in five ways:

- Unreadable descriptors. The exported version stops the whole
  `get_devices` or `open` call with the error of the first device whose
  descriptor cannot be read. The earlier version passes over that device
  and keeps scanning. Passing over would be the more resilient policy, but
  the model follows the exported code as written: `TranceVibe.GetDevices`
  and `TranceVibe.Open` abort. `DeviceFilter.ScansAgreeWhenAllReadable`
  shows that the two scans agree whenever every descriptor can be read.
- No match in `open`. The exported version returns `NoDevice`; the earlier
  one returns success and leaves its `device` field as it was.
- What `open` does on a match. The exported version opens the device and
  returns the open handle (or the open error); the earlier one only records
  the device it found.
- `set`. The exported version issues the control write; the earlier one
  does nothing and succeeds.
- Context creation in `get_devices`. A failure is returned as an error by
  the exported version and panics in the earlier one.

The doc comment of `set` says the number of bytes written "should always be
1". The request carries an empty payload, so nothing in the model promises
that. `Set` returns the transport's reply unchanged.

## Model

| member | source | states |
|---|---|---|
| `DeviceFilter.MatchIndices` | src/libtrancevibe.rs:127-136 | the positions of the TranceVibrators in a device list: each one's descriptor was read and has VID 0x0b49 and PID 0x064f, they are strictly increasing (enumeration order, no duplicates), and every such device's position is among them |
| `DeviceFilter.Locations` | src/libtrancevibe.rs:132-135 | one (bus, address) per TranceVibrator, in order: entry k is the location of the k-th matching device, and the count equals the number of matches; no device with another VID or PID contributes |
| `DeviceFilter.FirstFailure` | src/libtrancevibe.rs:128-131 | the position of the first device whose descriptor read fails (all earlier reads succeed), or the list length if none fails |
| `DeviceFilter.FirstStop` | src/libtrancevibe.rs:89-97 | where the exported `open` scan ends: every earlier device was readable and is not a TranceVibrator at the wanted bus/address; the device there is unreadable or is that TranceVibrator; or the list is exhausted |
| `DeviceFilter.FirstAt` | src/libtrancevibe/mod.rs:29-42 | the first TranceVibrator at the wanted bus/address, passing over unreadable devices; none exactly when no device in the list matches |
| `DeviceFilter.LocationsAppend` | src/libtrancevibe/mod.rs:62-72 | filtering a concatenated list is concatenating the filtered parts: each device's contribution is independent of the others |
| `DeviceFilter.UnreadableDeviceIgnored` | src/libtrancevibe/mod.rs:63-66 | a device whose descriptor read fails can be removed from the list without changing the locations found: it neither appears nor disturbs the others |
| `DeviceFilter.ScansAgreeWhenAllReadable` | src/libtrancevibe.rs:89-97 | when every descriptor is readable, the aborting scan of the exported `open` and the skipping scan of the earlier `open` stop at the same device |
| `DeviceFilter.EnumeratedLocationIsFound` | src/libtrancevibe.rs:107-111 | every location enumerated from a list in which all descriptors read is found again by the exported `open` scan of the same list: the scan stops at a TranceVibrator at that location, so it never ends in the not-found `NoDevice` of line 103 (the device's own open outcome may still be an error) |
| `DeviceFilter.EnumeratedLocationIsFoundSkipping` | src/libtrancevibe/mod.rs:29-42 | every location the earlier `get_devices` returns, from any list, unreadable devices included, is found again by the earlier `open` scan of the same list |
| `Usb.RequestType` | src/libtrancevibe.rs:47-49 | the bmRequestType byte has bit 7 clear exactly for host-to-device, and decodes back to the direction, kind and recipient it was built from |
| `TranceVibe.GetDevices` | src/libtrancevibe.rs:116-138 | a context-creation error, then a listing error, is returned as is; otherwise the first failed descriptor read aborts with its error; otherwise the result is exactly the locations of all TranceVibrators in enumeration order |
| `TranceVibe.Open` | src/libtrancevibe.rs:83-104 | a listing error is returned; the scan stops at the first unreadable device (its error) or the first device matching VID, PID, bus and address (that device's open outcome, wrapped as a device); a VID/PID match elsewhere is passed over; no stop means `NoDevice` |
| `TranceVibe.SpeedRequest` | src/libtrancevibe.rs:44-54 | the request built for a speed decodes as a speed command for exactly that speed |
| `TranceVibe.SpeedRequestUnique` | src/libtrancevibe.rs:47-54 | a request that decodes as a speed command is the one `SpeedRequest` builds for that speed |
| `TranceVibe.SpeedRequestFields` | src/libtrancevibe.rs:44-54 | the request's fields are bmRequestType 0x41 (out, vendor, interface), request 1, value = speed zero-extended, index 0, empty payload, timeout 1000 ms |
| `TranceVibe.Set` | src/libtrancevibe.rs:43-55 | exactly one control write is issued, on the device's own handle, carrying the speed command for `speed`; its reply is returned unchanged |
| `TranceVibeVariant.TranceVibe.constructor` | src/libtrancevibe/mod.rs:17-26 | the new object holds the given bus and address, no device, no handle, and is not opened |
| `TranceVibeVariant.TranceVibe.Open` | src/libtrancevibe/mod.rs:28-44 | a listing error is returned and `device` kept; otherwise the call succeeds and `device` becomes the first TranceVibrator at the object's bus/address, unreadable devices passed over, or stays as it was if there is none; handle, opened flag, bus and address never change |
| `TranceVibeVariant.TranceVibe.Close` | src/libtrancevibe/mod.rs:46-48 | always succeeds and changes no state |
| `TranceVibeVariant.TranceVibe.Set` | src/libtrancevibe/mod.rs:50-52 | always succeeds, sends nothing and changes no state |
| `TranceVibeVariant.GetDevices` | src/libtrancevibe/mod.rs:55-74 | a listing error is returned; otherwise one new unopened object per TranceVibrator, in order, holding that device's bus and address, with unreadable devices passed over; the objects are pairwise distinct, as the owned values of the returned `Vec` are |

## Left out

- libusb itself is not modelled. This covers context creation, listing, descriptor reads, `Device::open`, `write_control` and handle release. Their outcomes are parameters. A handle is an opaque token.
- The libusb context each `TranceVibeDeviceInfo` and `TranceVibe` owns is not modelled. `Open` receives the list that context would report at the time of the call.
- Panics are not modelled. These are: context creation in `TranceVibeDeviceInfo::new` (src/libtrancevibe.rs:65-68), in `TranceVibe::new` (src/libtrancevibe/mod.rs:19) and in the earlier `get_devices` (src/libtrancevibe/mod.rs:56-59). The model assumes those contexts are created.
- TranceVibeVariant.GetDevices: takes no context-creation outcome, because a failure there panics.
- Blocking and the enforcement of the timeout are not modelled. The timeout is only the 1000 ms carried in the request.
- Rust lifetimes and the release of the handle on drop are not modelled. They are ownership concerns.
- The unused `timeout` local of the earlier `get_devices` is not modelled.
- The demo programs `src/main.rs` and `examples/tvtest.rs` are not modelled. They only print, sleep and panic around the library calls. `src/lib.rs` is not modelled either: it holds only declarations and re-exports.
