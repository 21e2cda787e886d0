/**
 * The shared device list of the control panel (the `useDevices` hook): a list
 * of device records, each with its own `isSelected` flag, replaced wholesale by
 * select-all and toggle-one, and a "load" command sent over the realtime
 * channel.
 */
module DeviceList {
  import RealtimeChannel

  datatype Device = Device(
    id: int,
    name: string,
    model: string,
    os: string,
    xu: int,
    status: string,
    isConnected: bool,
    isSelected: bool)

  /** Number of devices in the mock lists. */
  const DeviceCount: nat := 25
  const MockModel: string := "SM-G950F"
  /** Brands one of which the mock status names, drawn at random. */
  const Brands: seq<string> := ["asus", "xiaomi", "samsung", "realme", "kyocera"]
  /** The command that asks the server for its device list. */
  const LoadCommand: string := "devices"

  /** The mock status text for a brand index; the program draws the index at random. */
  function MockStatus(brand: nat): string
    requires brand < |Brands|
  {
    "Change info thành công: " + Brands[brand] + "/..."
  }

  /** Whether every brand index in `brands` picks one of the five brands. */
  predicate ValidBrands(brands: seq<nat>) {
    forall k :: 0 <= k < |brands| ==> brands[k] < |Brands|
  }

  /** The initial list of the device atom; `brands` stands for the random draws. */
  function InitialDevices(brands: seq<nat>): seq<Device>
    requires |brands| == DeviceCount && ValidBrands(brands)
  {
    seq(DeviceCount, i requires 0 <= i < DeviceCount =>
      Device(i + 1, MockModel, MockModel, "9", 0, MockStatus(brands[i]), true, false))
  }

  /** `devices.every(d => d.isSelected)`, which is also the hook's `allSelected`. */
  function AllSelected(devices: seq<Device>): (all: bool)
    ensures all <==> forall i :: 0 <= i < |devices| ==> devices[i].isSelected
  {
    if devices == [] then true else devices[0].isSelected && AllSelected(devices[1..])
  }

  /** No device of the list is selected. */
  predicate NoneSelected(devices: seq<Device>) {
    forall i :: 0 <= i < |devices| ==> !devices[i].isSelected
  }

  /** `devices.map(d => ({ ...d, isSelected: v }))` */
  function WithSelection(devices: seq<Device>, v: bool): (r: seq<Device>)
    ensures |r| == |devices|
    ensures forall i :: 0 <= i < |r| ==> r[i] == devices[i].(isSelected := v)
  {
    if devices == [] then [] else [devices[0].(isSelected := v)] + WithSelection(devices[1..], v)
  }

  /**
   * `handleSelectAll`: every device gets `isSelected` equal to "not all were
   * selected"; length, order and every other field stay.
   */
  function SelectAll(devices: seq<Device>): (r: seq<Device>)
    ensures |r| == |devices|
    ensures forall i :: 0 <= i < |r| ==> r[i] == devices[i].(isSelected := !AllSelected(devices))
  {
    WithSelection(devices, !AllSelected(devices))
  }

  /**
   * `handleSelectDevice(id)`: flip `isSelected` of every device with this id;
   * every other device stays as it was.
   */
  function ToggleDevice(devices: seq<Device>, id: int): (r: seq<Device>)
    ensures |r| == |devices|
    ensures forall i :: 0 <= i < |r| ==>
      r[i] == if devices[i].id == id then devices[i].(isSelected := !devices[i].isSelected) else devices[i]
  {
    if devices == [] then []
    else
      var head := if devices[0].id == id then devices[0].(isSelected := !devices[0].isSelected) else devices[0];
      [head] + ToggleDevice(devices[1..], id)
  }

  /** The initial list: 25 devices with ids 1..25 in order, all connected, none selected. */
  lemma InitialDevicesShape(brands: seq<nat>)
    requires |brands| == DeviceCount && ValidBrands(brands)
    ensures var devices := InitialDevices(brands);
      && |devices| == DeviceCount
      && (forall i :: 0 <= i < |devices| ==> devices[i].id == i + 1 && devices[i].isConnected)
      && NoneSelected(devices)
      && !AllSelected(devices)
  {
  }

  /** Select-all deselects everything when all were selected, and selects everything otherwise. */
  lemma SelectAllOutcome(devices: seq<Device>)
    ensures AllSelected(devices) ==> NoneSelected(SelectAll(devices))
    ensures !AllSelected(devices) ==> AllSelected(SelectAll(devices))
    ensures AllSelected(SelectAll(devices)) <==> devices == [] || !AllSelected(devices)
  {
  }

  /**
   * Select-all applied twice gives back the "all selected" flag it started
   * from: everything selected if it was, nothing selected otherwise.
   */
  lemma SelectAllTwice(devices: seq<Device>)
    ensures AllSelected(SelectAll(SelectAll(devices))) == AllSelected(devices)
    ensures !AllSelected(devices) ==> NoneSelected(SelectAll(SelectAll(devices)))
  {
  }

  /** Toggling the same id twice restores the list. */
  lemma ToggleTwice(devices: seq<Device>, id: int)
    ensures ToggleDevice(ToggleDevice(devices, id), id) == devices
  {
  }

  /** Toggling an id no device has changes nothing. */
  lemma ToggleAbsent(devices: seq<Device>, id: int)
    requires forall i :: 0 <= i < |devices| ==> devices[i].id != id
    ensures ToggleDevice(devices, id) == devices
  {
  }

  /** Toggles of two ids commute. */
  lemma ToggleCommutes(devices: seq<Device>, a: int, b: int)
    ensures ToggleDevice(ToggleDevice(devices, a), b) == ToggleDevice(ToggleDevice(devices, b), a)
  {
  }

  /**
   * `handleLoadDevices`: when the channel says it is connected, send exactly
   * "devices" through `sendMessage`; otherwise send nothing and change nothing.
   */
  method HandleLoadDevices(channel: RealtimeChannel.Client)
    requires channel.Valid()
    modifies channel
    ensures channel.Valid()
    ensures old(channel.connected) ==> channel.SendEffect(LoadCommand)
    ensures !old(channel.connected) ==> unchanged(channel)
  {
    if channel.connected {
      var _ := channel.SendMessage(LoadCommand);
    }
  }
}
