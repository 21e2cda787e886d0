/**
 * The devices page: a fixed mock list of devices, a selection kept as a list
 * of ids, and an `allSelected` flag behind the header checkbox. The two click
 * handlers update the selection and the flag in place; the footer shows how
 * many devices are selected, connected and listed.
 */
module DevicesView {
  datatype Device = Device(
    id: int,
    name: string,
    model: string,
    os: string,
    xu: int,
    status: string,
    isConnected: bool)

  /** The footer: selected, connected, and all devices. */
  datatype FooterCounts = FooterCounts(selectedCount: nat, connectedCount: nat, total: nat)

  /** Number of devices in the page's mock list. */
  const MockCount: nat := 25
  const MockModel: string := "SM-G950F"
  /** Brands one of which the mock status names, drawn at random. */
  const Brands: seq<string> := ["asus", "xiaomi", "samsung", "realme", "kyocera"]

  /** The mock status text for a brand index; the page draws the index at random. */
  function MockStatus(brand: nat): string
    requires brand < |Brands|
  {
    "Change info thành công: " + Brands[brand] + "/..."
  }

  /** Whether every brand index in `brands` picks one of the five brands. */
  predicate ValidBrands(brands: seq<nat>) {
    forall k :: 0 <= k < |brands| ==> brands[k] < |Brands|
  }

  /** The page's mock list; `brands` stands for the random draws of the status text. */
  function MockDevices(brands: seq<nat>): seq<Device>
    requires |brands| == MockCount && ValidBrands(brands)
  {
    seq(MockCount, i requires 0 <= i < MockCount =>
      Device(i + 1, MockModel, MockModel, "9", 0, MockStatus(brands[i]), true))
  }

  /** `devices.map(d => d.id)` */
  function Ids(devices: seq<Device>): (ids: seq<int>)
    ensures |ids| == |devices|
    ensures forall i :: 0 <= i < |ids| ==> ids[i] == devices[i].id
  {
    if devices == [] then [] else [devices[0].id] + Ids(devices[1..])
  }

  /** No id occurs twice. */
  predicate Distinct(s: seq<int>) {
    forall i, j :: 0 <= i < j < |s| ==> s[i] != s[j]
  }

  /** The ids a list holds, as a set. */
  function Elements(s: seq<int>): set<int> {
    set x | x in s
  }

  /** `s.filter(y => y !== x)` */
  function Without(s: seq<int>, x: int): (r: seq<int>)
    ensures forall y :: y in r <==> y in s && y != x
    ensures Distinct(s) ==> Distinct(r)
    ensures x !in s ==> r == s
    ensures Distinct(s) && x in s ==> |r| == |s| - 1
  {
    if s == [] then []
    else if s[0] == x then Without(s[1..], x)
    else
      var rest := Without(s[1..], x);
      assert Distinct(s) ==> Distinct(s[1..]) && s[0] !in rest;
      [s[0]] + rest
  }

  /** `devices.filter(d => d.isConnected).length` */
  function CountConnected(devices: seq<Device>): (n: nat)
    ensures n <= |devices|
    ensures n == |devices| <==> forall i :: 0 <= i < |devices| ==> devices[i].isConnected
  {
    if devices == [] then 0
    else (if devices[0].isConnected then 1 else 0) + CountConnected(devices[1..])
  }

  /** The positions of the connected devices: what `devices.filter(d => d.isConnected)` keeps. */
  function ConnectedPositions(devices: seq<Device>): set<int> {
    set i | 0 <= i < |devices| && devices[i].isConnected
  }

  /** Appending a device adds one to the connected count exactly when it is connected. */
  lemma {:induction false} CountConnectedAppend(devices: seq<Device>, d: Device)
    ensures CountConnected(devices + [d]) == CountConnected(devices) + (if d.isConnected then 1 else 0)
  {
    if devices != [] {
      assert (devices + [d])[1..] == devices[1..] + [d];
      CountConnectedAppend(devices[1..], d);
    }
  }

  /** The connected count is the length of the filtered list: one per connected device. */
  lemma {:induction false} CountConnectedIsFilterLength(devices: seq<Device>)
    ensures CountConnected(devices) == |ConnectedPositions(devices)|
  {
    if devices != [] {
      var n := |devices| - 1;
      var init := devices[..n];
      CountConnectedIsFilterLength(init);
      assert devices == init + [devices[n]];
      CountConnectedAppend(init, devices[n]);
      var last: set<int> := if devices[n].isConnected then {n} else {};
      forall i | i in ConnectedPositions(devices)
        ensures i in ConnectedPositions(init) + last
      {
        if i < n {
          assert init[i] == devices[i];
        }
      }
      forall i | i in ConnectedPositions(init)
        ensures i in ConnectedPositions(devices)
      {
        assert init[i] == devices[i];
      }
      assert ConnectedPositions(devices) == ConnectedPositions(init) + last;
      assert n !in ConnectedPositions(init);
    }
  }

  /** A list without repeated ids has as many distinct elements as entries. */
  lemma {:induction false} DistinctCardinality(s: seq<int>)
    requires Distinct(s)
    ensures |Elements(s)| == |s|
  {
    if s != [] {
      assert Distinct(s[1..]);
      DistinctCardinality(s[1..]);
      assert Elements(s) == {s[0]} + Elements(s[1..]);
      assert s[0] !in Elements(s[1..]);
    }
  }

  /**
   * A duplicate-free selection of listed ids never outnumbers the list, and it
   * holds every listed id exactly when it is as long as the list.
   */
  lemma CoveredIffFull(ids: seq<int>, selection: seq<int>)
    requires Distinct(ids) && Distinct(selection)
    requires forall x :: x in selection ==> x in ids
    ensures |selection| <= |ids|
    ensures (forall x :: x in ids ==> x in selection) <==> |selection| == |ids|
  {
    DistinctCardinality(ids);
    DistinctCardinality(selection);
    var a, b := Elements(selection), Elements(ids);
    assert a <= b;
    assert a * b == a;
    assert |b - a| == |b| - |a|;
    if |selection| == |ids| {
      assert b - a == {};
      forall x | x in ids
        ensures x in selection
      {
        assert x in b;
      }
    }
    if forall x :: x in ids ==> x in selection {
      assert b <= a;
    }
  }

  /** The mock list has 25 devices, ids 1..25 without repetition, all connected. */
  lemma MockDevicesShape(brands: seq<nat>)
    requires |brands| == MockCount && ValidBrands(brands)
    ensures var devices := MockDevices(brands);
      && |devices| == MockCount
      && (forall i :: 0 <= i < |devices| ==> devices[i].id == i + 1)
      && Distinct(Ids(devices))
      && CountConnected(devices) == |devices|
  {
  }

  class View {
    const devices: seq<Device>
    /** `selectedDevices`: the checked ids, in the order they were checked. */
    var selected: seq<int>
    var allSelected: bool

    /**
     * The selection holds listed ids only, each once, and the header flag says
     * exactly whether every listed id is selected.
     */
    ghost predicate Valid()
      reads this
    {
      && |devices| > 0
      && Distinct(Ids(devices))
      && Distinct(selected)
      && (forall x :: x in selected ==> x in Ids(devices))
      && (allSelected <==> forall x :: x in Ids(devices) ==> x in selected)
    }

    /** The page as first rendered: nothing selected, header unchecked. */
    constructor (brands: seq<nat>)
      requires |brands| == MockCount && ValidBrands(brands)
      ensures Valid()
      ensures devices == MockDevices(brands)
      ensures selected == [] && !allSelected
    {
      devices := MockDevices(brands);
      selected := [];
      allSelected := false;
      new;
      MockDevicesShape(brands);
      assert 1 in Ids(devices);
    }

    /** The checkbox of the row for `id` is checked. */
    predicate RowChecked(id: int)
      reads this
    {
      id in selected
    }

    /** The header checkbox is checked exactly when every row's checkbox is. */
    function HeaderChecked(): (checked: bool)
      reads this
      requires Valid()
      ensures checked <==> forall i :: 0 <= i < |devices| ==> RowChecked(devices[i].id)
    {
      assert forall i :: 0 <= i < |devices| ==> devices[i].id == Ids(devices)[i];
      allSelected
    }

    /**
     * The footer: the selection's length, the number of connected devices and the
     * number of devices; never more selected than listed, never more connected than listed.
     */
    function Footer(): (f: FooterCounts)
      reads this
      requires Valid()
      ensures f.selectedCount == |selected| && f.total == |devices|
      ensures f.selectedCount <= f.total && f.connectedCount <= f.total
      ensures f.selectedCount == f.total <==> allSelected
      ensures f.connectedCount == CountConnected(devices) == |ConnectedPositions(devices)|
    {
      CoveredIffFull(Ids(devices), selected);
      CountConnectedIsFilterLength(devices);
      FooterCounts(|selected|, CountConnected(devices), |devices|)
    }

    /**
     * `handleSelectAll`: with the header checked, clear the selection; otherwise
     * select every listed id in list order. The header flips either way.
     */
    method HandleSelectAll()
      requires Valid()
      modifies this
      ensures Valid()
      ensures allSelected == !old(allSelected)
      ensures selected == if old(allSelected) then [] else Ids(devices)
    {
      if allSelected {
        selected := [];
        assert devices[0].id in Ids(devices);
      } else {
        selected := Ids(devices);
      }
      allSelected := !allSelected;
    }

    /**
     * `handleSelectDevice(id)` for the id of a listed row: a selected id is
     * removed and the header unchecked; an unselected one is appended, and the
     * header is checked when the selection now has as many ids as the list.
     */
    method HandleSelectDevice(id: int)
      requires Valid()
      requires id in Ids(devices)
      modifies this
      ensures Valid()
      ensures id in old(selected) ==> selected == Without(old(selected), id) && !allSelected
      ensures id !in old(selected) ==>
        && selected == old(selected) + [id]
        && allSelected == if |old(selected)| + 1 == |devices| then true else old(allSelected)
    {
      if id in selected {
        selected := Without(selected, id);
        allSelected := false;
      } else {
        var before := selected;
        selected := selected + [id];
        assert Distinct(selected);
        CoveredIffFull(Ids(devices), selected);
        if |before| + 1 == |devices| {
          allSelected := true;
        }
      }
    }
  }
}
