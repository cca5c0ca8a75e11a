/** Scan results: the name filter and the order-preserving, identity-keyed
    list of discovered devices. */
module Devices {
  import opened Wrappers
  import opened CaseFold

  /** A Bluetooth hardware address; `BluetoothDevice` equality (and so the
      list's `contains`) compares addresses only. */
  type Address = string

  /** A scanned peripheral: its identity and its advertised name, which the
      platform may not know (null). */
  datatype Device = Device(address: Address, name: Option<string>)

  /** The marker a candidate's name must contain. */
  const NameMarker: string := "HM-10"

  /** The filter: a known name containing the marker, ignoring case. */
  predicate Accepts(d: Device)
  {
    d.name.Some? && ContainsIgnoreCase(d.name.value, NameMarker)
  }

  /** The filter as the callback evaluates it: a null check, then a
      case-insensitive search for the marker. */
  method IsCandidate(d: Device) returns (b: bool)
    ensures b <==> Accepts(d)
  {
    if d.name.None? {
      return false;
    }
    var idx := IndexOfIgnoreCase(d.name.value, NameMarker);
    b := idx >= 0;
  }

  /** `list.contains(device)`: some entry has the same address. */
  predicate Listed(list: seq<Device>, a: Address)
  {
    exists i :: 0 <= i < |list| && list[i].address == a
  }

  /** No address appears twice. */
  predicate NoDuplicates(list: seq<Device>)
  {
    forall i, j :: 0 <= i < j < |list| ==> list[i].address != list[j].address
  }

  /** Every entry passed the filter. */
  predicate AllAccepted(list: seq<Device>)
  {
    forall i :: 0 <= i < |list| ==> Accepts(list[i])
  }

  /** One scan result: appended when it passes the filter and its address is
      not yet listed, otherwise ignored. */
  function AddResult(list: seq<Device>, d: Device): (r: seq<Device>)
    ensures list <= r && |r| <= |list| + 1
    ensures |r| == |list| + 1 <==> Accepts(d) && !Listed(list, d.address)
    ensures |r| == |list| + 1 ==> r[|list|] == d
    ensures Listed(r, d.address) <==> Listed(list, d.address) || Accepts(d)
    ensures NoDuplicates(list) ==> NoDuplicates(r)
    ensures AllAccepted(list) ==> AllAccepted(r)
  {
    if Accepts(d) && !Listed(list, d.address) then list + [d] else list
  }

  /** A batch of results, applied one by one in arrival order. */
  function AddBatch(list: seq<Device>, results: seq<Device>): (r: seq<Device>)
    decreases |results|
    ensures list <= r
    ensures forall i :: |list| <= i < |r| ==> Accepts(r[i]) && r[i] in results
    ensures NoDuplicates(list) ==> NoDuplicates(r)
    ensures AllAccepted(list) ==> AllAccepted(r)
  {
    if results == [] then list
    else AddBatch(AddResult(list, results[0]), results[1..])
  }

  /** The imperative loop of the batch callback computes the fold. */
  method OnBatchScanResults(list: seq<Device>, results: seq<Device>) returns (r: seq<Device>)
    ensures r == AddBatch(list, results)
  {
    r := list;
    var i := 0;
    while i < |results|
      invariant 0 <= i <= |results|
      invariant AddBatch(r, results[i..]) == AddBatch(list, results)
    {
      assert results[i..][1..] == results[i + 1..];
      r := AddResult(r, results[i]);
      i := i + 1;
    }
    assert results[i..] == [];
  }

  /** After a batch, an address is listed iff it was listed before or some
      accepted result of the batch carries it. */
  lemma {:induction false} AddBatchListed(list: seq<Device>, results: seq<Device>, a: Address)
    decreases |results|
    ensures Listed(AddBatch(list, results), a) <==>
            Listed(list, a) || exists k :: 0 <= k < |results| && results[k].address == a && Accepts(results[k])
  {
    if results != [] {
      var next := AddResult(list, results[0]);
      AddBatchListed(next, results[1..], a);
      if Listed(next, a) && !Listed(list, a) {
        assert results[0].address == a && Accepts(results[0]);
      }
      forall k | 1 <= k < |results| && results[k].address == a && Accepts(results[k])
        ensures exists k' :: 0 <= k' < |results[1..]| && results[1..][k'].address == a && Accepts(results[1..][k'])
      {
        assert results[1..][k - 1] == results[k];
      }
    }
  }

  /** Splitting a batch in two and delivering the halves in order is the
      same as delivering the whole batch. */
  lemma {:induction false} AddBatchSplit(list: seq<Device>, xs: seq<Device>, ys: seq<Device>)
    decreases |xs|
    ensures AddBatch(list, xs + ys) == AddBatch(AddBatch(list, xs), ys)
  {
    if xs == [] {
      assert xs + ys == ys;
    } else {
      assert (xs + ys)[0] == xs[0];
      assert (xs + ys)[1..] == xs[1..] + ys;
      AddBatchSplit(AddResult(list, xs[0]), xs[1..], ys);
    }
  }

  /** A batch each of whose accepted results is already listed leaves the
      list as it was. */
  lemma {:induction false} AddBatchUnchanged(list: seq<Device>, results: seq<Device>)
    decreases |results|
    requires forall k :: 0 <= k < |results| && Accepts(results[k]) ==> Listed(list, results[k].address)
    ensures AddBatch(list, results) == list
  {
    if results != [] {
      assert AddResult(list, results[0]) == list;
      AddBatchUnchanged(list, results[1..]);
    }
  }

  /** Delivering the same batch twice adds nothing the second time. */
  lemma AddBatchIdempotent(list: seq<Device>, results: seq<Device>)
    ensures AddBatch(AddBatch(list, results), results) == AddBatch(list, results)
  {
    var once := AddBatch(list, results);
    forall k | 0 <= k < |results| && Accepts(results[k])
      ensures Listed(once, results[k].address)
    {
      AddBatchListed(list, results, results[k].address);
    }
    AddBatchUnchanged(once, results);
  }

  /** A single result is a batch of one. */
  lemma SingleIsBatchOfOne(list: seq<Device>, d: Device)
    ensures AddBatch(list, [d]) == AddResult(list, d)
  {
    assert [d][1..] == [];
  }

  /** The filter rejects every device whose name is unknown. */
  lemma NamelessRejected(a: Address)
    ensures !Accepts(Device(a, None))
  {
  }

  /** The filter ignores the case of the advertised name. */
  lemma AcceptsIgnoresCase(a: Address, name: string)
    ensures Accepts(Device(a, Some(LowerAll(name)))) <==> Accepts(Device(a, Some(name)))
    ensures Accepts(Device(a, Some(UpperAll(name)))) <==> Accepts(Device(a, Some(name)))
  {
    ContainsIgnoresCaseOfText(name, NameMarker);
  }

  /** An advertisement named "HM-10-BLE" seen by an empty list becomes its
      only entry. */
  lemma FirstMatchingAdvertisement()
    ensures AddResult([], Device("AA:BB", Some("HM-10-BLE"))) == [Device("AA:BB", Some("HM-10-BLE"))]
  {
    assert MatchesAt("HM-10-BLE", 0, NameMarker);
  }

  /** A lower-case name still matches; a name without the marker does not. */
  lemma FilterExamples()
    ensures Accepts(Device("01", Some("my hm-10 sensor")))
    ensures !Accepts(Device("02", Some("HM-1")))
  {
    assert MatchesAt("my hm-10 sensor", 3, NameMarker);
  }
}
