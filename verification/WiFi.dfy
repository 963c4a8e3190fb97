/** Choosing an access point on the ESP8266: SimpleWiFiScanner.cpp. The radio's answers are parameters. */
module WiFi {
  const MAX_INDEXED := 15
  const MINIMUM_RSSI := -70
  const CLEARED := ApConnData(255, 255)

  datatype Network = Network(ssid: string, rssi: int)
  datatype ApConnData = ApConnData(netIndex: int, rssi: int)
  datatype ClientState = Unknown | WifiOff | NoneAvailable | Scanning | FilteringAps | SelectingAp | ConnectingAp
                       | GettingIpAp | FullAvailable
  datatype Choice = Nothing | ConnectTo(netIndex: int)

  predicate Passes(n: Network, ssid: string) {
    n.rssi > MINIMUM_RSSI && (ssid <= n.ssid || "rspm" <= n.ssid)
  }

  /** The networks that pass, in the order found, with their index and signal. */
  function Passing(found: seq<Network>, ssid: string): seq<ApConnData> {
    if found == [] then []
    else
      var k := |found| - 1;
      Passing(found[..k], ssid) + if Passes(found[k], ssid) then [ApConnData(k, found[k].rssi)] else []
  }

  function Kept(found: seq<Network>, ssid: string): (r: seq<ApConnData>)
    ensures |r| <= MAX_INDEXED
  {
    var all := Passing(found, ssid);
    if |all| <= MAX_INDEXED then all else all[..MAX_INDEXED]
  }

  /** An entry passes exactly if it is the index and signal of a network that does. */
  lemma {:induction false} PassingExactly(found: seq<Network>, ssid: string, e: ApConnData)
    ensures e in Passing(found, ssid) <==>
            0 <= e.netIndex < |found| && e.rssi == found[e.netIndex].rssi && Passes(found[e.netIndex], ssid)
  {
    if found != [] {
      var k := |found| - 1;
      PassingExactly(found[..k], ssid, e);
    }
  }

  lemma {:induction false} PassingAscends(found: seq<Network>, ssid: string)
    ensures forall i, j :: 0 <= i < j < |Passing(found, ssid)| ==>
      Passing(found, ssid)[i].netIndex < Passing(found, ssid)[j].netIndex
  {
    if found != [] {
      var k := |found| - 1;
      PassingAscends(found[..k], ssid);
      forall e ensures e in Passing(found[..k], ssid) ==> e.netIndex < k { PassingExactly(found[..k], ssid, e); }
      var all := Passing(found[..k], ssid);
      assert forall i :: 0 <= i < |all| ==> all[i] in all;
    }
  }

  /** What is kept: in the order found, the networks above -70 whose name begins with the configured name or with
      "rspm", as many of the first ones as there is room for. */
  lemma KeptAreFirst(found: seq<Network>, ssid: string)
    ensures |Kept(found, ssid)| <= 15
    ensures forall i, j :: 0 <= i < j < |Kept(found, ssid)| ==>
      Kept(found, ssid)[i].netIndex < Kept(found, ssid)[j].netIndex
    ensures forall e :: e in Kept(found, ssid) ==>
      0 <= e.netIndex < |found| && e.rssi == found[e.netIndex].rssi
    ensures forall k :: 0 <= k < |found| && ApConnData(k, found[k].rssi) in Kept(found, ssid) ==>
      found[k].rssi > -70 && (ssid <= found[k].ssid || "rspm" <= found[k].ssid)
    ensures forall k ::
      0 <= k < |found| && found[k].rssi > -70 && (ssid <= found[k].ssid || "rspm" <= found[k].ssid)
      && (|Kept(found, ssid)| < 15 || k <= Kept(found, ssid)[14].netIndex) ==>
        ApConnData(k, found[k].rssi) in Kept(found, ssid)
  {
    var all, kept := Passing(found, ssid), Kept(found, ssid);
    hide Passing;
    PassingAscends(found, ssid);
    forall e ensures e in all <==> 0 <= e.netIndex < |found| && e.rssi == found[e.netIndex].rssi
                                   && Passes(found[e.netIndex], ssid)
    {
      PassingExactly(found, ssid, e);
    }
    assert forall e :: e in kept ==> e in all;
    forall k | 0 <= k < |found| && Passes(found[k], ssid) && (|kept| < 15 || k <= kept[14].netIndex)
      ensures ApConnData(k, found[k].rssi) in kept
    {
      var i :| 0 <= i < |all| && all[i] == ApConnData(k, found[k].rssi);
      assert kept[i] == all[i];
    }
  }

  ghost predicate Descending(s: seq<ApConnData>) {
    forall i, j :: 0 <= i < j < |s| ==> s[i].rssi >= s[j].rssi
  }

  /** Kept entries in descending order of signal, then cleared slots. */
  ghost predicate Filed(slots: seq<ApConnData>, count: nat, kept: seq<ApConnData>) {
    && count == |kept| <= |slots|
    && multiset(slots[..count]) == multiset(kept)
    && Descending(slots[..count])
    && forall k :: count <= k < |slots| ==> slots[k] == CLEARED
  }

  /** With at least one entry kept, slot 0 is a network that passes and no kept entry is stronger; if at most 15
      pass, no network that passes is. */
  lemma StrongestFirst(slots: seq<ApConnData>, found: seq<Network>, ssid: string)
    requires Filed(slots, |Kept(found, ssid)|, Kept(found, ssid)) && Kept(found, ssid) != []
    ensures slots[0] in Passing(found, ssid) && 0 <= slots[0].netIndex < |found|
    ensures forall e :: e in Kept(found, ssid) ==> e.rssi <= slots[0].rssi
    ensures |Passing(found, ssid)| <= MAX_INDEXED ==>
              forall k :: 0 <= k < |found| && Passes(found[k], ssid) ==> found[k].rssi <= slots[0].rssi
  {
    var kept := Kept(found, ssid);
    var s := slots[..|kept|];
    forall e ensures e in s <==> e in kept {
      assert e in multiset(s) <==> e in multiset(kept);
    }
    assert slots[0] == s[0] && s[0] in kept;
    PassingExactly(found, ssid, slots[0]);
    forall e | e in kept ensures e.rssi <= slots[0].rssi {
      assert e in s;
    }
    if |Passing(found, ssid)| <= MAX_INDEXED {
      forall k | 0 <= k < |found| && Passes(found[k], ssid) ensures found[k].rssi <= slots[0].rssi {
        PassingExactly(found, ssid, ApConnData(k, found[k].rssi));
      }
    }
  }

  /** Slot 0 is the strongest of all that pass if and only if every network behind the first 15 that pass is matched
      by one of them. */
  lemma StrongestExactly(slots: seq<ApConnData>, found: seq<Network>, ssid: string)
    requires Filed(slots, |Kept(found, ssid)|, Kept(found, ssid)) && Kept(found, ssid) != []
    ensures (forall e :: e in Passing(found, ssid) ==> e.rssi <= slots[0].rssi) <==> LateMatched(Passing(found, ssid))
  {
    var all, kept := Passing(found, ssid), Kept(found, ssid);
    StrongestFirst(slots, found, ssid);
    var s := slots[..|kept|];
    assert slots[0] in kept by {
      assert slots[0] == s[0] && s[0] in multiset(s) && s[0] in multiset(kept);
    }
    if LateMatched(all) {
      forall e | e in all ensures e.rssi <= slots[0].rssi {
        var k :| 0 <= k < |all| && all[k] == e;
        if k >= MAX_INDEXED {
          var j :| 0 <= j < MAX_INDEXED && all[k].rssi <= all[j].rssi;
          assert all[j] == kept[j];
        } else {
          assert e == kept[k];
        }
      }
    } else {
      var k :| MAX_INDEXED <= k < |all| && forall j :: 0 <= j < MAX_INDEXED ==> all[k].rssi > all[j].rssi;
      var j :| 0 <= j < |kept| && kept[j] == slots[0];
      assert kept[j] == all[j];
    }
  }

  ghost predicate LateMatched(all: seq<ApConnData>) {
    forall k :: MAX_INDEXED <= k < |all| ==> exists j :: 0 <= j < MAX_INDEXED && all[k].rssi <= all[j].rssi
  }

  /** Fifteen networks at -60, then one at -40. */
  function LateStrong(): seq<Network> {
    seq(MAX_INDEXED, i => Network("rspm", -60)) + [Network("rspm", -40)]
  }

  lemma {:induction false} AllPass(found: seq<Network>, ssid: string)
    requires forall i :: 0 <= i < |found| ==> Passes(found[i], ssid)
    ensures |Passing(found, ssid)| == |found|
    ensures forall i :: 0 <= i < |found| ==> Passing(found, ssid)[i] == ApConnData(i, found[i].rssi)
  {
    if found != [] {
      AllPass(found[..|found| - 1], ssid);
    }
  }

  /** The sixteenth network that passes is never kept, however strong it is. */
  lemma LateStrongMissed(slots: seq<ApConnData>)
    requires Filed(slots, |Kept(LateStrong(), "rspm")|, Kept(LateStrong(), "rspm"))
    ensures slots != [] && slots[0].rssi == -60
    ensures ApConnData(15, -40) in Passing(LateStrong(), "rspm")
  {
    var found := LateStrong();
    AllPass(found, "rspm");
    var kept := Kept(found, "rspm");
    assert Passing(found, "rspm")[15] == ApConnData(15, -40);
    assert forall e :: e in kept ==> e.rssi == -60;
    var s := slots[..|kept|];
    assert s[0] in multiset(s) && s[0] in multiset(kept);
  }

  class SimpleWiFiScanner {
    const ssid: string
    const slots: array<ApConnData>
    var count: nat
    var state: ClientState
    var connected: bool
    /** What the last scan found. */
    ghost var found: seq<Network>

    constructor (ssid: string)
      ensures Valid() && fresh(slots) && state == Unknown && !connected
    {
      this.ssid := ssid;
      slots := new ApConnData[MAX_INDEXED];
      count, state, connected, found := 0, Unknown, false, [];
    }

    /** A connection is only ever chosen from a list that is complete, sorted and not empty. */
    ghost predicate Valid()
      reads this, slots
    {
      && slots.Length == MAX_INDEXED && |found| <= 255
      && (state == SelectingAp ==> count > 0 && Filed(slots[..], count, Kept(found, ssid)))
    }

    method Begin()
      requires Valid()
      modifies this`state
      ensures Valid() && state == NoneAvailable
    {
      state := WifiOff;
      state := NoneAvailable;
    }

    method ResetIndexedValidAps()
      requires slots.Length == MAX_INDEXED
      modifies this`count, slots
      ensures count == 0 && forall k :: 0 <= k < slots.Length ==> slots[k] == CLEARED
    {
      count := 0;
      for i := 0 to MAX_INDEXED
        invariant count == 0
        invariant forall k :: 0 <= k < i ==> slots[k] == CLEARED
      {
        slots[i] := slots[i].(netIndex := 255);
        slots[i] := slots[i].(rssi := 255);
      }
    }

    /** The first loop of `wifi_scan_done`. */
    method Filter(networks: seq<Network>)
      requires slots.Length == MAX_INDEXED && |networks| <= 255
      modifies this`count, slots
      ensures count == |Kept(networks, ssid)| && slots[..count] == Kept(networks, ssid)
      ensures forall k :: count <= k < slots.Length ==> slots[k] == CLEARED
    {
      ResetIndexedValidAps();
      for i := 0 to |networks|
        invariant count == |Kept(networks[..i], ssid)| && slots[..count] == Kept(networks[..i], ssid)
        invariant forall k :: count <= k < slots.Length ==> slots[k] == CLEARED
      {
        ghost var was := slots[..count];
        assert networks[..i + 1][..i] == networks[..i];
        if count < MAX_INDEXED && networks[i].rssi > MINIMUM_RSSI && ApValidSSID(networks[i].ssid) {
          slots[count] := slots[count].(netIndex := i);
          slots[count] := slots[count].(rssi := networks[i].rssi);
          count := count + 1;
          assert slots[..count] == was + [ApConnData(i, networks[i].rssi)];
        }
      }
      assert networks[..|networks|] == networks;
    }

    predicate ApValidSSID(name: string) {
      if ssid <= name then true else "rspm" <= name
    }

    /** The exchange sort of `wifi_scan_done`. */
    method SortValid()
      requires slots.Length == MAX_INDEXED && 0 < count <= MAX_INDEXED
      modifies slots
      ensures Descending(slots[..count])
      ensures multiset(slots[..count]) == old(multiset(slots[..count]))
      ensures forall k :: count <= k < slots.Length ==> slots[k] == old(slots[k])
    {
      for i := 0 to count - 1
        invariant multiset(slots[..count]) == old(multiset(slots[..count]))
        invariant forall k :: count <= k < slots.Length ==> slots[k] == old(slots[k])
        invariant forall k, l :: 0 <= k < i && k < l < count ==> slots[k].rssi >= slots[l].rssi
      {
        for j := i + 1 to count
          invariant multiset(slots[..count]) == old(multiset(slots[..count]))
          invariant forall k :: count <= k < slots.Length ==> slots[k] == old(slots[k])
          invariant forall k, l :: 0 <= k < i && k < l < count ==> slots[k].rssi >= slots[l].rssi
          invariant forall l :: i < l < j ==> slots[i].rssi >= slots[l].rssi
        {
          if slots[j].rssi > slots[i].rssi {
            Exchange(i, j);
          }
        }
      }
    }

    method Exchange(i: nat, j: nat)
      requires i < j < count <= slots.Length
      modifies slots
      ensures slots[i] == old(slots[j]) && slots[j] == old(slots[i])
      ensures forall k :: 0 <= k < slots.Length && k != i && k != j ==> slots[k] == old(slots[k])
      ensures multiset(slots[..count]) == old(multiset(slots[..count]))
    {
      ghost var was := slots[..count];
      var tmp := ApConnData(0, 0);
      tmp := tmp.(netIndex := slots[j].netIndex);
      tmp := tmp.(rssi := slots[j].rssi);
      slots[j] := slots[j].(netIndex := slots[i].netIndex);
      slots[j] := slots[j].(rssi := slots[i].rssi);
      slots[i] := slots[i].(netIndex := tmp.netIndex);
      slots[i] := slots[i].(rssi := tmp.rssi);
      assert slots[..count] == was[i := was[j]][j := was[i]];
    }

    /** `wifi_scan_done`; a failed scan, reported as a negative count, finds no networks. */
    method WifiScanDone(networks: seq<Network>)
      requires Valid() && |networks| <= 255
      modifies this, slots
      ensures Valid() && found == networks && connected == old(connected)
      ensures Filed(slots[..], count, Kept(networks, ssid))
      ensures state == if Kept(networks, ssid) == [] then FilteringAps else SelectingAp
    {
      Filter(networks);
      state := FilteringAps;
      found := networks;
      if count > 0 {
        SortValid();
        state := SelectingAp;
      }
      assert slots[..][..count] == slots[..count];
    }

    method WifiConnectBegin() returns (choice: Choice)
      requires slots.Length == MAX_INDEXED
      modifies this`state
      ensures choice == if slots[0].netIndex != 255 then ConnectTo(slots[0].netIndex) else Nothing
      ensures state == if choice == Nothing then old(state) else ConnectingAp
    {
      choice := Nothing;
      if slots[0].netIndex != 255 {
        choice := ConnectTo(slots[0].netIndex);
        state := ConnectingAp;
      }
    }

    method WifiScanBegin()
      requires Valid()
      modifies this`state
      ensures Valid() && state == Scanning
    {
      state := Scanning;
    }

    /** One `update`: it connects exactly when an access point is being selected and no rescan is due, and then to a
        strongest entry of the last scan, which passed the filter. */
    method Update(rescanDue: bool) returns (choice: Choice)
      requires Valid()
      modifies this`state
      ensures Valid()
      ensures choice.ConnectTo? <==> !rescanDue && old(state) == SelectingAp && !connected
      ensures choice.ConnectTo? ==> 0 <= choice.netIndex < |found| && Passes(found[choice.netIndex], ssid)
      ensures choice.ConnectTo? ==>
        found[choice.netIndex].rssi > -70
        && (ssid <= found[choice.netIndex].ssid || "rspm" <= found[choice.netIndex].ssid)
      ensures choice.ConnectTo? ==> forall e :: e in Kept(found, ssid) ==> e.rssi <= found[choice.netIndex].rssi
      ensures state == if rescanDue then Scanning else if choice.ConnectTo? then ConnectingAp else old(state)
    {
      choice := Nothing;
      if rescanDue {
        WifiScanBegin();
      }
      if state == SelectingAp && !connected {
        StrongestFirst(slots[..], found, ssid);
        PassingExactly(found, ssid, slots[0]);
        choice := WifiConnectBegin();
      }
    }

    method OnStationConnected()
      requires Valid()
      modifies this`state
      ensures Valid() && state == GettingIpAp
    {
      state := GettingIpAp;
    }

    method OnStationGotIP()
      requires Valid()
      modifies this`state, this`connected
      ensures Valid() && state == FullAvailable && connected
    {
      state := FullAvailable;
      connected := true;
    }

    method OnStationDisconnected()
      requires Valid()
      modifies this`connected
      ensures Valid() && !connected && state == old(state)
    {
      connected := false;
    }
  }
}
