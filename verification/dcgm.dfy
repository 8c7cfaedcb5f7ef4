/** The part of DCGM the driver uses: physical cards, and vHCUs that are created and destroyed one by one. */
module Dcgm {
  import opened StateFile
  import opened Storage

  datatype CardInfo = CardInfo(dvInd: int, pciBusNumber: string, deviceId: string, computeUnits: int, memoryBytes: int)

  /** What DeviceInfos reports of a card. */
  datatype DeviceInfo = DeviceInfo(card: CardInfo, vDeviceCount: nat)

  datatype Size = Size(cores: int, memMiB: int)

  datatype VDeviceInfo = VDeviceInfo(vdvInd: int, dvInd: int)

  /** The vHCUs of one card. */
  function On(vdevs: map<int, int>, dvInd: int): set<int> {
    set i | i in vdevs.Keys && vdevs[i] == dvInd
  }

  function Report(cards: seq<CardInfo>, vdevs: map<int, int>): seq<DeviceInfo> {
    seq(|cards|, k requires 0 <= k < |cards| => DeviceInfo(cards[k], |On(vdevs, cards[k].dvInd)|))
  }

  ghost predicate Leaked(v: map<int, int>, l: set<int>, v': map<int, int>, l': set<int>) {
    && (forall i | i in l :: i in l')
    && (forall i | i in l' && i in v :: i in l)
    && (forall i | i in v :: i in v' && v'[i] == v[i])
    && (forall i | i in v' && i !in v :: i in l')
  }

  ghost predicate Destroyed(v: map<int, int>, l: set<int>, v': map<int, int>, l': set<int>, gone: set<int>) {
    && (forall i | i in v' :: i in v && v'[i] == v[i])
    && (forall i | i in v && i !in gone :: i in v')
    && (forall i | i in gone && i in v' :: i in l')
    && (forall i | i !in gone :: i in l' <==> i in l)
  }

  class Host {
    var cards: seq<CardInfo>

    /** The vHCUs that exist, each with its card. */
    var vdevs: map<int, int>

    /** How large each vHCU was made. */
    ghost var sizes: map<int, Size>

    /** vHCUs that a failed call left behind. */
    ghost var leaked: set<int>

    /** How many calls have failed. */
    ghost var failures: nat

    /** How many failed calls may have left a vHCU: creations that did, and destroys. */
    ghost var lapses: nat

    /** Failures are only counted up, and nothing lapses without one. */
    twostate predicate Counted()
      reads this
    {
      failures >= old(failures) && lapses >= old(lapses) && (failures == old(failures) ==> lapses == old(lapses))
    }

    ghost predicate Valid()
      reads this
    {
      leaked <= vdevs.Keys
    }

    /** What was there is there, and anything new was left by a failed call. */
    twostate predicate OnlyLeaks()
      reads this
    {
      Leaked(old(vdevs), old(leaked), vdevs, leaked)
    }

    /** The vHCUs of `gone`, and only those, have been destroyed, except those a failed call has left. */
    twostate predicate OnlyDestroys(gone: set<int>)
      reads this
    {
      Destroyed(old(vdevs), old(leaked), vdevs, leaked, gone)
    }

    /** CreateVDevices for one vHCU: an index not in use. A failed call may still leave a vHCU behind. */
    method CreateVDevice(dvInd: int, cores: int, memMiB: int) returns (r: Option<int>)
      requires Valid()
      modifies this`vdevs, this`sizes, this`leaked, this`failures, this`lapses
      ensures Valid()
      ensures r.Some? ==>
        && r.value >= 0 && r.value !in old(vdevs) && vdevs == old(vdevs)[r.value := dvInd] && leaked == old(leaked)
        && sizes == old(sizes)[r.value := Size(cores, memMiB)]
      ensures r.None? ==> OnlyLeaks() && sizes == old(sizes)
      ensures r.Some? <==> failures == old(failures)
      ensures Counted() && (r.None? && lapses == old(lapses) ==> vdevs == old(vdevs))
    {
      var passes, leaves, i: int := *, *, *;
      if passes && i >= 0 && i !in vdevs {
        vdevs, sizes := vdevs[i := dvInd], sizes[i := Size(cores, memMiB)];
        return Some(i);
      }
      failures := failures + 1;
      if leaves && i !in vdevs {
        vdevs, leaked, lapses := vdevs[i := dvInd], leaked + {i}, lapses + 1;
      }
      return None;
    }

    /** VDeviceSingleInfo: the PCI address of a vHCU. */
    method VDeviceSingleInfo(vdvInd: int) returns (r: Option<string>)
      modifies this`failures
      ensures r.Some? <==> failures == old(failures)
      ensures failures >= old(failures)
    {
      var passes, pci := *, *;
      if passes {
        return Some(pci);
      }
      failures := failures + 1;
      return None;
    }

    /** DestroySingleVDevice. An error says nothing about whether the vHCU is gone. */
    method DestroySingleVDevice(vdvInd: int) returns (ok: bool)
      requires Valid()
      modifies this`vdevs, this`leaked, this`failures, this`lapses
      ensures Valid()
      ensures failures == old(failures) + (if ok then 0 else 1) && lapses == old(lapses) + (if ok then 0 else 1)
      ensures OnlyDestroys({vdvInd}) && (ok ==> vdvInd !in vdevs)
    {
      var gone := *;
      ok := *;
      if ok || gone {
        vdevs, leaked := vdevs - {vdvInd}, leaked - {vdvInd};
      } else if vdvInd in vdevs {
        leaked := leaked + {vdvInd};
      }
      if !ok {
        failures, lapses := failures + 1, lapses + 1;
      }
    }

    /** VDeviceInfos: every vHCU once, in an arbitrary order. */
    method VDeviceInfos() returns (r: Option<seq<VDeviceInfo>>)
      modifies this`failures
      ensures r.Some? ==> Lists(r.value, set i | i in vdevs :: VDeviceInfo(i, vdevs[i]))
      ensures failures == old(failures) + (if r.Some? then 0 else 1)
    {
      var passes := *;
      if passes {
        var infos := Enumerate(set i | i in vdevs :: VDeviceInfo(i, vdevs[i]));
        return Some(infos);
      }
      failures := failures + 1;
      return None;
    }

    method DeviceInfos() returns (r: Option<seq<DeviceInfo>>)
      modifies this`failures
      ensures r.Some? ==> r.value == Report(cards, vdevs)
      ensures failures == old(failures) + (if r.Some? then 0 else 1)
    {
      var passes := *;
      if passes {
        return Some(Report(cards, vdevs));
      }
      failures := failures + 1;
      return None;
    }
  }
}
