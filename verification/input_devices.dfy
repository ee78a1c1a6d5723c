/** The auxiliary input channel registry
    (Sources/Core/InputDevices/InputDeviceManager.swift). Microphones and
    other capture devices are identified by a uid and mapped onto the output
    channels 3..8 of the multi-channel recording: a device still present
    keeps its channel, newcomers take the lowest free channels in ascending
    uid order, and devices beyond the sixth stay unassigned.

    The registry is a value with the manager's two dictionaries. Device
    discovery and the notification observers are platform plumbing and are
    not modelled; only the dictionary updates the connect and disconnect
    handlers perform are. Where the source iterates a dictionary's `values`
    (whose order Swift leaves unspecified) the model takes the iteration
    order as a parameter: any duplicate-free listing of the keys. */
module InputDevices {
  import opened Wrappers
  import opened Ints
  import Sorting
  import Strings

  datatype AudioDeviceType = Physical | Aggregate | Virtual | Unknown

  datatype AudioInputDevice = AudioInputDevice(
    uid: string,
    name: string,
    channelCount: int,
    sampleRate: real,
    assignedChannel: Option<int>,
    isConnected: bool,
    deviceType: AudioDeviceType,
    manufacturer: Option<string>)

  /** The device record the notification handlers build: one channel at
      48 kHz, no channel yet, the initialiser's defaults for the rest. */
  function HandlerDevice(uid: string, name: string, isConnected: bool): (d: AudioInputDevice)
    ensures d.uid == uid && d.name == name && d.isConnected == isConnected
    ensures d.assignedChannel == None
  {
    AudioInputDevice(uid, name, 1, 48000.0, None, isConnected, Unknown, None)
  }

  /** Output channels reserved for auxiliary devices, in the order they are
      handed out. Channels 1 and 2 carry the captured process audio. */
  const AVAILABLE_CHANNELS: seq<int> := [3, 4, 5, 6, 7, 8]

  predicate IsAuxChannel(c: int) {
    3 <= c <= 8
  }

  predicate Injective(m: map<string, int>) {
    forall a, b :: a in m && b in m && a != b ==> m[a] != m[b]
  }

  /** Every assigned channel is an auxiliary channel and no two uids share one. */
  predicate ChannelMapValid(m: map<string, int>) {
    (forall u :: u in m ==> IsAuxChannel(m[u])) && Injective(m)
  }

  /** Every device is filed under its own uid. */
  predicate WellKeyed(connected: map<string, AudioInputDevice>) {
    forall u :: u in connected ==> connected[u].uid == u
  }

  datatype Registry = Registry(
    connectedDevicesByUID: map<string, AudioInputDevice>,
    channelByUID: map<string, int>)
  {
    predicate Valid() {
      ChannelMapValid(channelByUID) && WellKeyed(connectedDevicesByUID)
    }
  }

  const EMPTY_REGISTRY: Registry := Registry(map[], map[])

  /** The result of `assignChannels(for:)`: the new registry and the
      returned device list. */
  datatype Assignment = Assignment(registry: Registry, updated: seq<AudioInputDevice>)

  function Lookup(m: map<string, int>, u: string): Option<int> {
    if u in m then Some(m[u]) else None
  }

  /* ---------------- free channels ---------------- */

  /** The channels of `chs`, in order, that are not in `used`. */
  function FreeChannels(chs: seq<int>, used: set<int>): (r: seq<int>)
    ensures forall c :: c in r <==> c in chs && c !in used
    ensures |r| <= |chs|
  {
    if |chs| == 0 then []
    else (if chs[0] in used then [] else [chs[0]]) + FreeChannels(chs[1..], used)
  }

  /** `availableChannels.first(where: { !usedChannels.contains($0) })`. */
  function FirstFree(chs: seq<int>, used: set<int>): (r: Option<int>)
    ensures r.Some? ==> r.value in chs && r.value !in used
  {
    if |chs| == 0 then None
    else if chs[0] !in used then Some(chs[0])
    else FirstFree(chs[1..], used)
  }

  /** The channel handed out next is the head of the free list. */
  lemma {:induction false} FirstFreeIsHead(chs: seq<int>, used: set<int>)
    ensures FirstFree(chs, used)
         == if |FreeChannels(chs, used)| > 0 then Some(FreeChannels(chs, used)[0]) else None
  {
    if |chs| > 0 && chs[0] in used {
      FirstFreeIsHead(chs[1..], used);
    }
  }

  predicate Increasing(s: seq<int>) {
    forall i, j :: 0 <= i < j < |s| ==> s[i] < s[j]
  }

  /** Free channels come out in the order of `chs`, so ascending for the
      ascending channel list: the head is the lowest free channel. */
  lemma {:induction false} FreeChannelsIncreasing(chs: seq<int>, used: set<int>)
    requires Increasing(chs)
    ensures Increasing(FreeChannels(chs, used))
  {
    if |chs| > 0 {
      var rest := FreeChannels(chs[1..], used);
      assert Increasing(chs[1..]) by {
        forall i, j | 0 <= i < j < |chs| - 1
          ensures chs[1..][i] < chs[1..][j]
        {
          assert chs[i + 1] < chs[j + 1];
        }
      }
      FreeChannelsIncreasing(chs[1..], used);
      if chs[0] !in used {
        forall y | y in rest
          ensures chs[0] < y
        {
          var k :| 0 <= k < |chs[1..]| && chs[1..][k] == y;
          assert chs[0] < chs[k + 1];
        }
        ConsIncreasing(chs[0], rest);
      } else {
        assert FreeChannels(chs, used) == rest;
      }
    }
  }

  /** A value below every element of an ascending list extends it at the
      front. */
  lemma ConsIncreasing(x: int, s: seq<int>)
    requires Increasing(s)
    requires forall y :: y in s ==> x < y
    ensures Increasing([x] + s)
  {
    var r := [x] + s;
    forall i, j | 0 <= i < j < |r|
      ensures r[i] < r[j]
    {
      assert r[j] == s[j - 1];
      if i > 0 {
        assert r[i] == s[i - 1];
      } else {
        assert s[j - 1] in s;
      }
    }
  }

  /** Adding to `used` something outside `chs` changes nothing. */
  lemma {:induction false} FreeChannelsIgnoresOthers(chs: seq<int>, used: set<int>, x: int)
    requires x !in chs
    ensures FreeChannels(chs, used + {x}) == FreeChannels(chs, used)
  {
    if |chs| > 0 {
      FreeChannelsIgnoresOthers(chs[1..], used, x);
    }
  }

  /** Marking the head of the free list as used removes exactly that head. */
  lemma {:induction false} FreeAfterTaking(chs: seq<int>, used: set<int>)
    requires Sorting.Distinct(chs)
    requires |FreeChannels(chs, used)| > 0
    ensures FreeChannels(chs, used + {FreeChannels(chs, used)[0]}) == FreeChannels(chs, used)[1..]
  {
    var c := FreeChannels(chs, used)[0];
    assert Sorting.Distinct(chs[1..]) by {
      forall i, j | 0 <= i < j < |chs| - 1
        ensures chs[1..][i] != chs[1..][j]
      {
        assert chs[i + 1] != chs[j + 1];
      }
    }
    if chs[0] in used {
      FreeAfterTaking(chs[1..], used);
    } else {
      assert c == chs[0];
      assert chs[0] !in chs[1..] by {
        forall j | 0 <= j < |chs| - 1
          ensures chs[1..][j] != chs[0]
        {
          assert chs[j + 1] != chs[0];
        }
      }
      FreeChannelsIgnoresOthers(chs[1..], used, c);
    }
  }

  /** The channels of `chs` that are in `used`. */
  function UsedIn(chs: seq<int>, used: set<int>): set<int> {
    set c | c in chs && c in used
  }

  /** Each channel of `chs` is either free or used. */
  lemma {:induction false} FreeChannelsCount(chs: seq<int>, used: set<int>)
    requires Sorting.Distinct(chs)
    ensures |FreeChannels(chs, used)| + |UsedIn(chs, used)| == |chs|
  {
    if |chs| > 0 {
      var x, tail := chs[0], chs[1..];
      assert Sorting.Distinct(tail) by {
        forall i, j | 0 <= i < j < |tail|
          ensures tail[i] != tail[j]
        {
          assert chs[i + 1] != chs[j + 1];
        }
      }
      assert x !in tail by {
        forall j | 0 <= j < |tail|
          ensures tail[j] != x
        {
          assert chs[j + 1] != chs[0];
        }
      }
      FreeChannelsCount(tail, used);
      assert chs == [x] + tail;
      assert forall c :: c in chs <==> c == x || c in tail;
      if x in used {
        assert UsedIn(chs, used) == UsedIn(tail, used) + {x};
        assert x !in UsedIn(tail, used);
      } else {
        assert UsedIn(chs, used) == UsedIn(tail, used);
      }
    }
  }

  lemma AvailableChannelsFacts()
    ensures Sorting.Distinct(AVAILABLE_CHANNELS)
    ensures Increasing(AVAILABLE_CHANNELS)
    ensures forall c :: c in AVAILABLE_CHANNELS <==> IsAuxChannel(c)
  {
  }

  /** With `used` drawn from the auxiliary channels, six minus the number
      used remain free. */
  lemma FreeAuxCount(used: set<int>)
    requires forall c :: c in used ==> IsAuxChannel(c)
    ensures |FreeChannels(AVAILABLE_CHANNELS, used)| == |AVAILABLE_CHANNELS| - |used|
  {
    AvailableChannelsFacts();
    FreeChannelsCount(AVAILABLE_CHANNELS, used);
    assert UsedIn(AVAILABLE_CHANNELS, used) == used by {
      forall c | c in used
        ensures c in UsedIn(AVAILABLE_CHANNELS, used)
      {
        assert IsAuxChannel(c);
        assert c in AVAILABLE_CHANNELS;
      }
    }
  }

  /** An injective map has as many distinct values as keys. */
  lemma {:induction false} InjectiveValuesCard(m: map<string, int>)
    requires Injective(m)
    ensures |m.Values| == |m.Keys|
    decreases |m.Keys|
  {
    if |m.Keys| > 0 {
      var k :| k in m;
      var m0 := m - {k};
      assert m0.Keys == m.Keys - {k};
      assert m.Values == m0.Values + {m[k]} by {
        forall v | v in m.Values
          ensures v in m0.Values + {m[k]}
        {
          var u :| u in m && m[u] == v;
          if u != k {
            assert u in m0 && m0[u] == v;
          }
        }
      }
      assert m[k] !in m0.Values;
      InjectiveValuesCard(m0);
    }
  }

  /* ---------------- the assignment loop ---------------- */

  /** The `for uid in unassignedUIDs` loop: each uid takes the first free
      channel; the loop stops at the first uid for which none is left. */
  function AssignLoop(pending: seq<string>, m: map<string, int>, used: set<int>): map<string, int>
    decreases |pending|
  {
    if |pending| == 0 then m
    else match FirstFree(AVAILABLE_CHANNELS, used)
      case None => m
      case Some(c) => AssignLoop(pending[1..], m[pending[0] := c], used + {c})
  }

  /** The loop only adds entries for pending uids and leaves the rest alone. */
  lemma {:induction false} AssignLoopFrame(pending: seq<string>, m: map<string, int>, used: set<int>)
    ensures forall u :: u in AssignLoop(pending, m, used) ==> u in m || u in pending
    ensures forall u :: u !in pending ==>
      && (u in AssignLoop(pending, m, used) <==> u in m)
      && (u in m ==> AssignLoop(pending, m, used)[u] == m[u])
    decreases |pending|
  {
    if |pending| > 0 {
      match FirstFree(AVAILABLE_CHANNELS, used)
      case None =>
      case Some(c) =>
        AssignLoopFrame(pending[1..], m[pending[0] := c], used + {c});
        assert forall u :: u in pending[1..] ==> u in pending;
    }
  }

  /** The loop keeps channels auxiliary and distinct, whatever the pending
      list holds, as long as `used` covers the channels already taken. */
  lemma {:induction false} AssignLoopValid(pending: seq<string>, m: map<string, int>, used: set<int>)
    requires ChannelMapValid(m)
    requires forall u :: u in m ==> m[u] in used
    ensures ChannelMapValid(AssignLoop(pending, m, used))
    decreases |pending|
  {
    if |pending| > 0 {
      match FirstFree(AVAILABLE_CHANNELS, used)
      case None =>
      case Some(c) =>
        AvailableChannelsFacts();
        var m' := m[pending[0] := c];
        assert forall u :: u in m' ==> m'[u] in used + {c};
        AssignLoopValid(pending[1..], m', used + {c});
    }
  }

  /** Closed form of the loop for a duplicate-free list of uids that have
      no channel yet: the `i`-th uid gets the `i`-th free channel, and the
      uids beyond the number of free channels get none. */
  lemma {:induction false} AssignLoopClosedForm(pending: seq<string>, m: map<string, int>, used: set<int>)
    requires Sorting.Distinct(pending)
    requires forall i :: 0 <= i < |pending| ==> pending[i] !in m
    ensures var free := FreeChannels(AVAILABLE_CHANNELS, used);
            var r := AssignLoop(pending, m, used);
            && (forall i :: 0 <= i < Min(|pending|, |free|) ==> pending[i] in r && r[pending[i]] == free[i])
            && (forall i :: Min(|pending|, |free|) <= i < |pending| ==> pending[i] !in r)
    decreases |pending|
  {
    var free := FreeChannels(AVAILABLE_CHANNELS, used);
    if |pending| > 0 {
      FirstFreeIsHead(AVAILABLE_CHANNELS, used);
      if |free| > 0 {
        var c := free[0];
        var m' := m[pending[0] := c];
        var tail := pending[1..];
        Sorting.DistinctTail(pending);
        assert forall i :: 0 <= i < |tail| ==> tail[i] !in m' by {
          forall i | 0 <= i < |tail|
            ensures tail[i] !in m'
          {
            assert pending[i + 1] == tail[i];
          }
        }
        assert FreeChannels(AVAILABLE_CHANNELS, used + {c}) == free[1..] by {
          AvailableChannelsFacts();
          FreeAfterTaking(AVAILABLE_CHANNELS, used);
        }
        AssignLoopClosedForm(tail, m', used + {c});
        AssignLoopFrame(tail, m', used + {c});
        var r := AssignLoop(pending, m, used);
        assert r == AssignLoop(tail, m', used + {c});
        ClosedFormShift(pending, free, r);
      }
    }
  }

  /** The closed form for a list follows from the head's channel and the
      closed form for the tail against the remaining free channels. */
  lemma ClosedFormShift(pending: seq<string>, free: seq<int>, r: map<string, int>)
    requires |pending| > 0 && |free| > 0
    requires pending[0] in r && r[pending[0]] == free[0]
    requires forall i :: 0 <= i < Min(|pending[1..]|, |free[1..]|) ==>
      pending[1..][i] in r && r[pending[1..][i]] == free[1..][i]
    requires forall i :: Min(|pending[1..]|, |free[1..]|) <= i < |pending[1..]| ==> pending[1..][i] !in r
    ensures forall i :: 0 <= i < Min(|pending|, |free|) ==> pending[i] in r && r[pending[i]] == free[i]
    ensures forall i :: Min(|pending|, |free|) <= i < |pending| ==> pending[i] !in r
  {
    forall i | 0 < i < Min(|pending|, |free|)
      ensures pending[i] in r && r[pending[i]] == free[i]
    {
      assert pending[i] == pending[1..][i - 1] && free[i] == free[1..][i - 1];
    }
    forall i | Min(|pending|, |free|) <= i < |pending|
      ensures pending[i] !in r
    {
      assert pending[i] == pending[1..][i - 1];
    }
  }

  /** A single pending uid takes the first free channel, if there is one. */
  lemma AssignLoopSingle(u: string, m: map<string, int>, used: set<int>)
    ensures var f := FirstFree(AVAILABLE_CHANNELS, used);
            AssignLoop([u], m, used) == if f.Some? then m[u := f.value] else m
  {
    assert [u][1..] == [];
  }

  /** With no channel free the loop assigns nothing. */
  lemma AssignLoopNoFree(pending: seq<string>, m: map<string, int>, used: set<int>)
    requires |FreeChannels(AVAILABLE_CHANNELS, used)| == 0
    ensures AssignLoop(pending, m, used) == m
  {
    FirstFreeIsHead(AVAILABLE_CHANNELS, used);
  }

  /* ---------------- assignChannels(for:) ---------------- */

  function Uids(devices: seq<AudioInputDevice>): (r: seq<string>)
    ensures |r| == |devices|
    ensures forall i :: 0 <= i < |devices| ==> r[i] == devices[i].uid
  {
    seq(|devices|, i requires 0 <= i < |devices| => devices[i].uid)
  }

  /** `presentUIDs`. */
  function Present(devices: seq<AudioInputDevice>): set<string> {
    set u | u in Uids(devices)
  }

  /** `channelByUID.filter { presentUIDs.contains($0.key) }`. */
  function Kept(m: map<string, int>, present: set<string>): (r: map<string, int>)
    ensures r.Keys == m.Keys * present
    ensures forall u :: u in r ==> r[u] == m[u]
  {
    map u | u in m && u in present :: m[u]
  }

  /** `.filter { channelByUID[$0] == nil }`, counted element by element. */
  function Unassigned(uids: seq<string>, m: map<string, int>): (r: seq<string>)
    ensures forall u :: multiset(r)[u] == if u in m then 0 else multiset(uids)[u]
    decreases |uids|
  {
    if |uids| == 0 then []
    else
      assert uids == [uids[0]] + uids[1..];
      (if uids[0] in m then [] else [uids[0]]) + Unassigned(uids[1..], m)
  }

  /** `unassignedUIDs`: the uids without a kept channel, sorted ascending. */
  function Pending(devices: seq<AudioInputDevice>, kept: map<string, int>): (r: seq<string>)
    ensures Sorting.SortedBy(r, Strings.LexLe)
    ensures forall u :: u in r <==> u in Present(devices) && u !in kept
  {
    var r := Strings.SortStrings(Unassigned(Uids(devices), kept));
    assert forall u :: u in r <==> u in multiset(r);
    r
  }

  /** `channelByUID` after the call. */
  function NewChannelMap(channelByUID: map<string, int>, devices: seq<AudioInputDevice>): map<string, int> {
    var kept := Kept(channelByUID, Present(devices));
    AssignLoop(Pending(devices, kept), kept, kept.Values)
  }

  /** The `updated` list: every device with its current channel. */
  function Annotate(devices: seq<AudioInputDevice>, m: map<string, int>): (r: seq<AudioInputDevice>)
    ensures |r| == |devices|
    ensures forall i :: 0 <= i < |devices| ==> r[i] == devices[i].(assignedChannel := Lookup(m, devices[i].uid))
  {
    seq(|devices|, i requires 0 <= i < |devices| => devices[i].(assignedChannel := Lookup(m, devices[i].uid)))
  }

  /** `for dev in updated { connectedDevicesByUID[dev.uid] = dev }`. */
  function Refresh(connected: map<string, AudioInputDevice>, updated: seq<AudioInputDevice>): map<string, AudioInputDevice>
    decreases |updated|
  {
    if |updated| == 0 then connected
    else Refresh(connected[updated[0].uid := updated[0]], updated[1..])
  }

  /** `assignChannels(for:)`. The returned list has the input's length and
      order and differs from it only in `assignedChannel`, which reports the
      device's entry in the new channel map. */
  function AssignChannels(reg: Registry, devices: seq<AudioInputDevice>): (a: Assignment)
    ensures |a.updated| == |devices|
    ensures forall i :: 0 <= i < |devices| ==>
      a.updated[i] == devices[i].(assignedChannel := Lookup(a.registry.channelByUID, devices[i].uid))
  {
    var m := NewChannelMap(reg.channelByUID, devices);
    var updated := Annotate(devices, m);
    Assignment(Registry(Refresh(reg.connectedDevicesByUID, updated), m), updated)
  }

  lemma ChannelMapOf(reg: Registry, devices: seq<AudioInputDevice>)
    ensures AssignChannels(reg, devices).registry.channelByUID == NewChannelMap(reg.channelByUID, devices)
  {
  }

  /** Pending uids are duplicate-free when the device uids are, and none of
      them has a kept channel. */
  lemma PendingFacts(devices: seq<AudioInputDevice>, kept: map<string, int>)
    requires Sorting.Distinct(Uids(devices))
    ensures Sorting.Distinct(Pending(devices, kept))
    ensures forall i :: 0 <= i < |Pending(devices, kept)| ==> Pending(devices, kept)[i] !in kept
  {
    var un := Unassigned(Uids(devices), kept);
    Sorting.DistinctPermutation(Uids(devices), un);
    Sorting.DistinctPermutation(un, Pending(devices, kept));
  }

  /** Every assigned channel lies in 3..8 and no two uids share one. */
  lemma AssignChannelsValid(reg: Registry, devices: seq<AudioInputDevice>)
    requires ChannelMapValid(reg.channelByUID)
    ensures ChannelMapValid(AssignChannels(reg, devices).registry.channelByUID)
  {
    var kept := Kept(reg.channelByUID, Present(devices));
    AssignLoopValid(Pending(devices, kept), kept, kept.Values);
  }

  /** A device that had a channel and is still listed keeps that channel;
      a uid that is not listed loses its entry, so no memory of it is kept. */
  lemma AssignChannelsKeepsAndForgets(reg: Registry, devices: seq<AudioInputDevice>)
    ensures var m := AssignChannels(reg, devices).registry.channelByUID;
      && (forall u :: u in reg.channelByUID && u in Present(devices) ==> u in m && m[u] == reg.channelByUID[u])
      && (forall u :: u in m ==> u in Present(devices))
  {
    var kept := Kept(reg.channelByUID, Present(devices));
    AssignLoopFrame(Pending(devices, kept), kept, kept.Values);
  }

  /** Newcomers, taken in ascending uid order, receive the lowest free
      channels in ascending order; those beyond the free channels get none. */
  lemma AssignChannelsNewcomers(reg: Registry, devices: seq<AudioInputDevice>)
    requires Sorting.Distinct(Uids(devices))
    ensures var kept := Kept(reg.channelByUID, Present(devices));
            var pending := Pending(devices, kept);
            var free := FreeChannels(AVAILABLE_CHANNELS, kept.Values);
            var m := AssignChannels(reg, devices).registry.channelByUID;
            && Sorting.SortedBy(pending, Strings.LexLe)
            && Increasing(free)
            && (forall i :: 0 <= i < Min(|pending|, |free|) ==> pending[i] in m && m[pending[i]] == free[i])
            && (forall i :: Min(|pending|, |free|) <= i < |pending| ==> pending[i] !in m)
  {
    var kept := Kept(reg.channelByUID, Present(devices));
    PendingFacts(devices, kept);
    AvailableChannelsFacts();
    FreeChannelsIncreasing(AVAILABLE_CHANNELS, kept.Values);
    AssignLoopClosedForm(Pending(devices, kept), kept, kept.Values);
  }

  /** The devices left without a channel are the lexicographically largest
      newcomers: any newcomer that got a channel sorts before them. */
  lemma AssignChannelsSurplusLargest(reg: Registry, devices: seq<AudioInputDevice>, u: string, v: string)
    requires Sorting.Distinct(Uids(devices))
    requires u in Present(devices) && u !in reg.channelByUID
    requires v in Present(devices) && v !in reg.channelByUID
    requires u in AssignChannels(reg, devices).registry.channelByUID
    requires v !in AssignChannels(reg, devices).registry.channelByUID
    ensures Strings.LexLe(u, v)
  {
    var kept := Kept(reg.channelByUID, Present(devices));
    var pending := Pending(devices, kept);
    var free := FreeChannels(AVAILABLE_CHANNELS, kept.Values);
    AssignChannelsNewcomers(reg, devices);
    var i :| 0 <= i < |pending| && pending[i] == u;
    var j :| 0 <= j < |pending| && pending[j] == v;
    assert i < Min(|pending|, |free|);
    assert Min(|pending|, |free|) <= j;
  }

  /** The listed uids depend only on the multiset of uids. */
  lemma PresentOfMultiset(d1: seq<AudioInputDevice>, d2: seq<AudioInputDevice>)
    requires multiset(Uids(d1)) == multiset(Uids(d2))
    ensures Present(d1) == Present(d2)
  {
    var u1, u2 := Uids(d1), Uids(d2);
    forall u
      ensures u in Present(d1) <==> u in Present(d2)
    {
      assert u in u1 <==> u in multiset(u1);
      assert u in u2 <==> u in multiset(u2);
    }
  }

  /** The uids without a kept channel, counted, depend only on the multiset
      of uids. */
  lemma UnassignedOfMultiset(u1: seq<string>, u2: seq<string>, kept: map<string, int>)
    requires multiset(u1) == multiset(u2)
    ensures multiset(Unassigned(u1, kept)) == multiset(Unassigned(u2, kept))
  {
    var un1, un2 := Unassigned(u1, kept), Unassigned(u2, kept);
    forall u
      ensures multiset(un1)[u] == multiset(un2)[u]
    {
    }
  }

  /** Which uids are listed, and which of them wait for a channel, does not
      depend on the order of the device list. */
  lemma PendingOrderIndependent(d1: seq<AudioInputDevice>, d2: seq<AudioInputDevice>, kept: map<string, int>)
    requires multiset(Uids(d1)) == multiset(Uids(d2))
    ensures Present(d1) == Present(d2)
    ensures Pending(d1, kept) == Pending(d2, kept)
  {
    PresentOfMultiset(d1, d2);
    UnassignedOfMultiset(Uids(d1), Uids(d2), kept);
    Strings.LexTotalOrder();
    Sorting.SortIgnoresOrder(Unassigned(Uids(d1), kept), Unassigned(Uids(d2), kept), Strings.LexLe);
  }

  /** The channel map does not depend on the order of the device list. */
  lemma AssignChannelsOrderIndependent(reg: Registry, d1: seq<AudioInputDevice>, d2: seq<AudioInputDevice>)
    requires multiset(Uids(d1)) == multiset(Uids(d2))
    ensures AssignChannels(reg, d1).registry.channelByUID == AssignChannels(reg, d2).registry.channelByUID
  {
    PendingOrderIndependent(d1, d2, Kept(reg.channelByUID, Present(d1)));
    ChannelMapOf(reg, d1);
    ChannelMapOf(reg, d2);
  }

  /** |kept| + |pending| covers every listed uid once. */
  lemma DisjointUnionCard<T>(a: set<T>, b: set<T>)
    requires forall x :: x in b ==> x !in a
    ensures |a + b| == |a| + |b|
  {
    assert a * b == {};
  }

  /** The listed uids are the kept ones plus the pending ones. */
  lemma PresentPartition(devices: seq<AudioInputDevice>, kept: map<string, int>)
    requires kept.Keys <= Present(devices)
    ensures Present(devices) == kept.Keys + (set u | u in Pending(devices, kept))
    ensures forall u :: u in Pending(devices, kept) ==> u !in kept.Keys
  {
  }

  lemma PresentSplit(devices: seq<AudioInputDevice>, kept: map<string, int>)
    requires Sorting.Distinct(Uids(devices))
    requires kept.Keys <= Present(devices)
    ensures |kept.Keys| + |Pending(devices, kept)| == |devices|
  {
    var pending := Pending(devices, kept);
    PendingFacts(devices, kept);
    Sorting.DistinctCard(Uids(devices));
    Sorting.DistinctCard(pending);
    PresentPartition(devices, kept);
    DisjointUnionCard(kept.Keys, set u | u in pending);
  }

  /** After the loop the channel holders are the earlier holders and the
      first `min(#pending, #free)` pending uids. */
  lemma AssignLoopKeys(pending: seq<string>, m: map<string, int>, used: set<int>)
    requires Sorting.Distinct(pending)
    requires forall i :: 0 <= i < |pending| ==> pending[i] !in m
    ensures var k := Min(|pending|, |FreeChannels(AVAILABLE_CHANNELS, used)|);
            AssignLoop(pending, m, used).Keys == m.Keys + (set u | u in pending[..k])
  {
    var k := Min(|pending|, |FreeChannels(AVAILABLE_CHANNELS, used)|);
    var r := AssignLoop(pending, m, used);
    var taken := set u | u in pending[..k];
    AssignLoopClosedForm(pending, m, used);
    assert r.Keys <= m.Keys + taken by {
      AssignLoopFrame(pending, m, used);
      forall u | u in r
        ensures u in m.Keys + taken
      {
        if u in pending {
          var i :| 0 <= i < |pending| && pending[i] == u;
          assert pending[..k][i] == u;
        }
      }
    }
    assert m.Keys <= r.Keys by {
      AssignLoopFrame(pending, m, used);
    }
    forall u | u in taken
      ensures u in r
    {
      var i :| 0 <= i < k && pending[..k][i] == u;
      assert pending[i] == u;
    }
  }

  /** Adding the first `k` of distinct newcomers to the holders adds `k`. */
  lemma TakenCount(pending: seq<string>, m: map<string, int>, k: nat)
    requires Sorting.Distinct(pending) && k <= |pending|
    requires forall i :: 0 <= i < |pending| ==> pending[i] !in m
    ensures |m.Keys + (set u | u in pending[..k])| == |m.Keys| + k
  {
    var taken := set u | u in pending[..k];
    Sorting.DistinctPrefix(pending, k);
    Sorting.DistinctCard(pending[..k]);
    forall u | u in taken
      ensures u !in m.Keys
    {
      var i :| 0 <= i < k && pending[..k][i] == u;
      assert pending[i] == u;
    }
    DisjointUnionCard(m.Keys, taken);
  }

  /** A valid channel map leaves six minus its size channels free. */
  lemma ValidMapFree(m: map<string, int>)
    requires ChannelMapValid(m)
    ensures |FreeChannels(AVAILABLE_CHANNELS, m.Values)| == |AVAILABLE_CHANNELS| - |m.Keys|
  {
    InjectiveValuesCard(m);
    assert forall c :: c in m.Values ==> IsAuxChannel(c);
    FreeAuxCount(m.Values);
  }

  /** Starting from a valid map and its channels, the loop leaves
      `min(#holders + #pending, 6)` channel holders. */
  lemma AssignLoopCount(pending: seq<string>, m: map<string, int>)
    requires Sorting.Distinct(pending)
    requires forall i :: 0 <= i < |pending| ==> pending[i] !in m
    requires ChannelMapValid(m)
    ensures |AssignLoop(pending, m, m.Values).Keys| == Min(|m.Keys| + |pending|, |AVAILABLE_CHANNELS|)
  {
    var k := Min(|pending|, |FreeChannels(AVAILABLE_CHANNELS, m.Values)|);
    AssignLoopKeys(pending, m, m.Values);
    TakenCount(pending, m, k);
    ValidMapFree(m);
  }

  /** With distinct uids exactly `min(#devices, 6)` devices hold a channel. */
  lemma AssignChannelsCount(reg: Registry, devices: seq<AudioInputDevice>)
    requires ChannelMapValid(reg.channelByUID)
    requires Sorting.Distinct(Uids(devices))
    ensures |AssignChannels(reg, devices).registry.channelByUID.Keys| == Min(|devices|, |AVAILABLE_CHANNELS|)
  {
    var kept := Kept(reg.channelByUID, Present(devices));
    ChannelMapOf(reg, devices);
    PendingFacts(devices, kept);
    assert ChannelMapValid(kept);
    AssignLoopCount(Pending(devices, kept), kept);
    PresentSplit(devices, kept);
  }

  /* ---------------- the device map ---------------- */

  /** With distinct uids each listed device replaces its own entry and the
      rest of the map is untouched. */
  lemma {:induction false} RefreshSpec(connected: map<string, AudioInputDevice>, updated: seq<AudioInputDevice>)
    requires Sorting.Distinct(Uids(updated))
    ensures var r := Refresh(connected, updated);
      && (forall i :: 0 <= i < |updated| ==> updated[i].uid in r && r[updated[i].uid] == updated[i])
      && (forall u :: u !in Uids(updated) ==> (u in r <==> u in connected) && (u in connected ==> r[u] == connected[u]))
      && (forall u :: u in r ==> u in connected || u in Uids(updated))
    decreases |updated|
  {
    if |updated| > 0 {
      var tail := updated[1..];
      assert Uids(tail) == Uids(updated)[1..];
      assert Sorting.Distinct(Uids(tail)) by {
        forall i, j | 0 <= i < j < |tail|
          ensures Uids(tail)[i] != Uids(tail)[j]
        {
          assert Uids(updated)[i + 1] != Uids(updated)[j + 1];
        }
      }
      assert updated[0].uid !in Uids(tail) by {
        forall j | 0 <= j < |tail|
          ensures Uids(tail)[j] != updated[0].uid
        {
          assert Uids(updated)[j + 1] != Uids(updated)[0];
        }
      }
      RefreshSpec(connected[updated[0].uid := updated[0]], tail);
      var r := Refresh(connected, updated);
      forall i | 0 <= i < |updated|
        ensures updated[i].uid in r && r[updated[i].uid] == updated[i]
      {
        if i > 0 {
          assert updated[i] == tail[i - 1];
        }
      }
    }
  }

  /** Refreshing adds exactly the listed uids to the device map's keys. */
  lemma {:induction false} RefreshKeys(connected: map<string, AudioInputDevice>, updated: seq<AudioInputDevice>)
    ensures Refresh(connected, updated).Keys == connected.Keys + (set u | u in Uids(updated))
    decreases |updated|
  {
    if |updated| > 0 {
      RefreshKeys(connected[updated[0].uid := updated[0]], updated[1..]);
      assert Uids(updated) == [updated[0].uid] + Uids(updated[1..]);
    }
  }

  /** Filing devices under their own uids keeps the device map well keyed. */
  lemma {:induction false} RefreshWellKeyed(connected: map<string, AudioInputDevice>, updated: seq<AudioInputDevice>)
    requires WellKeyed(connected)
    ensures WellKeyed(Refresh(connected, updated))
    decreases |updated|
  {
    if |updated| > 0 {
      RefreshWellKeyed(connected[updated[0].uid := updated[0]], updated[1..]);
    }
  }

  /** The registry invariant survives an assignment. */
  lemma AssignChannelsPreservesValid(reg: Registry, devices: seq<AudioInputDevice>)
    requires reg.Valid()
    ensures AssignChannels(reg, devices).registry.Valid()
  {
    AssignChannelsValid(reg, devices);
    RefreshWellKeyed(reg.connectedDevicesByUID, AssignChannels(reg, devices).updated);
  }

  /** Writing the same list into the device map twice is writing it once. */
  lemma RefreshIdempotent(connected: map<string, AudioInputDevice>, updated: seq<AudioInputDevice>)
    requires Sorting.Distinct(Uids(updated))
    ensures Refresh(Refresh(connected, updated), updated) == Refresh(connected, updated)
  {
    RefreshSpec(connected, updated);
    RefreshSpec(Refresh(connected, updated), updated);
  }

  /** A valid channel map over listed uids that already holds
      `min(#devices, 6)` entries is a fixed point of the assignment: either
      every listed uid has a channel or no channel is free. */
  lemma NewChannelMapStable(m: map<string, int>, devices: seq<AudioInputDevice>)
    requires ChannelMapValid(m)
    requires Sorting.Distinct(Uids(devices))
    requires m.Keys <= Present(devices)
    requires |m.Keys| == Min(|devices|, |AVAILABLE_CHANNELS|)
    ensures NewChannelMap(m, devices) == m
  {
    assert Kept(m, Present(devices)) == m;
    var pending := Pending(devices, m);
    if |pending| > 0 {
      PresentSplit(devices, m);
      InjectiveValuesCard(m);
      FreeAuxCount(m.Values);
      AssignLoopNoFree(pending, m, m.Values);
    }
  }

  /** Calling `assignChannels` a second time with the same list changes
      neither the registry nor the returned list. */
  lemma AssignChannelsIdempotent(reg: Registry, devices: seq<AudioInputDevice>)
    requires ChannelMapValid(reg.channelByUID)
    requires Sorting.Distinct(Uids(devices))
    ensures var a := AssignChannels(reg, devices);
            AssignChannels(a.registry, devices) == a
  {
    var a := AssignChannels(reg, devices);
    var m1 := a.registry.channelByUID;
    assert NewChannelMap(m1, devices) == m1 by {
      AssignChannelsKeepsAndForgets(reg, devices);
      AssignChannelsValid(reg, devices);
      AssignChannelsCount(reg, devices);
      NewChannelMapStable(m1, devices);
    }
    ChannelMapOf(a.registry, devices);
    var b := AssignChannels(a.registry, devices);
    assert b.updated == a.updated;
    assert Sorting.Distinct(Uids(a.updated)) by {
      assert Uids(a.updated) == Uids(devices);
    }
    RefreshIdempotent(reg.connectedDevicesByUID, a.updated);
  }

  /* ---------------- notification handlers ---------------- */

  /** `order` lists each of `keys` exactly once: an iteration order of the
      dictionary. */
  predicate ListsKeys(order: seq<string>, keys: set<string>) {
    && Sorting.Distinct(order)
    && (forall i :: 0 <= i < |order| ==> order[i] in keys)
    && (forall u :: u in keys ==> u in order)
  }

  /** `Array(connectedDevicesByUID.values)`, iterated in `order`. An
      `order` naming a uid that is not a key is no iteration order of the
      map; the model then sees no devices. */
  function DevicesInOrder(connected: map<string, AudioInputDevice>, order: seq<string>): (r: seq<AudioInputDevice>)
    ensures (forall i :: 0 <= i < |order| ==> order[i] in connected) ==>
      && |r| == |order|
      && (forall i :: 0 <= i < |order| ==> r[i] == connected[order[i]])
  {
    if forall i :: 0 <= i < |order| ==> order[i] in connected then
      seq(|order|, i requires 0 <= i < |order| && order[i] in connected => connected[order[i]])
    else []
  }

  /** In a well-keyed map the devices listed in `order` carry the uids of `order`. */
  lemma DevicesInOrderUids(connected: map<string, AudioInputDevice>, order: seq<string>)
    requires WellKeyed(connected)
    requires forall i :: 0 <= i < |order| ==> order[i] in connected
    ensures Uids(DevicesInOrder(connected, order)) == order
  {
  }

  /** `first(where: { $0.uid == uid })`. */
  function FirstWithUid(devices: seq<AudioInputDevice>, uid: string): (r: Option<AudioInputDevice>)
    ensures r.Some? <==> exists i :: 0 <= i < |devices| && devices[i].uid == uid
    ensures r.Some? ==> r.value in devices && r.value.uid == uid
  {
    if |devices| == 0 then None
    else if devices[0].uid == uid then Some(devices[0])
    else
      var r := FirstWithUid(devices[1..], uid);
      assert forall i :: 1 <= i < |devices| ==> devices[i] == devices[1..][i - 1];
      r
  }

  datatype ConnectResult = ConnectResult(registry: Registry, notified: Option<int>)

  /** The `AVCaptureDeviceWasConnected` handler: files the new device under
      its uid, reassigns channels over all connected devices, and notifies
      the delegate with the device's channel if it received one. */
  function OnConnect(reg: Registry, uid: string, name: string, order: seq<string>): (r: ConnectResult)
  {
    var connected := reg.connectedDevicesByUID[uid := HandlerDevice(uid, name, true)];
    var a := AssignChannels(Registry(connected, reg.channelByUID), DevicesInOrder(connected, order));
    var found := FirstWithUid(a.updated, uid);
    ConnectResult(a.registry, if found.Some? then found.value.assignedChannel else None)
  }

  /** The devices a connect reassigns over, and their uids. */
  lemma OnConnectDevices(reg: Registry, uid: string, name: string, order: seq<string>)
    requires WellKeyed(reg.connectedDevicesByUID)
    requires ListsKeys(order, reg.connectedDevicesByUID[uid := HandlerDevice(uid, name, true)].Keys)
    ensures var connected := reg.connectedDevicesByUID[uid := HandlerDevice(uid, name, true)];
            && WellKeyed(connected)
            && Uids(DevicesInOrder(connected, order)) == order
            && (set u | u in order) == connected.Keys
  {
    var connected := reg.connectedDevicesByUID[uid := HandlerDevice(uid, name, true)];
    DevicesInOrderUids(connected, order);
  }

  /** A connect keeps the registry valid and adds exactly the new uid to the
      device map. */
  lemma OnConnectValid(reg: Registry, uid: string, name: string, order: seq<string>)
    requires reg.Valid()
    requires ListsKeys(order, reg.connectedDevicesByUID[uid := HandlerDevice(uid, name, true)].Keys)
    ensures OnConnect(reg, uid, name, order).registry.Valid()
    ensures OnConnect(reg, uid, name, order).registry.connectedDevicesByUID.Keys
         == reg.connectedDevicesByUID.Keys + {uid}
  {
    var connected := reg.connectedDevicesByUID[uid := HandlerDevice(uid, name, true)];
    AssignChannelsPreservesValid(Registry(connected, reg.channelByUID), DevicesInOrder(connected, order));
    OnConnectKeys(reg, uid, name, order);
  }

  lemma OnConnectKeys(reg: Registry, uid: string, name: string, order: seq<string>)
    requires WellKeyed(reg.connectedDevicesByUID)
    requires ListsKeys(order, reg.connectedDevicesByUID[uid := HandlerDevice(uid, name, true)].Keys)
    ensures OnConnect(reg, uid, name, order).registry.connectedDevicesByUID.Keys
         == reg.connectedDevicesByUID.Keys + {uid}
  {
    var connected := reg.connectedDevicesByUID[uid := HandlerDevice(uid, name, true)];
    OnConnectDevices(reg, uid, name, order);
    AssignChannelsKeys(Registry(connected, reg.channelByUID), DevicesInOrder(connected, order));
  }

  /** Assignment files every listed device under its uid and keeps the
      devices already filed. */
  lemma AssignChannelsKeys(reg: Registry, devices: seq<AudioInputDevice>)
    ensures AssignChannels(reg, devices).registry.connectedDevicesByUID.Keys
         == reg.connectedDevicesByUID.Keys + Present(devices)
  {
    var a := AssignChannels(reg, devices);
    assert Uids(a.updated) == Uids(devices);
    RefreshKeys(reg.connectedDevicesByUID, a.updated);
  }

  /** The delegate is notified exactly when the device received a channel,
      and with that channel. */
  lemma OnConnectNotifies(reg: Registry, uid: string, name: string, order: seq<string>)
    requires WellKeyed(reg.connectedDevicesByUID)
    requires ListsKeys(order, reg.connectedDevicesByUID[uid := HandlerDevice(uid, name, true)].Keys)
    ensures OnConnect(reg, uid, name, order).notified
         == Lookup(OnConnect(reg, uid, name, order).registry.channelByUID, uid)
  {
    var connected := reg.connectedDevicesByUID[uid := HandlerDevice(uid, name, true)];
    var devices := DevicesInOrder(connected, order);
    var a := AssignChannels(Registry(connected, reg.channelByUID), devices);
    assert uid in Uids(devices) by {
      OnConnectDevices(reg, uid, name, order);
      assert uid in connected;
    }
    UpdatedHasUid(Registry(connected, reg.channelByUID), devices, uid);
    FoundCarriesChannel(a.updated, a.registry.channelByUID, uid);
  }

  /** Assignment keeps every listed uid in the returned list. */
  lemma UpdatedHasUid(reg: Registry, devices: seq<AudioInputDevice>, uid: string)
    requires uid in Uids(devices)
    ensures exists i :: 0 <= i < |AssignChannels(reg, devices).updated| && AssignChannels(reg, devices).updated[i].uid == uid
  {
    var i :| 0 <= i < |devices| && Uids(devices)[i] == uid;
    assert AssignChannels(reg, devices).updated[i].uid == uid;
  }

  /** In a list where every device reports its channel in `m`, the first
      device with a uid reports that uid's channel. */
  lemma FoundCarriesChannel(updated: seq<AudioInputDevice>, m: map<string, int>, uid: string)
    requires forall i :: 0 <= i < |updated| ==> updated[i].assignedChannel == Lookup(m, updated[i].uid)
    requires exists i :: 0 <= i < |updated| && updated[i].uid == uid
    ensures FirstWithUid(updated, uid).Some?
    ensures FirstWithUid(updated, uid).value.assignedChannel == Lookup(m, uid)
  {
    var found := FirstWithUid(updated, uid);
    var j :| 0 <= j < |updated| && updated[j] == found.value;
  }

  /** A device that appears while every connected device holds a channel
      gets the lowest free channel, if any, and nothing else changes: the
      channel it may have held before is not remembered. */
  lemma OnConnectNewcomer(reg: Registry, uid: string, name: string, order: seq<string>)
    requires WellKeyed(reg.connectedDevicesByUID)
    requires reg.channelByUID.Keys == reg.connectedDevicesByUID.Keys
    requires uid !in reg.connectedDevicesByUID
    requires ListsKeys(order, reg.connectedDevicesByUID[uid := HandlerDevice(uid, name, true)].Keys)
    ensures var r := OnConnect(reg, uid, name, order);
      && r.notified == FirstFree(AVAILABLE_CHANNELS, reg.channelByUID.Values)
      && r.registry.channelByUID
         == if r.notified.Some? then reg.channelByUID[uid := r.notified.value] else reg.channelByUID
  {
    var connected := reg.connectedDevicesByUID[uid := HandlerDevice(uid, name, true)];
    var devices := DevicesInOrder(connected, order);
    var f := FirstFree(AVAILABLE_CHANNELS, reg.channelByUID.Values);
    var m := if f.Some? then reg.channelByUID[uid := f.value] else reg.channelByUID;
    assert NewChannelMap(reg.channelByUID, devices) == m by {
      OnConnectDevices(reg, uid, name, order);
      NewcomerMap(reg.channelByUID, devices, uid);
    }
    assert OnConnect(reg, uid, name, order).registry.channelByUID == m by {
      ChannelMapOf(Registry(connected, reg.channelByUID), devices);
    }
    assert Lookup(m, uid) == f;
    OnConnectNotifies(reg, uid, name, order);
  }

  /** With every other present uid holding a channel, the channel map after
      assignment differs at most in the one newcomer, which gets the lowest
      free channel. */
  lemma NewcomerMap(m: map<string, int>, devices: seq<AudioInputDevice>, uid: string)
    requires Sorting.Distinct(Uids(devices))
    requires Present(devices) == m.Keys + {uid} && uid !in m
    ensures var f := FirstFree(AVAILABLE_CHANNELS, m.Values);
            NewChannelMap(m, devices) == if f.Some? then m[uid := f.value] else m
  {
    var kept := Kept(m, Present(devices));
    assert kept == m;
    var pending := Pending(devices, kept);
    PendingFacts(devices, kept);
    assert uid in pending;
    Sorting.DistinctSingleton(pending, uid);
    AssignLoopSingle(uid, kept, kept.Values);
  }

  datatype DisconnectResult = DisconnectResult(registry: Registry, notified: Option<(AudioInputDevice, int)>)

  /** The `AVCaptureDeviceWasDisconnected` handler: drops the uid from both
      maps, reassigns channels over the devices still connected, and
      notifies the delegate if the device held a channel. */
  function OnDisconnect(reg: Registry, uid: string, name: string, order: seq<string>): (r: DisconnectResult)
  {
    var previousChannel := Lookup(reg.channelByUID, uid);
    var connected := reg.connectedDevicesByUID - {uid};
    var a := AssignChannels(Registry(connected, reg.channelByUID - {uid}), DevicesInOrder(connected, order));
    DisconnectResult(
      a.registry,
      if previousChannel.Some? then Some((HandlerDevice(uid, name, false), previousChannel.value)) else None)
  }

  /** The devices a disconnect reassigns over, and their uids. */
  lemma OnDisconnectDevices(reg: Registry, uid: string, order: seq<string>)
    requires WellKeyed(reg.connectedDevicesByUID)
    requires ListsKeys(order, reg.connectedDevicesByUID.Keys - {uid})
    ensures var connected := reg.connectedDevicesByUID - {uid};
            && WellKeyed(connected)
            && Uids(DevicesInOrder(connected, order)) == order
            && Present(DevicesInOrder(connected, order)) == connected.Keys
  {
    var connected := reg.connectedDevicesByUID - {uid};
    DevicesInOrderUids(connected, order);
  }

  /** A disconnect keeps the registry valid and forgets the uid entirely. */
  lemma OnDisconnectForgets(reg: Registry, uid: string, name: string, order: seq<string>)
    requires reg.Valid()
    requires ListsKeys(order, reg.connectedDevicesByUID.Keys - {uid})
    ensures var r := OnDisconnect(reg, uid, name, order);
      && r.registry.Valid()
      && r.registry.connectedDevicesByUID.Keys == reg.connectedDevicesByUID.Keys - {uid}
      && uid !in r.registry.channelByUID
  {
    OnDisconnectValid(reg, uid, name, order);
    OnDisconnectKeys(reg, uid, name, order);
    OnDisconnectDropsUid(reg, uid, name, order);
  }

  lemma OnDisconnectValid(reg: Registry, uid: string, name: string, order: seq<string>)
    requires reg.Valid()
    ensures OnDisconnect(reg, uid, name, order).registry.Valid()
  {
    var connected := reg.connectedDevicesByUID - {uid};
    AssignChannelsPreservesValid(Registry(connected, reg.channelByUID - {uid}), DevicesInOrder(connected, order));
  }

  lemma OnDisconnectKeys(reg: Registry, uid: string, name: string, order: seq<string>)
    requires WellKeyed(reg.connectedDevicesByUID)
    requires ListsKeys(order, reg.connectedDevicesByUID.Keys - {uid})
    ensures OnDisconnect(reg, uid, name, order).registry.connectedDevicesByUID.Keys
         == reg.connectedDevicesByUID.Keys - {uid}
  {
    var connected := reg.connectedDevicesByUID - {uid};
    OnDisconnectDevices(reg, uid, order);
    AssignChannelsKeys(Registry(connected, reg.channelByUID - {uid}), DevicesInOrder(connected, order));
  }

  lemma OnDisconnectDropsUid(reg: Registry, uid: string, name: string, order: seq<string>)
    requires WellKeyed(reg.connectedDevicesByUID)
    requires ListsKeys(order, reg.connectedDevicesByUID.Keys - {uid})
    ensures uid !in OnDisconnect(reg, uid, name, order).registry.channelByUID
  {
    var connected := reg.connectedDevicesByUID - {uid};
    OnDisconnectDevices(reg, uid, order);
    AssignChannelsKeepsAndForgets(Registry(connected, reg.channelByUID - {uid}), DevicesInOrder(connected, order));
  }

  /** Every other connected device keeps its channel across a disconnect,
      and the delegate hears of the channel the device held, if any. */
  lemma OnDisconnectKeepsOthers(reg: Registry, uid: string, name: string, order: seq<string>)
    requires WellKeyed(reg.connectedDevicesByUID)
    requires ListsKeys(order, reg.connectedDevicesByUID.Keys - {uid})
    ensures var r := OnDisconnect(reg, uid, name, order);
      && (forall u :: u in reg.channelByUID && u in reg.connectedDevicesByUID && u != uid ==>
            u in r.registry.channelByUID && r.registry.channelByUID[u] == reg.channelByUID[u])
      && (r.notified.Some? <==> uid in reg.channelByUID)
      && (r.notified.Some? ==> r.notified.value.1 == reg.channelByUID[uid] && r.notified.value.0.uid == uid)
  {
    var connected := reg.connectedDevicesByUID - {uid};
    var devices := DevicesInOrder(connected, order);
    var reg1 := Registry(connected, reg.channelByUID - {uid});
    OnDisconnectDevices(reg, uid, order);
    AssignChannelsKeepsAndForgets(reg1, devices);
  }

  /** When every remaining device already holds a channel, a disconnect
      frees the device's channel and changes nothing else. */
  lemma OnDisconnectAllAssigned(reg: Registry, uid: string, name: string, order: seq<string>)
    requires WellKeyed(reg.connectedDevicesByUID)
    requires reg.channelByUID.Keys == reg.connectedDevicesByUID.Keys
    requires ListsKeys(order, reg.connectedDevicesByUID.Keys - {uid})
    ensures OnDisconnect(reg, uid, name, order).registry.channelByUID == reg.channelByUID - {uid}
  {
    var connected := reg.connectedDevicesByUID - {uid};
    var devices := DevicesInOrder(connected, order);
    var reg1 := Registry(connected, reg.channelByUID - {uid});
    assert Present(devices) == reg1.channelByUID.Keys by {
      OnDisconnectDevices(reg, uid, order);
    }
    AllAssignedMap(reg1.channelByUID, devices);
    ChannelMapOf(reg1, devices);
  }

  /** When exactly the listed uids hold channels, the assignment keeps the
      channel map as it is. */
  lemma AllAssignedMap(m: map<string, int>, devices: seq<AudioInputDevice>)
    requires m.Keys == Present(devices)
    ensures NewChannelMap(m, devices) == m
  {
    var kept := Kept(m, Present(devices));
    assert kept == m;
    if |Pending(devices, kept)| > 0 {
      assert false;
    }
  }

  /** A device that is not connected but whose former channel another
      device now holds cannot get that channel back on connecting. */
  lemma ReconnectFindsChannelTaken(reg: Registry, ub: string, c: int, order: seq<string>)
    requires reg.Valid()
    requires reg.channelByUID.Keys == reg.connectedDevicesByUID.Keys
    requires ub !in reg.connectedDevicesByUID
    requires c in reg.channelByUID.Values
    requires ListsKeys(order, reg.connectedDevicesByUID[ub := HandlerDevice(ub, ub, true)].Keys)
    ensures OnConnect(reg, ub, ub, order).notified != Some(c)
  {
    OnConnectNewcomer(reg, ub, ub, order);
  }

  /** A newcomer arriving while every connected device holds a channel
      takes the lowest free one and leaves the channel map otherwise
      intact. */
  lemma NewcomerTakesLowest(reg: Registry, uc: string, c: int, order: seq<string>)
    requires reg.Valid()
    requires reg.channelByUID.Keys == reg.connectedDevicesByUID.Keys
    requires uc !in reg.connectedDevicesByUID
    requires FirstFree(AVAILABLE_CHANNELS, reg.channelByUID.Values) == Some(c)
    requires ListsKeys(order, reg.connectedDevicesByUID[uc := HandlerDevice(uc, uc, true)].Keys)
    ensures var r := OnConnect(reg, uc, uc, order);
      && r.notified == Some(c)
      && r.registry.Valid()
      && r.registry.channelByUID == reg.channelByUID[uc := c]
      && r.registry.connectedDevicesByUID.Keys == reg.connectedDevicesByUID.Keys + {uc}
      && c in r.registry.channelByUID.Values
      && r.registry.channelByUID.Keys == r.registry.connectedDevicesByUID.Keys
  {
    OnConnectNewcomer(reg, uc, uc, order);
    OnConnectValid(reg, uc, uc, order);
    UpdatedValue(reg.channelByUID, uc, c);
  }

  lemma UpdatedValue(m: map<string, int>, u: string, c: int)
    ensures c in m[u := c].Values
  {
    assert m[u := c][u] == c;
  }

  /** The registry keeps no memory of a departed device. Suppose every
      connected device holds a channel and device `ub`, holding channel `c`,
      leaves at a moment when `c` is the lowest channel the others leave
      free. A newcomer `uc` then takes `c`, and when `ub` comes back it
      does not get `c` again. */
  lemma ReconnectLosesFormerChannel(reg: Registry, ub: string, uc: string,
                                    order1: seq<string>, order2: seq<string>, order3: seq<string>)
    requires reg.Valid()
    requires reg.channelByUID.Keys == reg.connectedDevicesByUID.Keys
    requires ub in reg.channelByUID && uc !in reg.connectedDevicesByUID && uc != ub
    requires FirstFree(AVAILABLE_CHANNELS, (reg.channelByUID - {ub}).Values) == Some(reg.channelByUID[ub])
    requires ListsKeys(order1, reg.connectedDevicesByUID.Keys - {ub})
    requires ListsKeys(order2, reg.connectedDevicesByUID.Keys - {ub} + {uc})
    requires ListsKeys(order3, reg.connectedDevicesByUID.Keys + {uc})
    ensures var r1 := OnDisconnect(reg, ub, ub, order1);
            var r2 := OnConnect(r1.registry, uc, uc, order2);
            var r3 := OnConnect(r2.registry, ub, ub, order3);
            && r1.notified == Some((HandlerDevice(ub, ub, false), reg.channelByUID[ub]))
            && r2.notified == Some(reg.channelByUID[ub])
            && r3.notified != Some(reg.channelByUID[ub])
  {
    var c := reg.channelByUID[ub];
    var keys := reg.connectedDevicesByUID.Keys;
    var r1 := OnDisconnect(reg, ub, ub, order1);
    OnDisconnectForgets(reg, ub, ub, order1);
    OnDisconnectKeepsOthers(reg, ub, ub, order1);
    OnDisconnectAllAssigned(reg, ub, ub, order1);
    var reg1 := r1.registry;
    assert reg1.channelByUID.Keys == reg1.connectedDevicesByUID.Keys == keys - {ub};
    AddedKeys(reg1.connectedDevicesByUID, uc, HandlerDevice(uc, uc, true));
    NewcomerTakesLowest(reg1, uc, c, order2);
    var reg2 := OnConnect(reg1, uc, uc, order2).registry;
    assert reg2.connectedDevicesByUID.Keys == keys - {ub} + {uc};
    AddedKeys(reg2.connectedDevicesByUID, ub, HandlerDevice(ub, ub, true));
    SwapKeys(keys, ub, uc);
    ReconnectFindsChannelTaken(reg2, ub, c, order3);
  }

  lemma AddedKeys(m: map<string, AudioInputDevice>, u: string, d: AudioInputDevice)
    ensures m[u := d].Keys == m.Keys + {u}
  {
  }

  lemma SwapKeys(keys: set<string>, ub: string, uc: string)
    requires ub in keys
    ensures keys - {ub} + {uc} + {ub} == keys + {uc}
  {
  }

  /* ---------------- currentChannelAssignments() ---------------- */

  /** `currentChannelAssignments()`, iterating `channelByUID` in `order`:
      each connected device with a channel, filed under that channel and
      stamped with it. */
  function CurrentChannelAssignments(reg: Registry, order: seq<string>): map<int, AudioInputDevice>
    requires forall i :: 0 <= i < |order| ==> order[i] in reg.channelByUID
    decreases |order|
  {
    if |order| == 0 then map[]
    else
      var result := CurrentChannelAssignments(reg, order[..|order| - 1]);
      var u := order[|order| - 1];
      if u in reg.connectedDevicesByUID then
        var channel := reg.channelByUID[u];
        result[channel := reg.connectedDevicesByUID[u].(assignedChannel := Some(channel))]
      else result
  }

  /** Every entry of `r` is a connected device stamped with the channel it
      holds, filed under that channel. */
  predicate EntriesStamped(reg: Registry, r: map<int, AudioInputDevice>) {
    forall c :: c in r ==>
      && r[c].uid in reg.connectedDevicesByUID && r[c].uid in reg.channelByUID
      && reg.channelByUID[r[c].uid] == c
      && r[c] == reg.connectedDevicesByUID[r[c].uid].(assignedChannel := Some(c))
  }

  /** With distinct channels nothing is overwritten: every listed connected
      device appears under its channel, and every entry is a connected
      device stamped with the channel it holds. */
  lemma {:induction false} CurrentChannelAssignmentsPrefix(reg: Registry, order: seq<string>)
    requires Injective(reg.channelByUID) && WellKeyed(reg.connectedDevicesByUID)
    requires forall i :: 0 <= i < |order| ==> order[i] in reg.channelByUID
    ensures var r := CurrentChannelAssignments(reg, order);
      && (forall i :: 0 <= i < |order| && order[i] in reg.connectedDevicesByUID ==>
            reg.channelByUID[order[i]] in r
            && r[reg.channelByUID[order[i]]]
               == reg.connectedDevicesByUID[order[i]].(assignedChannel := Some(reg.channelByUID[order[i]])))
      && EntriesStamped(reg, r)
    decreases |order|
  {
    if |order| > 0 {
      var init := order[..|order| - 1];
      CurrentChannelAssignmentsPrefix(reg, init);
      forall i | 0 <= i < |order| && order[i] in reg.connectedDevicesByUID
        ensures reg.channelByUID[order[i]] in CurrentChannelAssignments(reg, order)
        ensures CurrentChannelAssignments(reg, order)[reg.channelByUID[order[i]]]
             == reg.connectedDevicesByUID[order[i]].(assignedChannel := Some(reg.channelByUID[order[i]]))
      {
        if i < |order| - 1 {
          assert order[i] == init[i];
        }
      }
      var r := CurrentChannelAssignments(reg, order);
      var r0 := CurrentChannelAssignments(reg, init);
      assert EntriesStamped(reg, r0);
      var u := order[|order| - 1];
      forall c | c in r
        ensures r[c].uid in reg.connectedDevicesByUID && r[c].uid in reg.channelByUID
        ensures reg.channelByUID[r[c].uid] == c
        ensures r[c] == reg.connectedDevicesByUID[r[c].uid].(assignedChannel := Some(c))
      {
        if u in reg.connectedDevicesByUID && c == reg.channelByUID[u] {
          assert r[c].uid == u;
        } else {
          assert c in r0 && r[c] == r0[c];
          var v := r0[c].uid;
          assert v in reg.connectedDevicesByUID && v in reg.channelByUID && reg.channelByUID[v] == c;
        }
      }
    }
  }

  /** `currentChannelAssignments()` inverts the channel map over connected
      devices: a channel is a key exactly when a connected device holds it,
      and its entry is that device, stamped with the channel. */
  lemma CurrentChannelAssignmentsInverse(reg: Registry, order: seq<string>)
    requires reg.Valid()
    requires ListsKeys(order, reg.channelByUID.Keys)
    ensures var r := CurrentChannelAssignments(reg, order);
      && (forall u :: u in reg.channelByUID && u in reg.connectedDevicesByUID ==>
            reg.channelByUID[u] in r
            && r[reg.channelByUID[u]] == reg.connectedDevicesByUID[u].(assignedChannel := Some(reg.channelByUID[u])))
      && (forall c :: c in r ==>
            && r[c].uid in reg.channelByUID && r[c].uid in reg.connectedDevicesByUID
            && reg.channelByUID[r[c].uid] == c
            && r[c].assignedChannel == Some(c))
  {
    CurrentChannelAssignmentsPrefix(reg, order);
    var r := CurrentChannelAssignments(reg, order);
    forall u | u in reg.channelByUID && u in reg.connectedDevicesByUID
      ensures reg.channelByUID[u] in r
      ensures r[reg.channelByUID[u]] == reg.connectedDevicesByUID[u].(assignedChannel := Some(reg.channelByUID[u]))
    {
      var i :| 0 <= i < |order| && order[i] == u;
    }
  }
}
