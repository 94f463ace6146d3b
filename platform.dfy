/** SensiboPlatform: the accessories restored from HomeKit's cache and the discovery rule. */
module Platform {
  import opened Wrappers

  /** A device as listed by /users/me/pods (only the fields discovery uses). */
  datatype Device = Device(id: string, roomName: string)

  /** A HomeKit platform accessory: its display name, UUID and the device in its context. */
  datatype PlatformAccessory = PlatformAccessory(displayName: string, uuid: string, device: Option<Device>)

  /** What discovery does for one device: reuse a cached accessory, or create and register a new one. */
  datatype Discovery =
    | Restored(accessory: PlatformAccessory, device: Device)
    | Registered(accessory: PlatformAccessory, device: Device)

  /** The first accessory with the given UUID, as Array.prototype.find returns it. */
  function Find(accessories: seq<PlatformAccessory>, uuid: string): (r: Option<PlatformAccessory>)
    ensures r.Some? <==> exists i :: 0 <= i < |accessories| && accessories[i].uuid == uuid
    ensures r.Some? ==> exists i :: 0 <= i < |accessories| && accessories[i] == r.value
                          && r.value.uuid == uuid
                          && forall j :: 0 <= j < i ==> accessories[j].uuid != uuid
  {
    if accessories == [] then None
    else if accessories[0].uuid == uuid then Some(accessories[0])
    else
      var rest := Find(accessories[1..], uuid);
      if rest.Some? then
        ghost var k :| 0 <= k < |accessories| - 1 && accessories[1..][k] == rest.value
                       && forall j :: 0 <= j < k ==> accessories[1..][j].uuid != uuid;
        assert accessories[k + 1] == rest.value;
        assert forall j :: 0 <= j < k + 1 ==> accessories[j].uuid != uuid by {
          forall j | 0 <= j < k + 1 ensures accessories[j].uuid != uuid {
            if j > 0 { assert accessories[j] == accessories[1..][j - 1]; }
          }
        }
        rest
      else
        assert forall i :: 1 <= i < |accessories| ==> accessories[i] == accessories[1..][i - 1];
        rest
  }

  /** The discovery decision for one device, given the cached accessories and the UUID generator. */
  function DiscoveryFor(accessories: seq<PlatformAccessory>, generate: string -> string, d: Device): Discovery
  {
    var uuid := generate(d.id);
    match Find(accessories, uuid)
    case Some(existing) => Restored(existing, d)
    case None => Registered(PlatformAccessory(d.roomName, uuid, Some(d)), d)
  }

  class SensiboPlatform {
    var accessories: seq<PlatformAccessory>
    /** Whether discovery was hooked to the launch event (an API key is set and the API is present). */
    var discoversOnLaunch: bool

    constructor (apiKey: Option<string>, apiPresent: bool)
      ensures accessories == []
      ensures discoversOnLaunch <==> apiKey.Some? && apiKey.value != "" && apiPresent
    {
      accessories := [];
      discoversOnLaunch := apiKey.Some? && apiKey.value != "" && apiPresent;
    }

    /** Called for each accessory HomeKit restores from its cache: appends it. */
    method ConfigureAccessory(accessory: PlatformAccessory)
      modifies this
      ensures accessories == old(accessories) + [accessory]
      ensures discoversOnLaunch == old(discoversOnLaunch)
    {
      accessories := accessories + [accessory];
    }

    /** `this.accessories.find(accessory => accessory.UUID === uuid)`. */
    method FindAccessory(uuid: string) returns (found: Option<PlatformAccessory>)
      ensures found == Find(accessories, uuid)
      ensures found.Some? ==> found.value in accessories && found.value.uuid == uuid
    {
      var i := 0;
      while i < |accessories|
        invariant 0 <= i <= |accessories|
        invariant Find(accessories, uuid) == Find(accessories[i..], uuid)
      {
        if accessories[i].uuid == uuid {
          return Some(accessories[i]);
        }
        assert accessories[i..][1..] == accessories[i + 1..];
        i := i + 1;
      }
      return None;
    }

    /**
     * Discovery over the listed devices (None when the listing request failed):
     * each device reuses the cached accessory with its UUID, or gets a new one.
     * The cached accessories are not changed.
     */
    method DiscoverDevices(devices: Option<seq<Device>>, generate: string -> string)
      returns (discovered: seq<Discovery>)
      ensures devices.None? ==> discovered == []
      ensures devices.Some? ==> |discovered| == |devices.value|
      ensures devices.Some? ==> forall i :: 0 <= i < |discovered| ==>
                discovered[i] == DiscoveryFor(accessories, generate, devices.value[i])
    {
      discovered := [];
      if devices.None? {
        return;
      }
      var list := devices.value;
      var n := 0;
      while n < |list|
        invariant 0 <= n <= |list|
        invariant |discovered| == n
        invariant forall i :: 0 <= i < n ==> discovered[i] == DiscoveryFor(accessories, generate, list[i])
      {
        var device := list[n];
        var uuid := generate(device.id);
        var existing := FindAccessory(uuid);
        if existing.Some? {
          discovered := discovered + [Restored(existing.value, device)];
        } else {
          discovered := discovered + [Registered(PlatformAccessory(device.roomName, uuid, Some(device)), device)];
        }
        n := n + 1;
      }
    }
  }

  /** A device is registered anew exactly when no cached accessory has its UUID; otherwise that accessory is reused. */
  lemma RegisteredIffNoMatch(accessories: seq<PlatformAccessory>, generate: string -> string, d: Device)
    ensures DiscoveryFor(accessories, generate, d).Registered?
      <==> forall i :: 0 <= i < |accessories| ==> accessories[i].uuid != generate(d.id)
    ensures DiscoveryFor(accessories, generate, d).Restored? ==>
      DiscoveryFor(accessories, generate, d).accessory in accessories
      && DiscoveryFor(accessories, generate, d).accessory.uuid == generate(d.id)
    ensures DiscoveryFor(accessories, generate, d).Registered? ==>
      DiscoveryFor(accessories, generate, d).accessory == PlatformAccessory(d.roomName, generate(d.id), Some(d))
  {
  }

  /** Appending an accessory never changes which accessory an already-matching UUID finds. */
  lemma {:induction false} FindAfterConfigure(accessories: seq<PlatformAccessory>, a: PlatformAccessory, uuid: string)
    ensures Find(accessories, uuid).Some? ==> Find(accessories + [a], uuid) == Find(accessories, uuid)
    ensures Find(accessories, uuid).None? ==> Find(accessories + [a], uuid) == if a.uuid == uuid then Some(a) else None
  {
    if accessories == [] {
      assert accessories + [a] == [a];
      assert [a][1..] == [];
    } else {
      assert (accessories + [a])[1..] == accessories[1..] + [a];
      FindAfterConfigure(accessories[1..], a, uuid);
    }
  }

  /** Once an accessory is configured, discovering a device with its UUID restores an accessory instead of registering one. */
  lemma ConfiguredAccessoryIsRestored(accessories: seq<PlatformAccessory>, a: PlatformAccessory, generate: string -> string, d: Device)
    requires generate(d.id) == a.uuid
    ensures DiscoveryFor(accessories + [a], generate, d).Restored?
  {
    FindAfterConfigure(accessories, a, a.uuid);
  }
}
