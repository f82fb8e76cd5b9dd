/**
 * Audio mixer-track allocation done by `setupSources` in obsRecorder.js:
 * every audio device other than the one with id "default" gets the next
 * track number (output devices first, then input devices, starting at 2),
 * a two-bit mixer mask (track 1, the mix of all sources, and its own track),
 * and the `RecTracks` setting is the bit mask of tracks 1 to the last one.
 */
module Tracks {

  datatype AudioKind = DesktopAudio | MicAudio

  /** An entry of a probed device list, `{ device_id, name }`. */
  datatype Device = Device(deviceId: string, name: string)

  /**
   * What `setupSources` decides for one device; `mask` is the unsigned
   * reading of the 32-bit `audioMixers` bit pattern.
   */
  datatype Assignment = Assignment(device: Device, kind: AudioKind, track: nat, mask: nat)

  function Pow2(n: nat): nat {
    if n == 0 then 1 else 2 * Pow2(n - 1)
  }

  /** Bit `b` of a natural number is set. */
  predicate NatBit(x: nat, b: nat) {
    if b == 0 then x % 2 == 1 else NatBit(x / 2, b - 1)
  }

  lemma {:induction false} ZeroHasNoBits(b: nat)
    ensures !NatBit(0, b)
  {
    if b > 0 {
      ZeroHasNoBits(b - 1);
    }
  }

  /** A power of two has exactly one bit set. */
  lemma {:induction false} Pow2Bits(n: nat, b: nat)
    ensures NatBit(Pow2(n), b) <==> b == n
  {
    if b == 0 {
      if n > 0 { assert Pow2(n) == 2 * Pow2(n - 1); }
    } else if n == 0 {
      ZeroHasNoBits(b - 1);
    } else {
      assert Pow2(n) / 2 == Pow2(n - 1);
      Pow2Bits(n - 1, b - 1);
    }
  }

  /**
   * `1 | (1 << currentTrack - 1)`: JavaScript's `<<` takes its shift count
   * modulo 32, so bit 0 and bit `(track - 1) % 32` are set (one bit when
   * they coincide).
   */
  function MixerMask(track: nat): (m: nat)
    requires track >= 1
    ensures m % 2 == 1
  {
    var s := (track - 1) % 32;
    if s == 0 then 1 else 1 + Pow2(s)
  }

  /** A mixer mask routes to bit 0 (track 1) and to the bit of its own track, and to nothing else. */
  lemma MixerMaskBits(track: nat, b: nat)
    requires track >= 1
    ensures NatBit(MixerMask(track), b) <==> b == 0 || b == (track - 1) % 32
  {
    var s := (track - 1) % 32;
    if s == 0 {
      Pow2Bits(0, b);
    } else {
      assert Pow2(s) == 2 * Pow2(s - 1);
      if b > 0 {
        assert MixerMask(track) / 2 == Pow2(s - 1);
        Pow2Bits(s - 1, b - 1);
      }
    }
  }

  /** The devices that get a track: all but those with id "default", in order. */
  function NonDefault(devices: seq<Device>): seq<Device> {
    if devices == [] then []
    else if devices[0].deviceId == "default" then NonDefault(devices[1..])
    else [devices[0]] + NonDefault(devices[1..])
  }

  /** The assignment of one device to track `track`. */
  function AssignTrack(d: Device, kind: AudioKind, track: nat): Assignment
    requires track >= 1
  {
    Assignment(d, kind, track, MixerMask(track))
  }

  /**
   * One `forEach` of `setupSources` over `devices`, with `currentTrack`
   * at `first`: a "default" device is skipped, any other takes the current
   * track and advances it.
   */
  function PlanDevices(devices: seq<Device>, kind: AudioKind, first: nat): seq<Assignment>
    requires first >= 1
  {
    if devices == [] then []
    else if devices[0].deviceId == "default" then PlanDevices(devices[1..], kind, first)
    else [AssignTrack(devices[0], kind, first)] + PlanDevices(devices[1..], kind, first + 1)
  }

  /** Both loops of `setupSources`: output devices from track 2, then input devices. */
  function Plan(outputs: seq<Device>, inputs: seq<Device>): seq<Assignment> {
    var out := PlanDevices(outputs, DesktopAudio, 2);
    out + PlanDevices(inputs, MicAudio, 2 + |out|)
  }

  /** `currentTrack - 1` once both loops are done: the last track assigned, or 1. */
  function LastTrack(plan: seq<Assignment>): nat {
    1 + |plan|
  }

  /**
   * The `k`-th device that is not "default" gets track `first + k` and the
   * matching mixer mask.
   */
  lemma {:induction false} PlanDevicesSpec(devices: seq<Device>, kind: AudioKind, first: nat)
    requires first >= 1
    ensures |PlanDevices(devices, kind, first)| == |NonDefault(devices)|
    ensures forall k :: 0 <= k < |NonDefault(devices)| ==>
      PlanDevices(devices, kind, first)[k] == AssignTrack(NonDefault(devices)[k], kind, first + k)
  {
    if devices != [] {
      if devices[0].deviceId == "default" {
        PlanDevicesSpec(devices[1..], kind, first);
      } else {
        PlanDevicesSpec(devices[1..], kind, first + 1);
      }
    }
  }

  /** Every device of `NonDefault(devices)` indeed has an id other than "default". */
  lemma {:induction false} NonDefaultSpec(devices: seq<Device>)
    ensures forall k :: 0 <= k < |NonDefault(devices)| ==> NonDefault(devices)[k].deviceId != "default"
  {
    if devices != [] {
      NonDefaultSpec(devices[1..]);
    }
  }

  /**
   * Conversely, every device with another id is kept, in order: it is the
   * entry of `NonDefault(devices)` that follows those kept before it.
   */
  lemma {:induction false} NonDefaultKeeps(devices: seq<Device>, k: nat)
    requires k < |devices| && devices[k].deviceId != "default"
    ensures |NonDefault(devices[..k])| < |NonDefault(devices)|
    ensures NonDefault(devices)[|NonDefault(devices[..k])|] == devices[k]
  {
    if k > 0 {
      var rest := devices[1..];
      assert devices[..k][0] == devices[0] && devices[..k][1..] == rest[..k - 1];
      NonDefaultKeeps(rest, k - 1);
      assert rest[k - 1] == devices[k];
    }
  }

  /**
   * And nothing else is kept: every entry of `NonDefault(devices)` is a
   * device of `devices` with another id, at the position counted by the
   * devices kept before it.
   */
  lemma {:induction false} NonDefaultOnly(devices: seq<Device>, m: nat)
    requires m < |NonDefault(devices)|
    ensures exists k :: (0 <= k < |devices| && devices[k].deviceId != "default" &&
                         |NonDefault(devices[..k])| == m && NonDefault(devices)[m] == devices[k])
  {
    var rest := devices[1..];
    var skip := devices[0].deviceId == "default";
    if !skip && m == 0 {
      assert devices[..0] == [];
      assert NonDefault(devices)[0] == devices[0];
    } else {
      var m' := if skip then m else m - 1;
      assert NonDefault(devices) == (if skip then [] else [devices[0]]) + NonDefault(rest);
      assert NonDefault(devices)[m] == NonDefault(rest)[m'];
      NonDefaultOnly(rest, m');
      var k :| 0 <= k < |rest| && rest[k].deviceId != "default" &&
        |NonDefault(rest[..k])| == m' && NonDefault(rest)[m'] == rest[k];
      var pre := devices[..k + 1];
      assert pre[0] == devices[0] && pre[1..] == rest[..k];
      assert NonDefault(pre) == (if skip then [] else [devices[0]]) + NonDefault(rest[..k]);
      assert devices[k + 1] == rest[k];
    }
  }

  /** The allocation holds one assignment per device that is not "default". */
  lemma PlanLength(outputs: seq<Device>, inputs: seq<Device>)
    ensures |Plan(outputs, inputs)| == |NonDefault(outputs)| + |NonDefault(inputs)|
  {
    PlanDevicesSpec(outputs, DesktopAudio, 2);
    PlanDevicesSpec(inputs, MicAudio, 2 + |NonDefault(outputs)|);
  }

  /**
   * The first loop: the `k`-th output device that is not "default" gets
   * track `k + 2` and its mixer mask.
   */
  lemma PlanOutputAt(outputs: seq<Device>, inputs: seq<Device>, k: nat)
    requires k < |NonDefault(outputs)|
    ensures k < |Plan(outputs, inputs)|
    ensures Plan(outputs, inputs)[k] == AssignTrack(NonDefault(outputs)[k], DesktopAudio, k + 2)
  {
    var out := PlanDevices(outputs, DesktopAudio, 2);
    PlanDevicesSpec(outputs, DesktopAudio, 2);
    assert Plan(outputs, inputs) == out + PlanDevices(inputs, MicAudio, 2 + |out|);
    assert Plan(outputs, inputs)[k] == out[k];
  }

  /**
   * The second loop continues the numbering: the `k`-th input device that is
   * not "default" gets track `n + k + 2`, where `n` counts the output devices
   * that got one.
   */
  lemma PlanInputAt(outputs: seq<Device>, inputs: seq<Device>, k: nat)
    requires k < |NonDefault(inputs)|
    ensures |NonDefault(outputs)| + k < |Plan(outputs, inputs)|
    ensures Plan(outputs, inputs)[|NonDefault(outputs)| + k] ==
      AssignTrack(NonDefault(inputs)[k], MicAudio, |NonDefault(outputs)| + k + 2)
  {
    var out := PlanDevices(outputs, DesktopAudio, 2);
    PlanDevicesSpec(outputs, DesktopAudio, 2);
    var n := |out|;
    var inp := PlanDevices(inputs, MicAudio, 2 + n);
    PlanDevicesSpec(inputs, MicAudio, 2 + n);
    assert inp[k] == AssignTrack(NonDefault(inputs)[k], MicAudio, n + k + 2);
    assert Plan(outputs, inputs) == out + inp;
    assert (out + inp)[n + k] == inp[k];
  }

  /** The `k`-th assignment of the whole allocation has track `k + 2` and that track's mask. */
  lemma PlanTrackAt(outputs: seq<Device>, inputs: seq<Device>, k: nat)
    requires k < |Plan(outputs, inputs)|
    ensures Plan(outputs, inputs)[k].track == k + 2
    ensures Plan(outputs, inputs)[k].mask == MixerMask(k + 2)
  {
    PlanLength(outputs, inputs);
    var n := |NonDefault(outputs)|;
    if k < n {
      PlanOutputAt(outputs, inputs, k);
    } else {
      PlanInputAt(outputs, inputs, k - n);
    }
  }

  // ---------------------------------------------------------------------------
  // RecTracks: parseInt('1'.repeat(currentTrack - 1), 2)
  // ---------------------------------------------------------------------------

  function Repeat(c: char, n: nat): (s: string)
    ensures |s| == n && forall k :: 0 <= k < n ==> s[k] == c
  {
    if n == 0 then [] else Repeat(c, n - 1) + [c]
  }

  predicate IsBinary(s: string) {
    forall k :: 0 <= k < |s| ==> s[k] == '0' || s[k] == '1'
  }

  /** `parseInt(s, 2)` for a string of binary digits. */
  function ParseBinary(s: string): nat
    requires IsBinary(s)
  {
    if s == [] then 0 else 2 * ParseBinary(s[..|s| - 1]) + (if s[|s| - 1] == '1' then 1 else 0)
  }

  function RecTracks(lastTrack: nat): nat {
    ParseBinary(Repeat('1', lastTrack))
  }

  /** `RecTracks(n)` is 2^n - 1: exactly the bits 0 .. n-1 are set. */
  lemma {:induction false} RecTracksSpec(n: nat)
    ensures RecTracks(n) == Pow2(n) - 1
    ensures forall b: nat :: NatBit(RecTracks(n), b) <==> b < n
  {
    if n > 0 {
      RecTracksSpec(n - 1);
      assert Repeat('1', n)[..n - 1] == Repeat('1', n - 1);
      assert RecTracks(n) == 2 * RecTracks(n - 1) + 1;
      forall b: nat ensures NatBit(RecTracks(n), b) <==> b < n {
        if b > 0 {
          assert RecTracks(n) / 2 == RecTracks(n - 1);
        }
      }
    } else {
      forall b: nat ensures !NatBit(0, b) {
        ZeroHasNoBits(b);
      }
    }
  }

  /**
   * Every bit of every device's mixer mask is a bit of `RecTracks`: the
   * recording covers every track a device is routed to.
   */
  lemma MasksWithinRecTracks(outputs: seq<Device>, inputs: seq<Device>)
    ensures forall k: nat, b: nat ::
      (k < |Plan(outputs, inputs)| && NatBit(Plan(outputs, inputs)[k].mask, b))
      ==> NatBit(RecTracks(LastTrack(Plan(outputs, inputs))), b)
  {
    var last := LastTrack(Plan(outputs, inputs));
    RecTracksSpec(last);
    forall k: nat, b: nat | k < |Plan(outputs, inputs)| && NatBit(Plan(outputs, inputs)[k].mask, b)
      ensures NatBit(RecTracks(last), b)
    {
      MaskBitBelowLast(outputs, inputs, k, b);
    }
  }

  /** A bit of the `k`-th mask lies below the last track. */
  lemma MaskBitBelowLast(outputs: seq<Device>, inputs: seq<Device>, k: nat, b: nat)
    requires k < |Plan(outputs, inputs)| && NatBit(Plan(outputs, inputs)[k].mask, b)
    ensures b < LastTrack(Plan(outputs, inputs))
  {
    PlanTrackAt(outputs, inputs, k);
    MixerMaskBits(k + 2, b);
  }
}
