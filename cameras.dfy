/**
 * The cameras a robot holds (`self.cameras`, built from its configuration): a group of
 * named cameras that the robot connects, reads and disconnects one after the other.
 * Each camera is reduced to whether it is connected; whether its `connect()` returns
 * and what its `async_read()` gives are inputs.
 */
module Cameras {
  import opened Wrappers

  type byte = bv8

  datatype Picture = Picture(height: int, width: int, pixels: seq<byte>)

  /** A value of an observation: a joint position in degrees, or a camera image. */
  datatype Reading = Position(deg: real) | Image(picture: Picture)

  /** Whether camera `i`'s `connect()` returns: `oks[i]`, or true past the end of `oks`. */
  predicate ConnectOk(oks: seq<bool>, i: nat) {
    i >= |oks| || oks[i]
  }

  /** `obs[name] = cam.async_read()` for each camera in order; a camera with no shot raises. */
  function AddImages(obs: map<string, Reading>, names: seq<string>, shots: map<string, Picture>)
    : (r: Result<map<string, Reading>, string>)
    ensures r.Ok? <==> forall i :: 0 <= i < |names| ==> names[i] in shots
    ensures r.Ok? ==> r.value.Keys == obs.Keys + set i | 0 <= i < |names| :: names[i]
    ensures r.Ok? ==> forall i :: 0 <= i < |names| ==> r.value[names[i]] == Image(shots[names[i]])
    ensures r.Ok? ==> forall k :: k in obs && k !in names ==> r.value[k] == obs[k]
    ensures r.Err? ==> exists i :: 0 <= i < |names| && names[i] !in shots && r.error == names[i]
    decreases |names|
  {
    if names == [] then Ok(obs)
    else if names[0] !in shots then Err(names[0])
    else
      var r := AddImages(obs[names[0] := Image(shots[names[0]])], names[1..], shots);
      assert forall i :: 0 < i < |names| ==> names[i] == names[1..][i - 1];
      assert r.Ok? ==> forall i :: 0 <= i < |names| ==> r.value[names[i]] == Image(shots[names[i]]) by {
        if r.Ok? {
          forall i | 0 <= i < |names| ensures r.value[names[i]] == Image(shots[names[i]]) {
            if i > 0 || names[0] in names[1..] {
              if i == 0 {
                var j :| 0 <= j < |names[1..]| && names[1..][j] == names[0];
              }
            }
          }
        }
      }
      assert r.Ok? ==> r.value.Keys == obs.Keys + set i | 0 <= i < |names| :: names[i] by {
        if r.Ok? {
          var tail := set i | 0 <= i < |names[1..]| :: names[1..][i];
          assert (set i | 0 <= i < |names| :: names[i]) == {names[0]} + tail by {
            forall k | k in tail ensures k in (set i | 0 <= i < |names| :: names[i]) {
              var j :| 0 <= j < |names[1..]| && names[1..][j] == k;
              assert names[j + 1] == k;
            }
          }
        }
      }
      assert r.Err? ==> exists i :: 0 <= i < |names| && names[i] !in shots && r.error == names[i] by {
        if r.Err? {
          var j :| 0 <= j < |names[1..]| && names[1..][j] !in shots && r.error == names[1..][j];
          assert names[j + 1] == names[1..][j];
        }
      }
      r
  }

  class CameraRig {
    /** The camera names, in the configuration's order, and each camera's (height, width). */
    const names: seq<string>
    const shapes: seq<(int, int)>
    /** `cam.is_connected` for each camera. */
    var up: seq<bool>

    ghost predicate Valid()
      reads this
    {
      |up| == |names| && |shapes| == |names|
    }

    /** `all(cam.is_connected for cam in self.cameras.values())` */
    predicate AllConnected()
      reads this
    {
      forall i :: 0 <= i < |up| ==> up[i]
    }

    constructor (names: seq<string>, shapes: seq<(int, int)>)
      requires |shapes| == |names|
      ensures Valid() && this.names == names && this.shapes == shapes
      ensures |up| == |names| && forall i :: 0 <= i < |up| ==> !up[i]
    {
      this.names := names;
      this.shapes := shapes;
      up := seq(|names|, _ => false);
    }

    /**
     * `for cam in self.cameras.values(): cam.connect()`: connect in order; the first
     * camera whose `connect()` raises stops the loop, the ones before it stay connected.
     */
    method ConnectAll(oks: seq<bool>) returns (failedAt: Option<nat>)
      requires Valid()
      modifies this`up
      ensures Valid()
      ensures failedAt.None? <==> forall i :: 0 <= i < |names| ==> ConnectOk(oks, i)
      ensures failedAt.None? ==> AllConnected()
      ensures failedAt.Some? ==>
        failedAt.value < |names| && !ConnectOk(oks, failedAt.value)
        && (forall i :: 0 <= i < failedAt.value ==> ConnectOk(oks, i))
        && (forall i :: 0 <= i < |up| ==> up[i] == if i < failedAt.value then true else old(up)[i])
    {
      var i := 0;
      while i < |names|
        invariant 0 <= i <= |names| && Valid()
        invariant forall j :: 0 <= j < i ==> ConnectOk(oks, j)
        invariant forall j :: 0 <= j < |up| ==> up[j] == if j < i then true else old(up)[j]
      {
        if !ConnectOk(oks, i) {
          return Some(i);
        }
        up := up[i := true];
        i := i + 1;
      }
      return None;
    }

    /**
     * Whether camera `i`'s `disconnect()` returns. A connected camera always does. A
     * disconnected one raises `DeviceNotConnectedError` when `strict[i]` holds: an FFmpeg
     * camera with no reader thread; an Orbbec camera returns. Past the end of `strict`
     * a camera does not raise.
     */
    predicate DisconnectOk(before: seq<bool>, strict: seq<bool>, i: nat)
      requires i < |before|
    {
      before[i] || i >= |strict| || !strict[i]
    }

    /**
     * `for cam in self.cameras.values(): cam.disconnect()`: disconnect in order; the
     * first camera whose `disconnect()` raises stops the loop, the ones before it end
     * disconnected and the ones from it on keep their state.
     */
    method DisconnectAll(strict: seq<bool>) returns (failedAt: Option<nat>)
      requires Valid()
      modifies this`up
      ensures Valid()
      ensures failedAt.None? <==> forall i :: 0 <= i < |names| ==> DisconnectOk(old(up), strict, i)
      ensures failedAt.None? ==> forall i :: 0 <= i < |up| ==> !up[i]
      ensures failedAt.Some? ==>
        failedAt.value < |names| && !DisconnectOk(old(up), strict, failedAt.value)
        && (forall i :: 0 <= i < failedAt.value ==> DisconnectOk(old(up), strict, i))
        && (forall i :: 0 <= i < |up| ==> up[i] == if i < failedAt.value then false else old(up)[i])
    {
      var before := up;
      var i := 0;
      while i < |up|
        invariant 0 <= i <= |up| && Valid() && before == old(up)
        invariant forall j :: 0 <= j < i ==> DisconnectOk(before, strict, j)
        invariant forall j :: 0 <= j < |up| ==> up[j] == if j < i then false else before[j]
      {
        if !DisconnectOk(before, strict, i) {
          return Some(i);
        }
        up := up[i := false];
        i := i + 1;
      }
      return None;
    }

    /**
     * The images of one observation: each camera's `async_read()` in order, added to
     * `obs`; the first camera with no shot raises.
     */
    method ReadAll(obs: map<string, Reading>, shots: map<string, Picture>) returns (r: Result<map<string, Reading>, string>)
      ensures r == AddImages(obs, names, shots)
    {
      var acc := obs;
      var i := 0;
      while i < |names|
        invariant 0 <= i <= |names|
        invariant AddImages(acc, names[i..], shots) == AddImages(obs, names, shots)
      {
        if names[i] !in shots {
          return Err(names[i]);
        }
        acc := acc[names[i] := Image(shots[names[i]])];
        assert names[i..][1..] == names[i + 1..];
        i := i + 1;
      }
      return Ok(acc);
    }
  }
}
