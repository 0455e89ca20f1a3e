/**
 * The processor a drag-teach recording runs: the robot's own joint positions, read
 * while the operator moves the arms by hand, become the action to record.
 */
module DragTeachProcessor {
  import opened Text
  import Follower = Rm65Follower
  import BiFollower = BiRm65Follower

  /** A key the processor keeps: it contains `.pos` and does not contain `image`. */
  predicate IsPositionKey(k: string) {
    Contains(k, ".pos") && !Contains(k, "image")
  }

  /**
   * `rm65_drag_teach_processor((teleop_action, observation))`: the observation's entries
   * under position keys, values copied; the teleoperator's action is not looked at.
   */
  function DragTeachAction<T, V>(data: (T, map<string, V>)): (action: map<string, V>)
    ensures forall k :: k in action <==> k in data.1 && Contains(k, ".pos") && !Contains(k, "image")
    ensures forall k :: k in action ==> action[k] == data.1[k]
    ensures action.Keys <= data.1.Keys
  {
    map k | k in data.1 && IsPositionKey(k) :: data.1[k]
  }

  /** Feeding the processor its own output as the observation gives that output back. */
  lemma DragTeachIdempotent<T, V>(t: T, u: T, obs: map<string, V>)
    ensures DragTeachAction((u, DragTeachAction((t, obs)))) == DragTeachAction((t, obs))
  {
  }

  /** Every character of a string `s` contains occurs in `s`. */
  lemma {:induction false} ContainedCharsOccur(s: string, sub: string, c: char)
    requires Contains(s, sub) && c in sub
    ensures c in s
    decreases |s|
  {
    if StartsWith(s, sub) {
      var i :| 0 <= i < |sub| && sub[i] == c;
      assert s[i] == c;
    } else {
      ContainedCharsOccur(s[1..], sub, c);
      var i :| 0 <= i < |s[1..]| && s[1..][i] == c;
      assert s[i + 1] == c;
    }
  }

  /** A string contains each of its suffixes. */
  lemma {:induction false} SuffixContained(s: string, p: string)
    requires EndsWith(s, p)
    ensures Contains(s, p)
    decreases |s|
  {
    if |s| == |p| {
      assert s[..|p|] == s == p;
    } else {
      assert s[1..][|s| - 1 - |p|..] == s[|s| - |p|..];
      SuffixContained(s[1..], p);
    }
  }

  /**
   * A key without the letter `m` that ends in `.pos` is kept: this covers every joint
   * key `joint_i.pos`, bare or under `left_`/`right_`.
   */
  lemma PositionKeyKept(k: string)
    requires EndsWith(k, ".pos") && 'm' !in k
    ensures IsPositionKey(k)
  {
    SuffixContained(k, ".pos");
    if Contains(k, "image") {
      ContainedCharsOccur(k, "image", 'm');
    }
  }

  /** Each joint key of a bimanual arm is kept by the processor. */
  lemma SideKeyKept(prefix: string, i: int)
    requires prefix == BiFollower.LeftPrefix || prefix == BiFollower.RightPrefix
    requires 0 <= i < 6
    ensures IsPositionKey(prefix + Follower.MotorKeys[i])
  {
    var k := prefix + Follower.MotorKeys[i];
    assert k[|k| - 4..] == ".pos";
    assert forall j :: 0 <= j < |k| ==> k[j] != 'm';
    PositionKeyKept(k);
  }

  /**
   * Run on an observation of the bimanual follower whose camera names are not position
   * keys, the processor gives exactly the twelve joint positions, as the recorded action.
   */
  lemma BiObservationToAction<T, V>(t: T, obs: map<string, V>, names: seq<string>)
    requires obs.Keys == BiFollower.BiMotorFeatures().Keys + set i | 0 <= i < |names| :: names[i]
    requires forall i :: 0 <= i < |names| ==> !IsPositionKey(names[i])
    ensures DragTeachAction((t, obs)).Keys == BiFollower.BiMotorFeatures().Keys
  {
    forall k | k in BiFollower.BiMotorFeatures() ensures IsPositionKey(k) {
      if k in BiFollower.SideKeys(BiFollower.LeftPrefix) {
        var i :| 0 <= i < 6 && BiFollower.SideKeys(BiFollower.LeftPrefix)[i] == k;
        SideKeyKept(BiFollower.LeftPrefix, i);
      } else {
        var i :| 0 <= i < 6 && BiFollower.SideKeys(BiFollower.RightPrefix)[i] == k;
        SideKeyKept(BiFollower.RightPrefix, i);
      }
    }
  }
}
