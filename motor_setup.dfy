/**
 * Motor setup of the SO-101 arms, the same in the follower and the leader: before an
 * arm is assembled, each of its Feetech motors is plugged in alone, found by a
 * broadcast ping, and given its id.
 *
 * The motors bus is reduced to what these procedures do with it: whether it is
 * connected, its baud rate, and the record of the pings and setup calls made on it.
 * What a ping at a given rate finds, and what the operator types, are inputs.
 */
module MotorSetup {
  import opened Wrappers
  import opened Text

  /** The motors of an SO-101 arm in declaration order, and their ids. */
  const So101MotorNames: seq<string> :=
    ["shoulder_pan", "shoulder_lift", "elbow_flex", "wrist_flex", "wrist_roll", "gripper"]
  const So101MotorIds: seq<int> := [1, 2, 3, 4, 5, 6]

  /**
   * The motors a broadcast ping finds: (id, model number) pairs, in the order the bus
   * reports them. The source keeps them in a dict, so an id occurs once; nothing here
   * relies on that.
   */
  type Found = seq<(int, int)>

  datatype SetupError =
    | NoMotorsOnBus                      // RuntimeError: no motor answered
    | TooManyMotors(count: nat)          // RuntimeError: rule a, more than one motor
    | WrongMotorCount(count: nat)        // RuntimeError: not exactly one motor
    | Cancelled(found: int, target: int) // RuntimeError: the operator did not confirm
    | UnexpectedMotors(ids: seq<int>)    // RuntimeError: motors outside the expected ids
    | UnknownModel(number: int)          // RuntimeError: no model has this number
    | NotConnected                       // DeviceNotConnectedError
    | AlreadyConnected                   // DeviceAlreadyConnectedError

  /** The operator confirmed: `answer.strip().lower() == "yes"`. */
  predicate IsYes(answer: string) {
    Lower(Strip(answer)) == "yes"
  }

  /** "yes" in any letter case, with any whitespace around it, confirms. */
  lemma YesConfirms(pre: string, w: string, post: string)
    requires forall i :: 0 <= i < |pre| ==> IsSpace(pre[i])
    requires forall i :: 0 <= i < |post| ==> IsSpace(post[i])
    requires Lower(w) == "yes"
    ensures IsYes(pre + w + post)
  {
    assert LowerChar(w[0]) == 'y' && LowerChar(w[2]) == 's';
    StripPadded(pre, w, post);
  }

  /**
   * Conversely, an answer that confirms is "yes" in some letter case with only white
   * space around it.
   */
  lemma ConfirmedIsPaddedYes(answer: string)
    requires IsYes(answer)
    ensures var k := |answer| - |TrimLeft(answer)|;
      && k + 3 <= |answer| && Lower(answer[k..k + 3]) == "yes"
      && (forall i :: 0 <= i < k ==> IsSpace(answer[i]))
      && (forall i :: k + 3 <= i < |answer| ==> IsSpace(answer[i]))
  {
    StripIsSlice(answer);
  }

  /**
   * The rates the scan falls back to, in the order of `rest`: every rate but the
   * current one, up to and including the first that gets an answer.
   */
  function Fallback(rest: seq<int>, current: int, replies: map<int, Found>): (tried: seq<int>)
    ensures |tried| <= |rest|
  {
    if rest == [] then []
    else if rest[0] == current then Fallback(rest[1..], current, replies)
    else if rest[0] in replies then [rest[0]]
    else [rest[0]] + Fallback(rest[1..], current, replies)
  }

  predicate IsPrefix(a: seq<int>, b: seq<int>) {
    |a| <= |b| && b[..|a|] == a
  }

  /**
   * The fallback tries a leading part of the other rates, in their order: the rates of
   * `rest` with the current one skipped, and no others.
   */
  lemma {:induction false} FallbackInOrder(rest: seq<int>, current: int, replies: map<int, Found>)
    ensures IsPrefix(Fallback(rest, current, replies), Others(rest, current))
    decreases |rest|
  {
    if rest != [] && rest[0] != current && rest[0] !in replies {
      FallbackInOrder(rest[1..], current, replies);
    } else if rest != [] && rest[0] == current {
      FallbackInOrder(rest[1..], current, replies);
    }
  }

  /** Every rate the fallback tries but the last went unanswered. */
  lemma {:induction false} FallbackStopsAtAnswer(rest: seq<int>, current: int, replies: map<int, Found>)
    ensures forall i :: 0 <= i < |Fallback(rest, current, replies)| - 1 ==>
      Fallback(rest, current, replies)[i] !in replies
    decreases |rest|
  {
    var tried := Fallback(rest, current, replies);
    if rest != [] && rest[0] != current && rest[0] !in replies {
      var t := Fallback(rest[1..], current, replies);
      FallbackStopsAtAnswer(rest[1..], current, replies);
      assert tried == [rest[0]] + t;
      forall i | 0 <= i < |tried| - 1 ensures tried[i] !in replies {
        if i > 0 {
          assert tried[i] == t[i - 1];
          assert t[i - 1] !in replies;
        }
      }
    } else if rest != [] && rest[0] == current {
      FallbackStopsAtAnswer(rest[1..], current, replies);
      assert tried == Fallback(rest[1..], current, replies);
    }
  }

  /** The fallback ends on an answer exactly when some rate other than the current one answers. */
  lemma {:induction false} FallbackFindsAnswer(rest: seq<int>, current: int, replies: map<int, Found>)
    ensures var tried := Fallback(rest, current, replies);
      (tried != [] && tried[|tried| - 1] in replies)
      <==> exists i :: 0 <= i < |rest| && rest[i] != current && rest[i] in replies
    decreases |rest|
  {
    if rest != [] {
      FallbackFindsAnswer(rest[1..], current, replies);
      assert forall i :: 0 < i < |rest| ==> rest[i] == rest[1..][i - 1];
    }
  }

  /** `rest` without the rate `current`, in order. */
  function Others(rest: seq<int>, current: int): (r: seq<int>)
    ensures forall x :: x in r <==> x in rest && x != current
  {
    if rest == [] then []
    else if rest[0] == current then Others(rest[1..], current)
    else [rest[0]] + Others(rest[1..], current)
  }

  /** The rates a scan pings: the current one, then the fallback when it got no answer. */
  function ScanOrder(current: int, rates: seq<int>, replies: map<int, Found>): (tried: seq<int>)
    ensures tried != [] && tried[0] == current
  {
    if current in replies then [current] else [current] + Fallback(rates, current, replies)
  }

  /** The answer the fallback ends on: the first rate other than `current` that answers. */
  function FallbackFound(rest: seq<int>, current: int, replies: map<int, Found>): Option<Found> {
    if rest == [] then None
    else if rest[0] == current then FallbackFound(rest[1..], current, replies)
    else if rest[0] in replies then Some(replies[rest[0]])
    else FallbackFound(rest[1..], current, replies)
  }

  /** What a scan finds: the current rate's answer, else the one the fallback ends on. */
  function ScanResult(current: int, rates: seq<int>, replies: map<int, Found>): Option<Found> {
    if current in replies then Some(replies[current]) else FallbackFound(rates, current, replies)
  }

  /** The answer the fallback ends on is the one at the last rate it pinged. */
  lemma {:induction false} FallbackFoundIsLast(rest: seq<int>, current: int, replies: map<int, Found>)
    ensures var tried := Fallback(rest, current, replies);
      FallbackFound(rest, current, replies)
      == if tried != [] && tried[|tried| - 1] in replies then Some(replies[tried[|tried| - 1]]) else None
    decreases |rest|
  {
    if rest != [] && rest[0] !in replies {
      FallbackFoundIsLast(rest[1..], current, replies);
      var tail := Fallback(rest[1..], current, replies);
      if rest[0] != current && tail != [] {
        assert ([rest[0]] + tail)[|tail|] == tail[|tail| - 1];
      }
    } else if rest != [] && rest[0] == current {
      FallbackFoundIsLast(rest[1..], current, replies);
    }
  }

  /** What a scan finds is the answer at the last rate it pinged, if that rate answered. */
  lemma ScanResultIsLastPinged(current: int, rates: seq<int>, replies: map<int, Found>)
    ensures var tried := ScanOrder(current, rates, replies);
      ScanResult(current, rates, replies)
      == if tried[|tried| - 1] in replies then Some(replies[tried[|tried| - 1]]) else None
  {
    if current !in replies {
      FallbackFoundIsLast(rates, current, replies);
      var fb := Fallback(rates, current, replies);
      if fb != [] {
        assert ([current] + fb)[|fb|] == fb[|fb| - 1];
      }
    }
  }

  /**
   * A scan finds motors exactly when some rate answers, the current one or another;
   * when the current rate answers, its answer is the one kept.
   */
  lemma ScanFindsIff(current: int, rates: seq<int>, replies: map<int, Found>)
    ensures var found := ScanResult(current, rates, replies);
      (found.Some? <==> current in replies || exists i :: 0 <= i < |rates| && rates[i] in replies)
      && (current in replies ==> found == Some(replies[current]))
  {
    FallbackFindsAnswer(rates, current, replies);
    FallbackFoundIsLast(rates, current, replies);
  }

  /**
   * `_check_and_confirm_motor_setup` once the scan is done: raise unless exactly one
   * motor answered (rule a); set it up when its id is the factory id 1 (rule b, checked
   * first); skip it when its id is already the target (rule c); otherwise set it up only
   * if the operator confirms (rule d).
   */
  function ConfirmSetup(found: Option<Found>, target: int, answer: string): Result<bool, SetupError> {
    if found.None? then Err(NoMotorsOnBus)
    else if |found.value| > 1 then Err(TooManyMotors(|found.value|))
    else if |found.value| == 0 then Err(NoMotorsOnBus)
    else
      var id := found.value[0].0;
      if id == 1 then Ok(true)
      else if id == target then Ok(false)
      else if IsYes(answer) then Ok(true)
      else Err(Cancelled(id, target))
  }

  /**
   * The rules as a whole: no motor and several motors raise; exactly one motor is
   * accepted when it has the factory id, the target id, or the operator's consent, and
   * is skipped exactly when it already has a target id other than 1.
   */
  lemma ConfirmSetupRules(found: Option<Found>, target: int, answer: string)
    ensures var r := ConfirmSetup(found, target, answer);
      (found.None? || (found.Some? && |found.value| == 0) ==> r == Err(NoMotorsOnBus))
      && (found.Some? && |found.value| > 1 ==> r == Err(TooManyMotors(|found.value|)))
      && (r.Ok? <==>
          found.Some? && |found.value| == 1
          && (found.value[0].0 == 1 || found.value[0].0 == target || IsYes(answer)))
      && (r == Ok(false) <==>
          found.Some? && |found.value| == 1 && found.value[0].0 == target && target != 1)
      && (r.Err? && found.Some? && |found.value| == 1 ==> r == Err(Cancelled(found.value[0].0, target)))
  {
  }

  /** What the operator and the bus give for one motor of `setup_motors`. */
  datatype SetupStep = SetupStep(replies: map<int, Found>, answer: string)

  /** The id `setup_motors` expects for its `j`-th motor: the declared motors are visited last first. */
  function VisitedId(ids: seq<int>, j: int): int
    requires 0 <= j < |ids|
  {
    ids[|ids| - 1 - j]
  }

  /** The decision for the `j`-th visited motor. */
  function StepDecision(baud: int, rates: seq<int>, ids: seq<int>, steps: seq<SetupStep>, j: int): Result<bool, SetupError>
    requires 0 <= j < |ids| && j < |steps|
  {
    ConfirmSetup(ScanResult(baud, rates, steps[j].replies), VisitedId(ids, j), steps[j].answer)
  }

  /** The decisions for the first `k` visited motors, in visiting order. */
  function Decisions(baud: int, rates: seq<int>, ids: seq<int>, steps: seq<SetupStep>, k: int): (ds: seq<Result<bool, SetupError>>)
    requires 0 <= k <= |ids| && k <= |steps|
    ensures |ds| == k
  {
    if k == 0 then [] else Decisions(baud, rates, ids, steps, k - 1) + [StepDecision(baud, rates, ids, steps, k - 1)]
  }

  lemma {:induction false} DecisionAt(baud: int, rates: seq<int>, ids: seq<int>, steps: seq<SetupStep>, k: int, j: int)
    requires 0 <= j < k <= |ids| && k <= |steps|
    ensures Decisions(baud, rates, ids, steps, k)[j] == StepDecision(baud, rates, ids, steps, j)
  {
    var prev := Decisions(baud, rates, ids, steps, k - 1);
    assert Decisions(baud, rates, ids, steps, k) == prev + [StepDecision(baud, rates, ids, steps, k - 1)];
    if j < k - 1 {
      DecisionAt(baud, rates, ids, steps, k - 1, j);
      assert Decisions(baud, rates, ids, steps, k)[j] == prev[j];
    }
  }

  /** The rates each of the first `k` visits' scans pinged, in visiting order. */
  function Scans(baud: int, rates: seq<int>, steps: seq<SetupStep>, k: int): (scans: seq<seq<int>>)
    requires 0 <= k <= |steps|
    ensures |scans| == k
  {
    if k == 0 then [] else Scans(baud, rates, steps, k - 1) + [ScanOrder(baud, rates, steps[k - 1].replies)]
  }

  lemma {:induction false} ScanAt(baud: int, rates: seq<int>, steps: seq<SetupStep>, k: int, j: int)
    requires 0 <= j < k <= |steps|
    ensures Scans(baud, rates, steps, k)[j] == ScanOrder(baud, rates, steps[j].replies)
  {
    if j < k - 1 {
      ScanAt(baud, rates, steps, k - 1, j);
    }
  }

  /**
   * Where `setup_motors` stands after some visits: its outcome so far, `expected_ids`,
   * the motors `bus.setup_motor` was called on and the rates pinged, in order.
   */
  datatype Run = Run(outcome: Result<(), SetupError>, expected: seq<int>, calls: seq<string>, pings: seq<int>)

  /**
   * `setup_motors` over its first `k` visits, given each visit's decision `ds` and the
   * rates its scan pinged: after the first error, nothing more happens.
   */
  function SetupRun(names: seq<string>, ids: seq<int>, ds: seq<Result<bool, SetupError>>, scans: seq<seq<int>>, k: int): Run
    requires |names| == |ids| == |ds| == |scans| && 0 <= k <= |ids|
  {
    if k == 0 then Run(Ok(()), [1], [], [])
    else
      var prev := SetupRun(names, ids, ds, scans, k - 1);
      if prev.outcome.Err? then prev
      else if ds[k - 1].Err? then Run(Err(ds[k - 1].error), prev.expected, prev.calls, prev.pings + scans[k - 1])
      else Run(Ok(()), prev.expected + [ids[|ids| - k]],
               prev.calls + (if ds[k - 1].value then [names[|names| - k]] else []), prev.pings + scans[k - 1])
  }

  /** The run succeeds exactly when every visit's decision does. */
  lemma {:induction false} RunOkIff(names: seq<string>, ids: seq<int>, ds: seq<Result<bool, SetupError>>, scans: seq<seq<int>>, k: int)
    requires |names| == |ids| == |ds| == |scans| && 0 <= k <= |ids|
    ensures SetupRun(names, ids, ds, scans, k).outcome.Ok? <==> forall j :: 0 <= j < k ==> ds[j].Ok?
  {
    if k > 0 {
      RunOkIff(names, ids, ds, scans, k - 1);
    }
  }

  /**
   * A failed run failed on its first failing visit, with that visit's error, and every
   * earlier visit went through.
   */
  lemma {:induction false} RunFailsAtFirstError(names: seq<string>, ids: seq<int>, ds: seq<Result<bool, SetupError>>, scans: seq<seq<int>>, k: int)
    requires |names| == |ids| == |ds| == |scans| && 0 <= k <= |ids|
    ensures var run := SetupRun(names, ids, ds, scans, k);
      run.outcome.Err? ==>
        exists i :: 0 <= i < k && ds[i] == Err(run.outcome.error) && forall j :: 0 <= j < i ==> ds[j].Ok?
  {
    if k > 0 {
      RunFailsAtFirstError(names, ids, ds, scans, k - 1);
      if SetupRun(names, ids, ds, scans, k - 1).outcome.Ok? {
        RunOkIff(names, ids, ds, scans, k - 1);
      }
    }
  }

  /** A run that succeeds leaves `expected_ids` as 1 followed by the visited motors' ids. */
  lemma {:induction false} RunExpected(names: seq<string>, ids: seq<int>, ds: seq<Result<bool, SetupError>>, scans: seq<seq<int>>, k: int)
    requires |names| == |ids| == |ds| == |scans| && 0 <= k <= |ids|
    ensures SetupRun(names, ids, ds, scans, k).outcome.Ok? ==>
      SetupRun(names, ids, ds, scans, k).expected == ExpectedAfter(ids, k)
  {
    if k > 0 {
      RunExpected(names, ids, ds, scans, k - 1);
    }
  }

  /** Exactly the motors whose decision was to set them up are set up, in visiting order. */
  lemma {:induction false} RunCallsAccepted(names: seq<string>, ids: seq<int>, ds: seq<Result<bool, SetupError>>, scans: seq<seq<int>>, k: int)
    requires |names| == |ids| == |ds| == |scans| && 0 <= k <= |ids|
    ensures forall c :: c in SetupRun(names, ids, ds, scans, k).calls ==>
      exists j :: 0 <= j < k && ds[j] == Ok(true) && c == names[|names| - 1 - j]
  {
    if k > 0 {
      RunCallsAccepted(names, ids, ds, scans, k - 1);
    }
  }

  /** One more visit of a run that has not failed. */
  lemma RunStep(names: seq<string>, ids: seq<int>, ds: seq<Result<bool, SetupError>>, scans: seq<seq<int>>, k: int)
    requires |names| == |ids| == |ds| == |scans| && 0 <= k < |ids|
    requires SetupRun(names, ids, ds, scans, k).outcome.Ok?
    ensures var prev := SetupRun(names, ids, ds, scans, k);
      var next := SetupRun(names, ids, ds, scans, k + 1);
      next.pings == prev.pings + scans[k]
      && (ds[k].Err? ==> next.outcome == Err(ds[k].error) && next.calls == prev.calls)
      && (ds[k].Ok? ==>
            next.outcome.Ok? && next.expected == prev.expected + [ids[|ids| - 1 - k]]
            && next.calls == prev.calls + (if ds[k].value then [names[|names| - 1 - k]] else []))
  {
  }

  /** After its first error, further visits change nothing. */
  lemma {:induction false} RunStopsAtError(names: seq<string>, ids: seq<int>, ds: seq<Result<bool, SetupError>>, scans: seq<seq<int>>, k: int, n: int)
    requires |names| == |ids| == |ds| == |scans| && 0 <= k <= n <= |ids|
    requires SetupRun(names, ids, ds, scans, k).outcome.Err?
    ensures SetupRun(names, ids, ds, scans, n) == SetupRun(names, ids, ds, scans, k)
    decreases n - k
  {
    if k < n {
      RunStopsAtError(names, ids, ds, scans, k, n - 1);
    }
  }

  /** `expected_ids` after `k` visits: 1, then each visited motor's target id. */
  function ExpectedAfter(ids: seq<int>, k: int): seq<int>
    requires 0 <= k <= |ids|
  {
    if k == 0 then [1] else ExpectedAfter(ids, k - 1) + [VisitedId(ids, k - 1)]
  }

  lemma ExpectedAfterStep(ids: seq<int>, k: int)
    requires 0 <= k < |ids|
    ensures ExpectedAfter(ids, k + 1) == ExpectedAfter(ids, k) + [ids[|ids| - 1 - k]]
  {
  }

  /** `expected_ids` after `k` visits starts with 1 and lists the visited motors' ids in visiting order. */
  lemma {:induction false} ExpectedAfterLists(ids: seq<int>, k: int)
    requires 0 <= k <= |ids|
    ensures |ExpectedAfter(ids, k)| == k + 1 && ExpectedAfter(ids, k)[0] == 1
    ensures forall j :: 0 <= j < k ==> ExpectedAfter(ids, k)[j + 1] == VisitedId(ids, j)
  {
    if k > 0 {
      ExpectedAfterLists(ids, k - 1);
    }
  }

  /** The ids a broadcast ping found, in the order it reports them. */
  function Ids(found: Found): (ids: seq<int>)
    ensures |ids| == |found| && forall i :: 0 <= i < |found| ==> ids[i] == found[i].0
  {
    seq(|found|, i requires 0 <= i < |found| => found[i].0)
  }

  /** `[motor_id for motor_id in found_motors.keys() if motor_id not in expected_ids]` */
  function Unexpected(ids: seq<int>, expected: seq<int>): (u: seq<int>)
    ensures forall x :: x in u <==> x in ids && x !in expected
    ensures |u| <= |ids|
  {
    if ids == [] then []
    else if ids[0] in expected then Unexpected(ids[1..], expected)
    else [ids[0]] + Unexpected(ids[1..], expected)
  }

  /** Why a check of the bus asks the operator to try again (its `(False, msg)` results). */
  datatype RetryReason =
    | WrongCount(count: nat)  // not exactly one motor on the bus
    | UnplugMotor             // the operator declined to change a motor's id
    | UnplugLast              // motors outside the expected ids
    | NoMotorsFound           // no rate got an answer

  /**
   * The outcome of a check for unexpected motors that did not raise: pass, ask the
   * operator to try again, or rewrite one motor's id and then pass.
   */
  datatype Verdict = Pass | Retry(reason: RetryReason) | ForceModify(currentId: int, modelNumber: int, targetId: int)

  /** A raise when `raiseOnError`, the retry otherwise. */
  function RaiseOr(raiseOnError: bool, e: SetupError, reason: RetryReason): (r: Result<Verdict, SetupError>)
    ensures r.Err? <==> raiseOnError
    ensures r.Err? ==> r.error == e
    ensures r.Ok? ==> r.value == Retry(reason)
  {
    if raiseOnError then Err(e) else Ok(Retry(reason))
  }

  /** One id rewrite: `_disable_torque(current_id, model)`, then the new id written to the `ID` register. */
  datatype IdWrite = IdWrite(currentId: int, model: string, targetId: int)

  class FeetechBus {
    /** The motors of the bus (`bus.motors`), in declaration order, and their ids. */
    const motorNames: seq<string>
    const motorIds: seq<int>
    const availableBaudrates: seq<int>
    var connected: bool
    var baudrate: int
    /** Every rate a broadcast ping ran at, oldest first. */
    var pinged: seq<int>
    /** Every motor `setup_motor` was called on, oldest first. */
    var setupCalls: seq<string>
    /** Every id rewrite made with a raw register write, oldest first. */
    var idWrites: seq<IdWrite>
    /** Every `sync_write("Goal_Position", ...)`, oldest first. */
    var goalWrites: seq<map<string, real>>

    ghost predicate Valid()
      reads this
    {
      |motorNames| == |motorIds|
    }

    constructor (motorNames: seq<string>, motorIds: seq<int>, availableBaudrates: seq<int>, baudrate: int)
      requires |motorNames| == |motorIds|
      ensures Valid() && !connected && this.baudrate == baudrate && pinged == [] && setupCalls == []
      ensures idWrites == [] && goalWrites == []
      ensures this.motorNames == motorNames && this.motorIds == motorIds
      ensures this.availableBaudrates == availableBaudrates
    {
      this.motorNames := motorNames;
      this.motorIds := motorIds;
      this.availableBaudrates := availableBaudrates;
      this.baudrate := baudrate;
      connected := false;
      pinged := [];
      setupCalls := [];
      idWrites := [];
      goalWrites := [];
    }

    /**
     * The scan both setup checks start with: connect if needed, ping at the current
     * rate, on no answer try the other available rates in order until one answers, and
     * put the original rate back.
     */
    method Scan(replies: map<int, Found>) returns (found: Option<Found>)
      modifies this`connected, this`baudrate, this`pinged
      ensures connected && baudrate == old(baudrate)
      ensures pinged == old(pinged) + ScanOrder(old(baudrate), availableBaudrates, replies)
      ensures found == ScanResult(old(baudrate), availableBaudrates, replies)
    {
      if !connected {
        connected := true;
      }
      var current := baudrate;
      pinged := pinged + [current];
      found := if current in replies then Some(replies[current]) else None;
      var i := 0;
      while i < |availableBaudrates| && found.None?
        invariant 0 <= i <= |availableBaudrates| && connected
        invariant found.None? ==> current !in replies && |pinged| > 0 && pinged[|pinged| - 1] !in replies
        invariant found.None? ==>
          pinged + Fallback(availableBaudrates[i..], current, replies)
          == old(pinged) + [current] + Fallback(availableBaudrates, current, replies)
        invariant found.Some? ==>
          pinged == old(pinged) + ScanOrder(current, availableBaudrates, replies)
          && |pinged| > 0 && pinged[|pinged| - 1] in replies && found == Some(replies[pinged[|pinged| - 1]])
      {
        var rate := availableBaudrates[i];
        assert availableBaudrates[i..][1..] == availableBaudrates[i + 1..];
        if rate != current {
          baudrate := rate;
          pinged := pinged + [rate];
          if rate in replies {
            assert Fallback(availableBaudrates[i..], current, replies) == [rate];
            found := Some(replies[rate]);
          }
        }
        i := i + 1;
      }
      var tried := ScanOrder(current, availableBaudrates, replies);
      if found.None? {
        assert availableBaudrates[i..] == [];
        assert Fallback(availableBaudrates[i..], current, replies) == [];
        assert pinged + [] == pinged;
        assert tried == [current] + Fallback(availableBaudrates, current, replies);
        assert old(pinged) + [current] + Fallback(availableBaudrates, current, replies) == old(pinged) + tried;
      }
      assert tried[|tried| - 1] == pinged[|pinged| - 1];
      ScanResultIsLastPinged(current, availableBaudrates, replies);
      baudrate := current;
    }

    /** `_check_and_confirm_motor_setup(target)`: scan, then apply rules a to d. */
    method CheckAndConfirm(target: int, replies: map<int, Found>, answer: string) returns (r: Result<bool, SetupError>)
      modifies this`connected, this`baudrate, this`pinged
      ensures connected && baudrate == old(baudrate)
      ensures pinged == old(pinged) + ScanOrder(old(baudrate), availableBaudrates, replies)
      ensures r == ConfirmSetup(ScanResult(old(baudrate), availableBaudrates, replies), target, answer)
    {
      var found := Scan(replies);
      r := ConfirmSetup(found, target, answer);
    }

    /** One visit of `setup_motors`: check and confirm the `j`-th visited motor, and set it up when the rules say so. */
    method Visit(steps: seq<SetupStep>, j: int) returns (d: Result<bool, SetupError>)
      requires Valid() && 0 <= j < |motorNames| <= |steps|
      modifies this`connected, this`baudrate, this`pinged, this`setupCalls
      ensures connected && baudrate == old(baudrate)
      ensures d == Decisions(old(baudrate), availableBaudrates, motorIds, steps, |motorIds|)[j]
      ensures pinged == old(pinged) + Scans(old(baudrate), availableBaudrates, steps, |motorIds|)[j]
      ensures setupCalls == old(setupCalls) + (if d == Ok(true) then [motorNames[|motorNames| - 1 - j]] else [])
    {
      DecisionAt(baudrate, availableBaudrates, motorIds, steps, |motorIds|, j);
      ScanAt(baudrate, availableBaudrates, steps, |motorIds|, j);
      var m := |motorNames| - 1 - j;
      d := CheckAndConfirm(motorIds[m], steps[j].replies, steps[j].answer);
      if d == Ok(true) {
        setupCalls := setupCalls + [motorNames[m]];
      }
    }

    /**
     * `setup_motors`: visit the motors last first; for each, check and confirm; set it up
     * when the rules say so; record its target id in `expected_ids` either way. The first
     * error stops the procedure.
     */
    method SetupMotors(steps: seq<SetupStep>) returns (r: Result<(), SetupError>, expected: seq<int>)
      requires Valid() && |steps| >= |motorNames|
      modifies this`connected, this`baudrate, this`pinged, this`setupCalls
      ensures Valid() && baudrate == old(baudrate)
      ensures var run := SetupRun(motorNames, motorIds, Decisions(old(baudrate), availableBaudrates, motorIds, steps, |motorIds|),
                                  Scans(old(baudrate), availableBaudrates, steps, |motorIds|), |motorIds|);
        r == run.outcome && expected == run.expected
        && setupCalls == old(setupCalls) + run.calls && pinged == old(pinged) + run.pings
    {
      ghost var ds := Decisions(baudrate, availableBaudrates, motorIds, steps, |motorIds|);
      ghost var scans := Scans(baudrate, availableBaudrates, steps, |motorIds|);
      expected := [1];
      var j := 0;
      while j < |motorNames|
        invariant 0 <= j <= |motorNames| && Valid() && baudrate == old(baudrate)
        invariant var run := SetupRun(motorNames, motorIds, ds, scans, j);
          run.outcome.Ok? && expected == run.expected
          && setupCalls == old(setupCalls) + run.calls && pinged == old(pinged) + run.pings
      {
        RunStep(motorNames, motorIds, ds, scans, j);
        var d := Visit(steps, j);
        if d.Err? {
          RunStopsAtError(motorNames, motorIds, ds, scans, j + 1, |motorIds|);
          return Err(d.error), expected;
        }
        expected := expected + [motorIds[|motorIds| - 1 - j]];
        j := j + 1;
      }
      r := Ok(());
    }
  }

  /**
   * A shoulder-pan motor that already carries its target id 1 is set up again: rule b
   * is checked before rule c.
   */
  lemma FactoryIdWinsOverTarget(model: int, answer: string)
    ensures ConfirmSetup(Some([(1, model)]), 1, answer) == Ok(true)
  {
  }

  /** With the SO-101 motors, `expected_ids` ends as 1 followed by the ids from 6 down to 1. */
  lemma So101ExpectedIds()
    ensures ExpectedAfter(So101MotorIds, 6) == [1, 6, 5, 4, 3, 2, 1]
  {
  }
}
