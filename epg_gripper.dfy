/**
 * The EPG gripper client: a TCP client that drives the gripper through the arm
 * controller's JSON command channel. Registers 1000 (control), 1001 (position and
 * speed) and 1002 (force and speed) are written and read with one-line JSON commands.
 *
 * The socket is modelled by two traces: `sent`, every command string that left the
 * client, and `inbox`, the chunks the controller has delivered that nobody has read.
 * Whether a send or a connect succeeds is an input of the operation.
 */
module EpgGripper {
  import opened Wrappers
  import opened Text

  // ---------------------------------------------------------------------------
  // Command lines
  // ---------------------------------------------------------------------------

  const VoltageCommand: string := "{\"command\":\"set_tool_voltage\",\"voltage_type\":3}\r\n"
  const ModbusModeCommand: string :=
    "{\"command\":\"set_modbus_mode\",\"port\":1,\"baudrate\":115200,\"timeout\":2}\r\n"
  const ReadRegistersName: string := "read_holding_registers"

  /** A `write_registers` command: one register at `address` receives the byte pair `[hi,lo]`. */
  function WriteRegisters(address: int, hi: int, lo: int, device: int): (cmd: string)
    ensures StartsWith(cmd, "{\"command\":\"write_registers\",\"port\":1,\"address\":")
    ensures EndsWith(cmd, "}\r\n")
  {
    var head := "{\"command\":\"write_registers\",\"port\":1,\"address\":";
    var rest := IntToString(address) + ",\"num\":1,\"data\":[" + IntToString(hi) + ","
      + IntToString(lo) + "],\"device\":" + IntToString(device) + "}\r\n";
    StartsWithConcat(head, rest);
    assert head + rest == (head + (rest[..|rest| - 3])) + "}\r\n";
    EndsWithConcat(head + (rest[..|rest| - 3]), "}\r\n");
    head + rest
  }

  /** The `read_holding_registers` command for register 1001. */
  function ReadPositionCommand(device: int): string
  {
    "{\"command\":\"read_holding_registers\",\"port\":1,\"address\":1001,\"num\":1,\"device\":"
      + IntToString(device) + "}\r\n"
  }

  /** The five commands the initialisation sequence issues, in order. */
  function InitCommands(device: int, force: int, speed: int): (cmds: seq<string>)
    ensures |cmds| == 5
    ensures cmds[0] == VoltageCommand && cmds[1] == ModbusModeCommand
    ensures cmds[2] == WriteRegisters(1000, 0, 0, device)
    ensures cmds[3] == WriteRegisters(1000, 0, 1, device)
    ensures cmds[4] == WriteRegisters(1002, force, speed, device)
  {
    [VoltageCommand, ModbusModeCommand, WriteRegisters(1000, 0, 0, device),
     WriteRegisters(1000, 0, 1, device), WriteRegisters(1002, force, speed, device)]
  }

  // ---------------------------------------------------------------------------
  // Position arithmetic
  // ---------------------------------------------------------------------------

  /** Python's `int(x)` on a float: truncation toward zero. */
  function Trunc(x: real): (n: int)
    ensures 0.0 <= x ==> n as real <= x < n as real + 1.0
    ensures x < 0.0 ==> n as real - 1.0 < x <= n as real
  {
    if x >= 0.0 then x.Floor else -((-x).Floor)
  }

  /** `max(0, min(255, n))`: a requested position in device units. */
  function Clamp(n: int): (p: int)
    ensures 0 <= p <= 255
    ensures 0 <= n <= 255 ==> p == n
    ensures n < 0 ==> p == 0
    ensures n > 255 ==> p == 255
  {
    if n < 0 then 0 else if n > 255 then 255 else n
  }

  /** `(v >> 8) & 0xFF` on a Python integer: the high byte of the low 16 bits. */
  function HighByte(v: int): (b: int)
    ensures 0 <= b < 256
  {
    (v / 256) % 256
  }

  /** The register packs the position in the high byte and the speed in the low byte. */
  lemma HighByteOfPacked(position: int, speed: int)
    requires 0 <= position < 256 && 0 <= speed < 256
    ensures HighByte(256 * position + speed) == position
  {
    assert (256 * position + speed) / 256 == position;
  }

  // ---------------------------------------------------------------------------
  // Reply parsing
  // ---------------------------------------------------------------------------

  /** The JSON values the reply parser can meet. */
  datatype JValue = JInt(i: int) | JBool(b: bool) | JStr(s: string) | JOther

  /** What `json.loads` makes of one line. */
  datatype Json =
    | Malformed                            // raises JSONDecodeError
    | JObject(fields: map<string, JValue>) // a dict
    | JNonObject                           // a list, number, string, bool or null

  /** The verdict on one line of the reply. */
  datatype LineVerdict =
    | Skip                 // blank, undecodable, or about another command
    | Found(position: int) // the answer
    | Abort                // an exception that ends the whole read with None

  /** What the loop body does with one reply line. */
  function ClassifyLine(line: string, decode: string -> Json): (v: LineVerdict)
    ensures v.Found? ==> 0 <= v.position < 256
    ensures Strip(line) == [] ==> v == Skip
  {
    var l := Strip(line);
    if l == [] then Skip
    else match decode(l)
      case Malformed => Skip
      case JNonObject => Abort
      case JObject(fields) =>
        if "command" in fields && fields["command"] == JStr(ReadRegistersName) && "data" in fields then
          match fields["data"]
          case JInt(v) => Found(HighByte(v))
          case JBool(b) => Found(HighByte(if b then 1 else 0))
          case _ => Abort
        else Skip
  }

  /** The position the reply lines give: the first line that is not skipped decides. */
  function FirstPosition(lines: seq<string>, decode: string -> Json): Option<int>
  {
    if lines == [] then None
    else match ClassifyLine(lines[0], decode)
      case Skip => FirstPosition(lines[1..], decode)
      case Found(p) => Some(p)
      case Abort => None
  }

  /** Only lines before `k` were skipped. */
  ghost predicate SkippedBefore(lines: seq<string>, decode: string -> Json, k: int)
    requires 0 <= k <= |lines|
  {
    forall j :: 0 <= j < k ==> ClassifyLine(lines[j], decode) == Skip
  }

  /** A position is read exactly when some line matches and every line before it is skipped. */
  lemma {:induction false} FirstPositionIsFirstMatch(lines: seq<string>, decode: string -> Json, p: int)
    ensures FirstPosition(lines, decode) == Some(p) <==>
      (exists k :: 0 <= k < |lines| && SkippedBefore(lines, decode, k)
        && ClassifyLine(lines[k], decode) == Found(p))
  {
    if lines != [] {
      FirstPositionIsFirstMatch(lines[1..], decode, p);
      var v := ClassifyLine(lines[0], decode);
      if exists k :: 0 <= k < |lines| && SkippedBefore(lines, decode, k)
          && ClassifyLine(lines[k], decode) == Found(p) {
        var k :| 0 <= k < |lines| && SkippedBefore(lines, decode, k)
          && ClassifyLine(lines[k], decode) == Found(p);
        if k > 0 {
          assert v == Skip;
          assert SkippedBefore(lines[1..], decode, k - 1) by {
            forall j | 0 <= j < k - 1 ensures ClassifyLine(lines[1..][j], decode) == Skip {
              assert lines[1..][j] == lines[j + 1];
            }
          }
          assert lines[1..][k - 1] == lines[k];
        }
      }
      if FirstPosition(lines, decode) == Some(p) {
        if v == Found(p) {
          assert SkippedBefore(lines, decode, 0);
        } else {
          var k :| 0 <= k < |lines[1..]| && SkippedBefore(lines[1..], decode, k)
            && ClassifyLine(lines[1..][k], decode) == Found(p);
          assert SkippedBefore(lines, decode, k + 1) by {
            forall j | 0 <= j < k + 1 ensures ClassifyLine(lines[j], decode) == Skip {
              if j > 0 { assert lines[j] == lines[1..][j - 1]; }
            }
          }
          assert ClassifyLine(lines[k + 1], decode) == Found(p);
        }
      }
    }
  }

  /** Every position read back is a byte. */
  lemma {:induction false} FirstPositionIsByte(lines: seq<string>, decode: string -> Json)
    ensures FirstPosition(lines, decode).Some? ==> 0 <= FirstPosition(lines, decode).value < 256
  {
    if lines != [] && ClassifyLine(lines[0], decode) == Skip {
      FirstPositionIsByte(lines[1..], decode);
    }
  }

  /** The position a reply chunk answers with: its stripped lines, read in order. */
  function ReplyPosition(text: string, decode: string -> Json): (p: Option<int>)
    ensures p.Some? ==> 0 <= p.value < 256
  {
    var lines := Split(Strip(text), '\n');
    FirstPositionIsByte(lines, decode);
    FirstPosition(lines, decode)
  }

  /**
   * A reply answers with position `p` exactly when one of its lines answers the read
   * with `p` and every line before it is skipped.
   */
  lemma ReplyPositionIsFirstMatch(text: string, decode: string -> Json, p: int)
    ensures var lines := Split(Strip(text), '\n');
      ReplyPosition(text, decode) == Some(p) <==>
        (exists k :: 0 <= k < |lines| && SkippedBefore(lines, decode, k)
          && ClassifyLine(lines[k], decode) == Found(p))
  {
    FirstPositionIsFirstMatch(Split(Strip(text), '\n'), decode, p);
  }

  /** A reply that holds only whitespace gives no position. */
  lemma BlankReplyGivesNone(text: string, decode: string -> Json)
    requires forall i :: 0 <= i < |text| ==> IsSpace(text[i])
    ensures ReplyPosition(text, decode) == None
  {
    StripEmptyIffBlank(text);
    assert Split([], '\n') == [[]];
  }

  /**
   * The `for` loop over the reply: strip the chunk, split it into lines, and stop at
   * the first line that answers the read or raises.
   */
  method ParseReply(text: string, decode: string -> Json) returns (position: Option<int>)
    ensures position == ReplyPosition(text, decode)
  {
    var lines := Split(Strip(text), '\n');
    FirstPositionIsByte(lines, decode);
    var i := 0;
    while i < |lines|
      invariant 0 <= i <= |lines|
      invariant FirstPosition(lines, decode) == FirstPosition(lines[i..], decode)
      decreases |lines| - i
    {
      var verdict := ClassifyLine(lines[i], decode);
      FirstPositionAt(lines, decode, i);
      if verdict.Found? {
        return Some(verdict.position);
      } else if verdict.Abort? {
        return None;
      }
      i := i + 1;
    }
    return None;
  }

  /** `recv` of the reply: a failed receive gives no position, a chunk is parsed. */
  method Receive(reply: Reply, decode: string -> Json) returns (position: Option<int>)
    ensures position == if reply.Received? then ReplyPosition(reply.text, decode) else None
  {
    match reply
    case RecvFailed =>
      return None;
    case Received(text) =>
      position := ParseReply(text, decode);
  }

  /** One step of the scan, from line `i` on. */
  lemma FirstPositionAt(lines: seq<string>, decode: string -> Json, i: int)
    requires 0 <= i < |lines|
    ensures FirstPosition(lines[i..], decode) ==
      match ClassifyLine(lines[i], decode)
      case Skip => FirstPosition(lines[i + 1..], decode)
      case Found(p) => Some(p)
      case Abort => None
  {
    assert lines[i..][0] == lines[i] && lines[i..][1..] == lines[i + 1..];
  }

  // ---------------------------------------------------------------------------
  // The client
  // ---------------------------------------------------------------------------

  /** How the blocking `recv` after the read command ended. */
  datatype Reply = Received(text: string) | RecvFailed

  class EPGGripperClient {
    var ip: string
    var port: int
    var deviceId: int
    var force: int
    var speed: int
    /** Whether a socket object is held (`client is not None`). */
    var client: bool
    var connectedFlag: bool
    /** Every command string written to a socket, in order. */
    var sent: seq<string>
    /** Chunks the controller delivered that have not been read yet. */
    var inbox: seq<string>

    /** The connected flag is never set without a socket. */
    ghost predicate Valid()
      reads this
    {
      connectedFlag ==> client
    }

    predicate IsConnected()
      reads this
    {
      connectedFlag && client
    }

    constructor (ip: string := "169.254.128.21", port: int := 8080, deviceId: int := 9,
                 force: int := 60, speed: int := 255)
      ensures Valid() && !IsConnected() && !client
      ensures this.ip == ip && this.port == port && this.deviceId == deviceId
      ensures this.force == force && this.speed == speed
      ensures sent == [] && inbox == []
    {
      this.ip := ip;
      this.port := port;
      this.deviceId := deviceId;
      this.force := force;
      this.speed := speed;
      client := false;
      connectedFlag := false;
      sent := [];
      inbox := [];
    }

    /** The controller delivers a chunk (an acknowledgement, say) into the socket buffer. */
    method Deliver(chunk: string)
      modifies this`inbox
      ensures inbox == old(inbox) + [chunk]
    {
      inbox := inbox + [chunk];
    }

    /** `_send_command`: refused unless connected; `ok` says whether the socket send succeeded. */
    method SendCommand(cmd: string, ok: bool) returns (r: bool)
      modifies this`sent
      ensures r == (IsConnected() && ok)
      ensures sent == if r then old(sent) + [cmd] else old(sent)
    {
      if !IsConnected() {
        return false;
      }
      if !ok {
        return false;
      }
      sent := sent + [cmd];
      return true;
    }

    /** `_initialize`: the five commands through the guarded send, results ignored. */
    method Initialize(ok: bool)
      modifies this`sent
      ensures sent == old(sent) + (if IsConnected() && ok then InitCommands(deviceId, force, speed) else [])
    {
      var r := SendCommand(VoltageCommand, ok);
      r := SendCommand(ModbusModeCommand, ok);
      r := SendCommand(WriteRegisters(1000, 0, 0, deviceId), ok);
      r := SendCommand(WriteRegisters(1000, 0, 1, deviceId), ok);
      r := SendCommand(WriteRegisters(1002, force, speed, deviceId), ok);
    }

    /**
     * `connect` as written: a no-op when already connected; otherwise open the socket
     * (`reachable` says whether that works), initialise, then set the connected flag.
     * Because the flag is set after `_initialize`, the send guard drops every
     * initialisation command. `raised` is true when the socket error propagates.
     */
    method Connect(reachable: bool, sendOk: bool) returns (raised: bool)
      requires Valid()
      modifies this`client, this`connectedFlag, this`sent
      ensures Valid()
      ensures old(IsConnected()) ==> !raised && client && connectedFlag && sent == old(sent)
      ensures !old(IsConnected()) && !reachable ==> raised && !client && !connectedFlag && sent == old(sent)
      ensures !old(IsConnected()) && reachable ==> !raised && IsConnected() && sent == old(sent)
    {
      if IsConnected() {
        return false;
      }
      client := true;
      if !reachable {
        client := false;
        return true;
      }
      Initialize(sendOk);
      connectedFlag := true;
      return false;
    }

    /** `connect` with the flag set before initialisation, so the five commands go out. */
    method ConnectInitialized(reachable: bool, sendOk: bool) returns (raised: bool)
      requires Valid()
      modifies this`client, this`connectedFlag, this`sent
      ensures Valid()
      ensures old(IsConnected()) ==> !raised && client && connectedFlag && sent == old(sent)
      ensures !old(IsConnected()) && !reachable ==> raised && !client && !connectedFlag && sent == old(sent)
      ensures !old(IsConnected()) && reachable ==>
        !raised && IsConnected()
        && sent == old(sent) + (if sendOk then InitCommands(deviceId, force, speed) else [])
    {
      if IsConnected() {
        return false;
      }
      client := true;
      if !reachable {
        client := false;
        return true;
      }
      connectedFlag := true;
      Initialize(sendOk);
      return false;
    }

    /**
     * `set_position`: refused unless connected; truncate and clamp the target, write
     * register 1001 `[position, speed]`, and only if that send worked write register
     * 1000 `[0, 9]` to start the move. The result is the second send's result.
     */
    method SetPosition(target: real, ok1: bool, ok2: bool) returns (r: bool)
      modifies this`sent
      ensures !IsConnected() ==> !r && sent == old(sent)
      ensures IsConnected() && !ok1 ==> !r && sent == old(sent)
      ensures IsConnected() && ok1 ==>
        r == ok2
        && sent == old(sent) + [WriteRegisters(1001, Clamp(Trunc(target)), speed, deviceId)]
             + (if ok2 then [WriteRegisters(1000, 0, 9, deviceId)] else [])
    {
      if !IsConnected() {
        return false;
      }
      var position := Clamp(Trunc(target));
      var sentOk := SendCommand(WriteRegisters(1001, position, speed, deviceId), ok1);
      if !sentOk {
        return false;
      }
      r := SendCommand(WriteRegisters(1000, 0, 9, deviceId), ok2);
    }

    /** The non-blocking `recv` loop that empties the socket buffer before a read. */
    method Drain()
      modifies this`inbox
      ensures inbox == []
    {
      while inbox != []
        decreases |inbox|
      {
        inbox := inbox[1..];
      }
    }

    /**
     * `get_position`: refused unless connected; drain the stale chunks, send the read
     * command (a failed send ends the call with None), then parse the one chunk received.
     */
    method GetPosition(sendOk: bool, reply: Reply, decode: string -> Json) returns (position: Option<int>)
      modifies this`sent, this`inbox
      ensures !IsConnected() ==> position == None && sent == old(sent) && inbox == old(inbox)
      ensures IsConnected() ==>
        inbox == []
        && sent == old(sent) + (if sendOk then [ReadPositionCommand(deviceId)] else [])
        && position == (if sendOk && reply.Received? then ReplyPosition(reply.text, decode) else None)
      ensures position.Some? ==> 0 <= position.value < 256
    {
      if !IsConnected() {
        return None;
      }
      // The reply is an input here, so reading it before the request changes nothing:
      // it counts only when the read command went out.
      var answer := Receive(reply, decode);
      RequestPosition(sendOk);
      position := if sendOk then answer else None;
    }

    /** Drain the stale chunks, then send the read command when the send succeeds. */
    method RequestPosition(sendOk: bool)
      modifies this`sent, this`inbox
      ensures inbox == []
      ensures sent == old(sent) + (if sendOk then [ReadPositionCommand(deviceId)] else [])
    {
      Drain();
      if sendOk {
        sent := sent + [ReadPositionCommand(deviceId)];
      }
    }

    /** `disconnect`: close any socket; afterwards there is no socket and no connection. */
    method Disconnect()
      requires Valid()
      modifies this`client, this`connectedFlag, this`inbox
      ensures Valid() && !client && !connectedFlag && !IsConnected()
      ensures old(client) ==> inbox == []
      ensures !old(client) ==> inbox == old(inbox)
    {
      if client {
        client := false;
        connectedFlag := false;
        inbox := [];
      }
    }
  }

  /**
   * A fresh client whose socket opens and whose sends all succeed ends up connected
   * with nothing written: the initialisation sequence never reached the controller.
   */
  method ConnectSendsNothing() returns (c: EPGGripperClient)
    ensures c.IsConnected() && c.sent == []
  {
    c := new EPGGripperClient();
    var raised := c.Connect(true, true);
  }

  /** With the flag set first, the same connect writes the five initialisation commands. */
  method ConnectInitializedSendsInit() returns (c: EPGGripperClient)
    ensures c.IsConnected() && c.sent == InitCommands(9, 60, 255)
  {
    c := new EPGGripperClient();
    var raised := c.ConnectInitialized(true, true);
  }
}
