/** The rename command: what client and server do, over datagrams that may be lost and waits that may time out,
    and what the server does with any other command that a datagram can be taken for. */
module Rename {
  import opened Messages
  import opened Listing

  // Command codes; a datagram carries them in its first byte.
  const LS := 1
  const SEND := 2
  const REMOVE := 4
  const RENAME := 5
  const SHUTDOWN := 6
  const ACK := 7
  const FILE_EXISTS := 9
  const OVERWRITE := 10
  const READY_FOR_NEW_NAME := 11

  const INVALID_FILENAME := 107

  /** The bytes of a command message: code, name, size, port and error. */
  const CMD_LEN := 1 + FILE_NAME_LEN + 4 + 2 + 2

  type Files = map<string, string>

  datatype Command = Command(code: int, filename: string, error: int, size: nat := 0)

  /** What travels to the server; the socket does not say which kind a datagram is. */
  datatype Datagram = Cmd(command: Command) | Data(text: string)

  function Reply(code: int, error: int): Command {
    Command(code, "", error)
  }

  /** A data message read where a command is expected: the first byte decides, and a name without a NUL runs on to
      the end of the message. */
  function AsCommand(d: Datagram): Command {
    match d
    case Cmd(c) => c
    case Data(text) => Command(ByteAt(text, 0), Terminated(Shortened(text[if text == "" then 0 else 1..], CMD_LEN - 1)),
                               Number(text, 135, 2), Number(text, 129, 4))
  }

  function ByteAt(text: string, i: nat): nat {
    if i < |text| then text[i] as int else 0
  }

  /** The number in `bytes` bytes from `i` on, the lowest first. */
  function Number(text: string, i: nat, bytes: nat): nat
    decreases bytes
  {
    if bytes == 0 then 0 else ByteAt(text, i) + 256 * Number(text, i + 1, bytes - 1)
  }

  /** A command read where a data message is expected: the code is the first character of the text. */
  function AsText(d: Datagram): string {
    match d
    case Data(text) => text
    case Cmd(c) => if 0 < c.code < 256 then [c.code as char] + c.filename else ""
  }

  // ---------- the bytes of a command ----------

  /** The lowest `bytes` bytes of a number, the lowest first. */
  function Digits(n: nat, bytes: nat): (s: string)
    ensures |s| == bytes
  {
    if bytes == 0 then "" else [(n % 256) as char] + Digits(n / 256, bytes - 1)
  }

  /** A command as it travels: code, name padded to 128 characters, size, port and error. */
  function Wire(c: Command, port: nat): (s: string)
    requires 0 <= c.code < 256 && |c.filename| <= 127 && 0 <= c.error
    ensures |s| == 137
  {
    [c.code as char] + c.filename + seq(128 - |c.filename|, _ => NUL) + Digits(c.size, 4) + Digits(port, 2) + Digits(c.error, 2)
  }

  lemma {:induction false} DigitsNumber(text: string, i: nat, n: nat, bytes: nat)
    requires i + bytes <= |text| && text[i..i + bytes] == Digits(n, bytes)
    ensures 0 < Power(bytes) && (n < Power(bytes) ==> Number(text, i, bytes) == n)
    decreases bytes
  {
    if bytes > 0 {
      assert text[i..i + bytes][0] == text[i] && text[i..i + bytes][1..] == text[i + 1..i + 1 + (bytes - 1)];
      DigitsNumber(text, i + 1, n / 256, bytes - 1);
    }
  }

  function Power(bytes: nat): nat {
    if bytes == 0 then 1 else 256 * Power(bytes - 1)
  }

  lemma WireParts(c: Command, port: nat)
    requires 0 <= c.code < 256 && |c.filename| <= 127 && 0 <= c.error && NUL !in c.filename
    ensures var s := Wire(c, port);
            && s[0] == c.code as char && s[1..1 + |c.filename|] == c.filename && s[1 + |c.filename|] == NUL
            && s[129..133] == Digits(c.size, 4) && s[135..137] == Digits(c.error, 2)
  {
    hide Digits;
  }

  /** A command that fits its message is read back from its bytes as it was sent; read as a data message, the text is what
      stands before the first NUL. */
  lemma WireRoundTrip(c: Command, port: nat)
    requires 0 <= c.code < 256 && |c.filename| <= 127 && NUL !in c.filename
    requires c.size < 0x1_0000_0000 && 0 <= c.error < 0x1_0000
    ensures AsCommand(Data(Wire(c, port))) == c
    ensures AsText(Cmd(c)) == Terminated(Wire(c, port))
  {
    hide Wire, Digits, Number;
    var s, n := Wire(c, port), |c.filename|;
    WireParts(c, port);
    DigitsNumber(s, 129, c.size, 4);
    DigitsNumber(s, 135, c.error, 2);
    PowerValues();
    var t := Shortened(s[1..], CMD_LEN - 1);
    assert t[..n] == s[1..1 + n] && t[n] == s[1 + n];
    TerminatedUnique(t, n);
    if c.code == 0 {
      TerminatedUnique(s, 0);
    } else {
      assert s[..1 + n] == [c.code as char] + c.filename;
      TerminatedUnique(s, 1 + n);
    }
  }

  lemma PowerValues()
    ensures Power(2) == 0x1_0000 && Power(4) == 0x1_0000_0000
  {
    assert Power(1) == 256 && Power(3) == 0x100_0000;
  }

  // ---------- the server's half ----------

  /** Between commands, or waiting in the middle of one: of a rename, of a send (for leave to overwrite, for the data of
      a small file, or in `accept` for a connection), or stopped by a shutdown. */
  datatype ServerState =
    | Idle
    | AwaitName(source: string)
    | AwaitConfirm(source: string, target: string)
    | AwaitOverwrite
    | AwaitData(name: string)
    | Accepting
    | Stopped
  {
    /** The next datagram, or a timeout, goes to the server's code. */
    predicate Receives() {
      !Accepting? && !Stopped?
    }
  }

  datatype Reaction = Reaction(state: ServerState, files: Files, replies: seq<Command>)

  /** What the operating system answers: whether files can be deleted, renamed and opened and a connection be offered;
      the order in which a directory is listed; the port offered and the bytes received. */
  datatype Os = Os(deletes: bool, renames: bool, opens: bool, binds: bool, listing: seq<string>, port: nat, content: string)

  /** A directory can be listed in any order, or fail to open. */
  predicate Lists(listing: seq<string>, files: Files) {
    listing == [] || multiset(listing) == multiset(files.Keys)
  }

  function Moved(files: Files, source: string, target: string): Files
    requires source in files
  {
    (files - {source})[target := files[source]]
  }

  /** The rename system call replaces the target; it fails without the source and may fail otherwise. */
  function FinishRename(files: Files, source: string, target: string, renames: bool): Reaction {
    if renames && source in files then Reaction(Idle, Moved(files, source, target), [Reply(ACK, 0)])
    else Reaction(Idle, files, [Reply(ACK, 1)])
  }

  /** The main loop receives a datagram. */
  function OnCommand(handshake: bool, valid: string -> bool, files: Files, d: Datagram, os: Os): Reaction {
    var c := AsCommand(d);
    if c.code == LS then OnLs(files, os.listing)
    else if c.code == SEND then OnSend(valid, files, c, os)
    else if c.code == REMOVE then OnRemove(valid, files, c.filename, os.deletes)
    else if c.code == RENAME then OnRename(handshake, valid, files, c.filename)
    else if c.code == SHUTDOWN then Reaction(Stopped, files, [Reply(ACK, 0)])
    else Reaction(Idle, files, [])
  }

  /** The list goes out as a data message; a client in the middle of a rename reads it as a command. */
  function ListReply(listing: seq<string>): Command {
    AsCommand(Data(ListBuffer(listing)))
  }

  function OnLs(files: Files, listing: seq<string>): Reaction {
    Reaction(Idle, files, [ListReply(listing)])
  }

  function OnRename(handshake: bool, valid: string -> bool, files: Files, name: string): Reaction {
    if !valid(name) then Reaction(Idle, files, [Reply(ACK, INVALID_FILENAME)])
    else if name !in files then Reaction(Idle, files, [Reply(ACK, 1)])
    else Reaction(AwaitName(name), files, if handshake then [Reply(READY_FOR_NEW_NAME, 0)] else [])
  }

  /** Nothing but the named file ever goes, and the reply says no error exactly when it has gone. */
  function OnRemove(valid: string -> bool, files: Files, name: string, deletes: bool): (r: Reaction)
    ensures r.state.Idle? && |r.replies| == 1 && r.replies[0].code == ACK
    ensures forall other <- files.Keys :: other != name ==> other in r.files && r.files[other] == files[other]
    ensures r.files.Keys <= files.Keys
    ensures r.replies[0].error == 0 <==> name in files && name !in r.files
    ensures r.replies[0].error == 0 <==> valid(name) && name in files && deletes
  {
    if !valid(name) then Reaction(Idle, files, [Reply(ACK, INVALID_FILENAME)])
    else if name !in files || !deletes then Reaction(Idle, files, [Reply(ACK, 1)])
    else Reaction(Idle, files - {name}, [Reply(ACK, 0)])
  }

  function OnSend(valid: string -> bool, files: Files, c: Command, os: Os): Reaction {
    if !valid(c.filename) then Reaction(Idle, files, [Reply(ACK, INVALID_FILENAME)])
    else if c.filename in files then Reaction(AwaitOverwrite, files, [Reply(FILE_EXISTS, 0).(size := c.size)])
    else OnTransfer(files, c.filename, c.size, os)
  }

  /** A small file comes in one datagram, a large one over a connection of its own. */
  function OnTransfer(files: Files, name: string, size: nat, os: Os): Reaction {
    if size <= DATA_BUF_LEN then Reaction(AwaitData(name), files, [Reply(ACK, 0)])
    else if os.binds then Reaction(Accepting, files, [Reply(ACK, 0).(size := os.port)])
    else Reaction(Idle, files, [])
  }

  /** The answer brings name and size anew. */
  function OnOverwrite(files: Files, d: Datagram, os: Os): Reaction {
    var c := AsCommand(d);
    if c.code != OVERWRITE || c.error != 0 then Reaction(Idle, files, [Reply(ACK, 2)])
    else OnTransfer(files, c.filename, c.size, os)
  }

  /** Without a name the path is the directory itself, which cannot be opened for writing. */
  function OnData(files: Files, name: string, os: Os): Reaction {
    if os.opens && name != "" then Reaction(Idle, files[name := os.content], [Reply(ACK, 0)])
    else Reaction(Idle, files, [Reply(ACK, 1)])
  }

  /** A wait in the middle of a command times out: only the one for a small file's data is reported. */
  function OnTimeOut(state: ServerState, files: Files): Reaction {
    Reaction(Idle, files, if state.AwaitData? then [Reply(ACK, 1)] else [])
  }

  function OnName(valid: string -> bool, files: Files, source: string, d: Datagram, renames: bool): Reaction {
    var target := AsText(d);
    if !valid(target) then Reaction(Idle, files, [Reply(ACK, INVALID_FILENAME)])
    else if target in files then Reaction(AwaitConfirm(source, target), files, [Reply(FILE_EXISTS, 0)])
    else FinishRename(files, source, target, renames)
  }

  function OnConfirm(files: Files, source: string, target: string, d: Datagram, deletes: bool, renames: bool): Reaction {
    var c := AsCommand(d);
    if c.code != OVERWRITE || c.error != 0 then Reaction(Idle, files, [Reply(ACK, 2)])
    else FinishRename(if deletes then files - {target} else files, source, target, renames)
  }

  // ---------- the client's half ----------

  datatype Outcome = SUCCESS | TIMEOUT | CANCELLED | FILE_NOT_FOUND | FILE_RENAME_ERROR | SOCKET_SEND_ERROR

  datatype ClientState = Fresh | AwaitReady | AwaitAck | AwaitFinal | Done(outcome: Outcome)
  {
    predicate Waiting() {
      AwaitReady? || AwaitAck? || AwaitFinal?
    }
  }

  datatype Move = Move(state: ClientState, sent: seq<Datagram>)

  function SendName(newName: string, fails: bool): Move {
    if fails then Move(Done(SOCKET_SEND_ERROR), []) else Move(AwaitAck, [Data(DataName(newName))])
  }

  function StartRename(handshake: bool, oldName: string, newName: string, fails: bool, failsNext: bool): Move {
    var c := Cmd(Command(RENAME, CommandName(oldName), 0));
    if fails then Move(Done(SOCKET_SEND_ERROR), [])
    else if handshake then Move(AwaitReady, [c])
    else
      var m := SendName(newName, failsNext);
      Move(m.state, [c] + m.sent)
  }

  function Conclude(c: Command): Move {
    Move(Done(if c.code == ACK && c.error == 0 then SUCCESS else FILE_RENAME_ERROR), [])
  }

  function OnResponse(state: ClientState, newName: string, c: Command, consent: bool, fails: bool): Move
    requires state.Waiting()
  {
    match state
    case AwaitReady =>
      if c.code == ACK then Move(Done(if c.error == 0 then SUCCESS else FILE_NOT_FOUND), [])
      else SendName(newName, fails)
    case AwaitAck =>
      if c.code == ACK && c.error == 1 then Move(Done(FILE_NOT_FOUND), [])
      else if c.code == FILE_EXISTS then
        if fails then Move(Done(SOCKET_SEND_ERROR), [])
        else Move(AwaitFinal, [Cmd(Reply(OVERWRITE, if consent then 0 else 1))])
      else Conclude(c)
    case AwaitFinal =>
      if c.error == 2 then Move(Done(CANCELLED), []) else Conclude(c)
  }

  // ---------- the two programs ----------

  datatype Arrival<T> = Timeout | Got(value: T)

  /** The user's consent has arrived. */
  predicate Agreed(confirm: Arrival<Datagram>) {
    confirm.Got? && AsCommand(confirm.value).code == 10 && AsCommand(confirm.value).error == 0
  }

  /** Which replies a rename command gets, in each case. */
  ghost predicate RenameReplies(handshake: bool, before: Files, source: string, valid: string -> bool,
                                name: Arrival<Datagram>, confirm: Arrival<Datagram>, os: Os, sent: seq<Command>)
  {
    var ready := if handshake then [Command(11, "", 0)] else [];
    if !valid(source) then sent == [Command(7, "", 107)]
    else if source !in before then sent == [Command(7, "", 1)]
    else if name.Timeout? then sent == ready
    else
      var target := AsText(name.value);
      var asked := ready + [Command(9, "", 0)];
      if !valid(target) then sent == ready + [Command(7, "", 107)]
      else if target !in before then sent == ready + [Command(7, "", if os.renames then 0 else 1)]
      else if confirm.Timeout? then sent == asked
      else if !Agreed(confirm) then sent == asked + [Command(7, "", 2)]
      else sent == asked + [Command(7, "", if os.renames && (source != target || !os.deletes) then 0 else 1)]
  }

  /** What a rename command leaves.  The source's content is under the new name exactly when both names are valid, the source
      is there, the new name arrives, a target that is there may be overwritten, and the system renames; the source is not
      there to rename if it was just deleted as the target. */
  ghost predicate RenameStore(before: Files, source: string, valid: string -> bool,
                              name: Arrival<Datagram>, confirm: Arrival<Datagram>, os: Os, after: Files)
  {
    if !(valid(source) && source in before && name.Got? && valid(AsText(name.value))) then after == before
    else
      var target := AsText(name.value);
      if target in before && !Agreed(confirm) then after == before
      else if os.renames && !(source == target && os.deletes) then
        && target in after && after[target] == before[source] && (source != target ==> source !in after)
        && forall f :: f != source && f != target ==>
             (f in after <==> f in before) && (f in after ==> after[f] == before[f])
      else after == if target in before && os.deletes then before - {target} else before
  }

  /** Name and size of the file that a send command stores: the answer of the user's side brings them anew. */
  function SentFile(before: Files, cmd: Command, confirm: Arrival<Datagram>): (string, nat) {
    if cmd.filename in before && confirm.Got? then (AsCommand(confirm.value).filename, AsCommand(confirm.value).size)
    else (cmd.filename, cmd.size)
  }

  ghost predicate SendReplies(before: Files, cmd: Command, valid: string -> bool, confirm: Arrival<Datagram>,
                              data: Arrival<Datagram>, os: Os, sent: seq<Command>, accepting: bool)
  {
    var asked := if cmd.filename in before then [Command(9, "", 0, cmd.size)] else [];
    var (name, size) := SentFile(before, cmd, confirm);
    && (accepting <==> valid(cmd.filename) && (cmd.filename !in before || Agreed(confirm)) && size > 3000 && os.binds)
    && if !valid(cmd.filename) then sent == [Command(7, "", 107)]
       else if cmd.filename in before && confirm.Timeout? then sent == asked
       else if cmd.filename in before && !Agreed(confirm) then sent == asked + [Command(7, "", 2)]
       else if size > 3000 then sent == asked + if os.binds then [Command(7, "", 0, os.port)] else []
       else
         var stored := data.Got? && os.opens && name != "";
         sent == asked + [Command(7, "", 0)] + [Command(7, "", if stored then 0 else 1)]
  }

  /** A small file is stored under its name, and nothing else ever changes. */
  ghost predicate SendStore(before: Files, cmd: Command, valid: string -> bool, confirm: Arrival<Datagram>,
                            data: Arrival<Datagram>, os: Os, after: Files)
  {
    var (name, size) := SentFile(before, cmd, confirm);
    after == if valid(cmd.filename) && (cmd.filename !in before || Agreed(confirm)) && size <= 3000
                && data.Got? && os.opens && name != ""
             then before[name := os.content] else before
  }

  /** One reaction after another, with all replies. */
  function Onward(r: Reaction, next: Reaction): Reaction {
    next.(replies := r.replies + next.replies)
  }

  class Server {
    const handshake: bool
    var files: Files
    var shutdownRequested: bool

    constructor (handshake: bool, files: Files)
      ensures this.handshake == handshake && this.files == files && !shutdownRequested
    {
      this.handshake, this.files, shutdownRequested := handshake, files, false;
    }

    /** The handler, given what its two receives return and whether the file operations succeed. */
    method HandleRename(cmd: Command, valid: string -> bool, name: Arrival<Datagram>, confirm: Arrival<Datagram>,
                        os: Os) returns (sent: seq<Command>)
      requires cmd.code == RENAME
      modifies `files
      ensures RenameReplies(handshake, old(files), cmd.filename, valid, name, confirm, os, sent)
      ensures RenameStore(old(files), cmd.filename, valid, name, confirm, os, files)
      ensures var r := OnCommand(handshake, valid, old(files), Cmd(cmd), os);
              if r.state.Idle? || name.Timeout? then files == r.files && sent == r.replies
              else
                var r1 := OnName(valid, r.files, r.state.source, name.value, os.renames);
                if r1.state.Idle? || confirm.Timeout? then files == r1.files && sent == r.replies + r1.replies
                else
                  var r2 := OnConfirm(r1.files, r1.state.source, r1.state.target, confirm.value, os.deletes, os.renames);
                  files == r2.files && sent == r.replies + r1.replies + r2.replies
    {
      var oldFilename := cmd.filename;
      if !valid(oldFilename) {
        return [Reply(ACK, INVALID_FILENAME)];
      }
      if oldFilename !in files {
        return [Reply(ACK, 1)];
      }
      sent := [];
      if handshake {
        sent := [Reply(READY_FOR_NEW_NAME, 0)];
      }
      if name.Timeout? {
        return;
      }
      var newFilename := AsText(name.value);
      if !valid(newFilename) {
        sent := sent + [Reply(ACK, INVALID_FILENAME)];
        return;
      }
      if newFilename in files {
        sent := sent + [Reply(FILE_EXISTS, 0)];
        if confirm.Timeout? {
          return;
        }
        var confirmMsg := AsCommand(confirm.value);
        if confirmMsg.code != OVERWRITE || confirmMsg.error != 0 {
          sent := sent + [Reply(ACK, 2)];
          return;
        }
        if os.deletes {
          files := files - {newFilename};
        }
      }
      if os.renames && oldFilename in files {
        var content := files[oldFilename];
        files := files - {oldFilename};
        files := files[newFilename := content];
        sent := sent + [Reply(ACK, 0)];
      } else {
        sent := sent + [Reply(ACK, 1)];
      }
    }

    /** The remove command, which a new name that arrives too late can be taken for. */
    method HandleRemove(cmd: Command, valid: string -> bool, os: Os) returns (sent: seq<Command>)
      requires cmd.code == REMOVE
      modifies `files
      ensures var gone := valid(cmd.filename) && cmd.filename in old(files) && os.deletes;
              && files == (if gone then old(files) - {cmd.filename} else old(files))
              && sent == [Command(7, "", if !valid(cmd.filename) then 107 else if gone then 0 else 1)]
      ensures var r := OnCommand(handshake, valid, old(files), Cmd(cmd), os);
              files == r.files && sent == r.replies
    {
      var filename := cmd.filename;
      if !valid(filename) {
        return [Reply(ACK, INVALID_FILENAME)];
      }
      if filename !in files {
        return [Reply(ACK, 1)];
      } else if os.deletes {
        files := files - {filename};
        return [Reply(ACK, 0)];
      } else {
        return [Reply(ACK, 1)];
      }
    }

    /** The send command up to the acknowledgment of a small file, or up to the wait for a connection. */
    method HandleSend(cmd: Command, valid: string -> bool, confirm: Arrival<Datagram>, data: Arrival<Datagram>, os: Os)
      returns (sent: seq<Command>, accepting: bool)
      requires cmd.code == SEND
      modifies `files
      ensures SendReplies(old(files), cmd, valid, confirm, data, os, sent, accepting)
      ensures SendStore(old(files), cmd, valid, confirm, data, os, files)
      ensures var r := OnCommand(handshake, valid, old(files), Cmd(cmd), os);
              var m := if r.state.AwaitOverwrite?
                       then Onward(r, if confirm.Timeout? then OnTimeOut(r.state, r.files) else OnOverwrite(r.files, confirm.value, os))
                       else r;
              var e := if m.state.AwaitData?
                       then Onward(m, if data.Timeout? then OnTimeOut(m.state, m.files) else OnData(m.files, m.state.name, os))
                       else m;
              files == e.files && sent == e.replies && (accepting <==> e.state.Accepting?)
    {
      var filename, filesize := cmd.filename, cmd.size;
      sent, accepting := [], false;
      if !valid(filename) {
        return [Reply(ACK, INVALID_FILENAME)], false;
      }
      if filename in files {
        sent := [Reply(FILE_EXISTS, 0).(size := filesize)];
        if confirm.Timeout? {
          return;
        }
        var confirmMsg := AsCommand(confirm.value);
        if confirmMsg.code != OVERWRITE || confirmMsg.error != 0 {
          sent := sent + [Reply(ACK, 2)];
          return;
        }
        filesize, filename := confirmMsg.size, confirmMsg.filename;
      }
      if filesize <= DATA_BUF_LEN {
        sent := sent + [Reply(ACK, 0)];
        if data.Timeout? {
          sent := sent + [Reply(ACK, 1)];
        } else if !os.opens || filename == "" {
          sent := sent + [Reply(ACK, 1)];
        } else {
          files := files[filename := os.content];
          sent := sent + [Reply(ACK, 0)];
        }
      } else if os.binds {
        sent := sent + [Reply(ACK, 0).(size := os.port)];
        accepting := true;
      }
    }

    /** Acknowledges and asks the main loop to end, whatever the message holds. */
    method HandleShutdown() returns (sent: seq<Command>)
      modifies `shutdownRequested
      ensures shutdownRequested && sent == [Command(7, "", 0)]
    {
      sent := [Reply(ACK, 0)];
      shutdownRequested := true;
    }
  }

  /** The script up to the point where the client waits for the server's verdict. */
  lemma ScriptParts(handshake: bool, oldName: string, newName: string, ready: Arrival<Command>, ack: Arrival<Command>,
                    final: Arrival<Command>, consent: bool, fails: seq<bool>)
    requires |fails| == 3
    ensures var m := ClientScript(handshake, oldName, newName, ready, ack, final, consent, fails);
            var c, d := Cmd(Command(RENAME, CommandName(oldName), 0)), Data(DataName(newName));
            && (fails[0] ==> m == Move(Done(SOCKET_SEND_ERROR), []))
            && (!fails[0] && handshake && ready.Timeout? ==> m == Move(Done(TIMEOUT), [c]))
            && (!fails[0] && handshake && ready.Got? && ready.value.code == ACK ==>
                  m == Move(Done(if ready.value.error == 0 then SUCCESS else FILE_NOT_FOUND), [c]))
            && (Proceeds(handshake, ready, fails) && fails[1] ==> m == Move(Done(SOCKET_SEND_ERROR), [c]))
            && (Proceeds(handshake, ready, fails) && !fails[1] ==>
                  m == Proceed(Proceed(Move(AwaitAck, [c, d]), newName, ack, consent, fails[2]), newName, final, consent, false))
  {
    hide CommandName, DataName;
    var c, d := Cmd(Command(RENAME, CommandName(oldName), 0)), Data(DataName(newName));
    assert [c] + [d] == [c, d] && [c] + [] == [c];
  }

  /** The client comes to send the new name: the command went out, and a client that waits for the signal has got a response
      that is no acknowledgment. */
  predicate Proceeds(handshake: bool, ready: Arrival<Command>, fails: seq<bool>)
    requires |fails| == 3
  {
    !fails[0] && (handshake ==> ready.Got? && ready.value.code != 7)
  }

  /** It sends the name, and a response comes back. */
  predicate Answered(handshake: bool, ready: Arrival<Command>, ack: Arrival<Command>, fails: seq<bool>)
    requires |fails| == 3
  {
    Proceeds(handshake, ready, fails) && !fails[1] && ack.Got?
  }

  /** The client's command, given what its receives return, the user's answer and which sends fail: exactly when it reports
      what, and which datagrams it sends. */
  method ClientRename(handshake: bool, oldName: string, newName: string, ready: Arrival<Command>, ack: Arrival<Command>,
                      final: Arrival<Command>, consent: bool, fails: seq<bool>) returns (outcome: Outcome, sent: seq<Datagram>)
    requires |fails| == 3
    ensures outcome == FILE_NOT_FOUND <==>
              || (handshake && !fails[0] && ready.Got? && ready.value.code == 7 && ready.value.error != 0)
              || (Answered(handshake, ready, ack, fails) && ack.value.code == 7 && ack.value.error == 1)
    ensures outcome == CANCELLED <==>
              && Answered(handshake, ready, ack, fails) && ack.value.code == 9 && !fails[2]
              && final.Got? && final.value.error == 2
    ensures outcome == TIMEOUT <==>
              || (handshake && !fails[0] && ready.Timeout?)
              || (Proceeds(handshake, ready, fails) && !fails[1] && ack.Timeout?)
              || (Answered(handshake, ready, ack, fails) && ack.value.code == 9 && !fails[2] && final.Timeout?)
    ensures outcome == SOCKET_SEND_ERROR <==>
              || fails[0]
              || (Proceeds(handshake, ready, fails) && fails[1])
              || (Answered(handshake, ready, ack, fails) && ack.value.code == 9 && fails[2])
    ensures outcome == SUCCESS <==>
              || (handshake && !fails[0] && ready.Got? && ready.value.code == 7 && ready.value.error == 0)
              || (&& Answered(handshake, ready, ack, fails)
                  && (|| (ack.value.code == 7 && ack.value.error == 0)
                      || (ack.value.code == 9 && !fails[2] && final.Got? && final.value.code == 7 && final.value.error == 0)))
    ensures sent == (if fails[0] then [] else [Cmd(Command(5, CommandName(oldName), 0))])
                    + (if Proceeds(handshake, ready, fails) && !fails[1] then [Data(DataName(newName))] else [])
                    + (if Answered(handshake, ready, ack, fails) && ack.value.code == 9 && !fails[2]
                       then [Cmd(Command(10, "", if consent then 0 else 1))] else [])
    ensures Done(outcome) == ClientScript(handshake, oldName, newName, ready, ack, final, consent, fails).state
    ensures sent == ClientScript(handshake, oldName, newName, ready, ack, final, consent, fails).sent
  {
    hide ClientScript, Proceed, CommandName, DataName;
    ScriptParts(handshake, oldName, newName, ready, ack, final, consent, fails);
    sent := [];
    if fails[0] {
      return SOCKET_SEND_ERROR, sent;
    }
    sent := [Cmd(Command(RENAME, CommandName(oldName), 0))];
    if handshake {
      if ready.Timeout? {
        return TIMEOUT, sent;
      }
      var readyMsg := ready.value;
      if readyMsg.code == ACK && readyMsg.error == 1 {
        return FILE_NOT_FOUND, sent;
      }
      if readyMsg.code != READY_FOR_NEW_NAME {
        if readyMsg.code == ACK {
          if readyMsg.error == 0 {
            return SUCCESS, sent;
          } else {
            return FILE_NOT_FOUND, sent;
          }
        }
      }
    }
    if fails[1] {
      return SOCKET_SEND_ERROR, sent;
    }
    sent := sent + [Data(DataName(newName))];
    assert sent == [Cmd(Command(RENAME, CommandName(oldName), 0)), Data(DataName(newName))];
    outcome, sent := ClientConclude(sent, newName, ack, final, consent, fails[2]);
  }

  /** The command's second half, from the wait for the server's verdict on. */
  method ClientConclude(before: seq<Datagram>, newName: string, ack: Arrival<Command>, final: Arrival<Command>,
                        consent: bool, fails: bool) returns (outcome: Outcome, sent: seq<Datagram>)
    ensures outcome == FILE_NOT_FOUND <==> ack.Got? && ack.value.code == 7 && ack.value.error == 1
    ensures outcome == CANCELLED <==> ack.Got? && ack.value.code == 9 && !fails && final.Got? && final.value.error == 2
    ensures outcome == TIMEOUT <==> ack.Timeout? || (ack.value.code == 9 && !fails && final.Timeout?)
    ensures outcome == SOCKET_SEND_ERROR <==> ack.Got? && ack.value.code == 9 && fails
    ensures outcome == SUCCESS <==>
              && ack.Got?
              && (|| (ack.value.code == 7 && ack.value.error == 0)
                  || (ack.value.code == 9 && !fails && final.Got? && final.value.code == 7 && final.value.error == 0))
    ensures sent == before + (if ack.Got? && ack.value.code == 9 && !fails
                              then [Cmd(Command(10, "", if consent then 0 else 1))] else [])
    ensures var m := Proceed(Proceed(Move(AwaitAck, before), newName, ack, consent, fails), newName, final, consent, false);
            Done(outcome) == m.state && sent == m.sent
  {
    sent := before;
    if ack.Timeout? {
      return TIMEOUT, sent;
    }
    var ackMsg := ack.value;
    if ackMsg.code == ACK && ackMsg.error == 1 {
      return FILE_NOT_FOUND, sent;
    }
    if ackMsg.code == FILE_EXISTS {
      if fails {
        return SOCKET_SEND_ERROR, sent;
      }
      sent := sent + [Cmd(Reply(OVERWRITE, if consent then 0 else 1))];
      if final.Timeout? {
        return TIMEOUT, sent;
      }
      ackMsg := final.value;
      if ackMsg.error == 2 {
        return CANCELLED, sent;
      }
    }
    if ackMsg.code == ACK && ackMsg.error == 0 {
      return SUCCESS, sent;
    }
    return FILE_RENAME_ERROR, sent;
  }

  /** Moves of the client while responses, or the first timeout, come in. */
  function Proceed(m: Move, newName: string, a: Arrival<Command>, consent: bool, fails: bool): Move {
    if !m.state.Waiting() then m
    else if a.Timeout? then Move(Done(TIMEOUT), m.sent)
    else
      var m' := OnResponse(m.state, newName, a.value, consent, fails);
      Move(m'.state, m.sent + m'.sent)
  }

  function ClientScript(handshake: bool, oldName: string, newName: string, ready: Arrival<Command>, ack: Arrival<Command>,
                        final: Arrival<Command>, consent: bool, fails: seq<bool>): Move
    requires |fails| == 3
  {
    var m := StartRename(handshake, oldName, newName, fails[0], fails[1]);
    var m1 := if handshake then Proceed(m, newName, ready, consent, fails[1]) else m;
    var m2 := Proceed(m1, newName, ack, consent, fails[2]);
    Proceed(m2, newName, final, consent, false)
  }
}
