/** One rename exchange: a client and a server joined by two queues of datagrams, any of which may be lost, with
    waits that may time out at any moment. */
module RenameExchange {
  import opened Messages
  import opened Rename

  datatype Setup = Setup(
    clientHandshake: bool, serverHandshake: bool, valid: string -> bool, oldName: string, newName: string, files: Files)
  {
    /** The two names as the server reads them. */
    function Source(): string { CommandName(oldName) }

    function Target(): string { DataName(newName) }

    /** The client sends the new name only after a signal that it can get, if it waits for one. */
    predicate NameGoesOut() {
      clientHandshake ==> serverHandshake && Source() in files && valid(Source())
    }

    /** The new name read as a command, when it arrives in the main loop too late. */
    function Late(): Command { AsCommand(Data(Target())) }

    /** It is a remove command for a file that exists. */
    predicate Removes() {
      Late().code == REMOVE && valid(Late().filename) && Late().filename in files
    }

    /** The store after such a command at its worst. */
    function LateFiles(): Files {
      if Removes() then files - {Late().filename} else files
    }

    /** Some reply to that command says "no error". */
    ghost predicate LateSuccess() {
      || (Late().code == LS && exists listing :: Lists(listing, files) && SaysSuccess(ListReply(listing)))
      || (Late().code == SEND && valid(Late().filename))
      || Removes()
      || Late().code == SHUTDOWN
    }
  }

  predicate SaysSuccess(c: Command) {
    c.code == ACK && c.error == 0
  }

  /** `consented` records that the user agreed to overwrite. */
  datatype World = World(
    client: ClientState, server: ServerState, toServer: seq<Datagram>, toClient: seq<Command>, files: Files, consented: bool)

  datatype Step =
    | Start(fails: bool, failsNext: bool, lost: seq<bool>)
    | ClientReceives(consent: bool, fails: bool, lost: seq<bool>)
    | ClientTimesOut
    | ServerReceives(os: Os, lost: seq<bool>)
    | ServerTimesOut(lost: seq<bool>)

  /** What is left of some datagrams when the i-th is lost if `lost[i]`. */
  function Carried<T>(sent: seq<T>, lost: seq<bool>): seq<T> {
    if sent == [] then []
    else
      (if lost != [] && lost[0] then [] else [sent[0]]) + Carried(sent[1..], if lost == [] then [] else lost[1..])
  }

  predicate Enabled(w: World, step: Step) {
    match step
    case Start(_, _, _) => w.client.Fresh?
    case ClientReceives(_, _, _) => w.client.Waiting() && w.toClient != []
    case ClientTimesOut => w.client.Waiting()
    case ServerReceives(os, _) => w.server.Receives() && w.toServer != [] && Lists(os.listing, w.files)
    case ServerTimesOut(_) => w.server.Receives() && !w.server.Idle?
  }

  function React(st: Setup, w: World, os: Os): Reaction
    requires w.server.Receives() && w.toServer != []
  {
    match w.server
    case Idle => OnCommand(st.serverHandshake, st.valid, w.files, w.toServer[0], os)
    case AwaitName(source) => OnName(st.valid, w.files, source, w.toServer[0], os.renames)
    case AwaitConfirm(source, target) => OnConfirm(w.files, source, target, w.toServer[0], os.deletes, os.renames)
    case AwaitOverwrite => OnOverwrite(w.files, w.toServer[0], os)
    case AwaitData(name) => OnData(w.files, name, os)
  }

  function Apply(st: Setup, w: World, step: Step): World
    requires Enabled(w, step)
  {
    match step
    case Start(fails, failsNext, lost) =>
      var m := StartRename(st.clientHandshake, st.oldName, st.newName, fails, failsNext);
      w.(client := m.state, toServer := w.toServer + Carried(m.sent, lost))
    case ClientReceives(consent, fails, lost) =>
      var m := OnResponse(w.client, st.newName, w.toClient[0], consent, fails);
      w.(client := m.state, toServer := w.toServer + Carried(m.sent, lost), toClient := w.toClient[1..],
         consented := w.consented || (m.state.AwaitFinal? && consent))
    case ClientTimesOut => w.(client := Done(TIMEOUT))
    case ServerReceives(os, lost) =>
      var r := React(st, w, os);
      w.(server := r.state, files := r.files, toServer := w.toServer[1..], toClient := w.toClient + Carried(r.replies, lost))
    case ServerTimesOut(lost) =>
      w.(server := Idle, toClient := w.toClient + Carried(OnTimeOut(w.server, w.files).replies, lost))
  }

  function Initial(st: Setup): World {
    World(Fresh, Idle, [], [], st.files, false)
  }

  ghost predicate Run(st: Setup, worlds: seq<World>, steps: seq<Step>) {
    && |worlds| == |steps| + 1 && worlds[0] == Initial(st)
    && forall i | 0 <= i < |steps| :: Enabled(worlds[i], steps[i]) && worlds[i + 1] == Apply(st, worlds[i], steps[i])
  }

  // ---------- the invariant ----------

  function TheCommand(st: Setup): Datagram {
    Cmd(Command(RENAME, st.Source(), 0))
  }

  function TheName(st: Setup): Datagram {
    Data(st.Target())
  }

  function TheAnswer(yes: bool): Datagram {
    Cmd(Reply(OVERWRITE, if yes then 0 else 1))
  }

  ghost predicate Just<T>(q: seq<T>, x: T) {
    |q| == 1 && q[0] == x
  }

  ghost predicate Both<T>(q: seq<T>, x: T, y: T) {
    |q| == 2 && q[0] == x && q[1] == y
  }

  /** The store after a completed rename. */
  ghost predicate IsMoved(st: Setup, files: Files) {
    st.Source() in st.files && files == Moved(st.files, st.Source(), st.Target())
  }

  /** Nothing that the server may still do depends on a message in its queue. */
  ghost predicate Settled(st: Setup, w: World) {
    w.server.Idle? && (w.toServer == [] || Just(w.toServer, TheName(st)))
  }

  ghost predicate ServerOk(st: Setup, w: World) {
    && (w.toServer == [] || Just(w.toServer, TheCommand(st)) || Just(w.toServer, TheName(st))
        || Both(w.toServer, TheCommand(st), TheName(st)) || Just(w.toServer, TheAnswer(true)) || Just(w.toServer, TheAnswer(false)))
    && (Just(w.toServer, TheAnswer(true)) ==> w.consented)
    && (w.toServer != [] && w.toServer[|w.toServer| - 1] == TheName(st) ==> st.NameGoesOut())
    && match w.server
       case Idle => true
       case AwaitName(source) =>
         && source == st.Source() && source in st.files && st.valid(source) && w.files == st.files
         && (w.toServer == [] || Just(w.toServer, TheName(st)))
       case AwaitConfirm(source, target) =>
         && source == st.Source() && target == st.Target() && source in st.files && target in st.files
         && st.valid(source) && st.valid(target)
         && w.files == st.files
         && (w.toServer == [] || Just(w.toServer, TheAnswer(true)) || Just(w.toServer, TheAnswer(false)))
       case _ => false
  }

  /** The store changes once, at the end, and a target that was there changes only with the user's consent. */
  ghost predicate FilesOk(st: Setup, w: World) {
    w.files == st.files
    || (&& w.server.Idle? && w.toServer == [] && st.Source() in st.files && st.valid(st.Source()) && st.valid(st.Target())
        && (IsMoved(st, w.files) || (st.Target() in st.files && w.files == st.files - {st.Target()}))
        && (st.Target() in st.files ==> w.consented))
  }

  /** What a response under way says about the server. */
  ghost predicate Means(st: Setup, w: World, c: Command) {
    || (c == Reply(READY_FOR_NEW_NAME, 0) && st.serverHandshake && st.Source() in st.files && st.valid(st.Source()))
    || (c == Reply(ACK, INVALID_FILENAME) && Settled(st, w) && w.files == st.files)
    || (c == Reply(ACK, 0) && w.server.Idle? && w.toServer == [] && IsMoved(st, w.files))
    || (c == Reply(ACK, 1) && Settled(st, w) && (w.client.AwaitFinal? || w.client.Done? || w.files == st.files))
    || (c == Reply(ACK, 2) && w.server.Idle? && w.toServer == [] && w.files == st.files)
    || (c == Reply(FILE_EXISTS, 0) && w.toServer == [] && w.files == st.files && !w.server.AwaitName?
        && (w.client.AwaitAck? || w.client.Done?))
  }

  ghost predicate ResponsesOk(st: Setup, w: World) {
    && |w.toClient| <= 2
    && (|w.toClient| >= 1 ==> Means(st, w, w.toClient[0]))
    && (|w.toClient| == 2 ==> w.toClient[0].code == READY_FOR_NEW_NAME && Means(st, w, w.toClient[1]))
    && (w.toServer != [] && w.toServer[0] == TheCommand(st) ==>
          w.toClient == [] && w.server.Idle? && w.files == st.files)
    && (Just(w.toServer, TheAnswer(true)) || Just(w.toServer, TheAnswer(false)) ==> w.toClient == [])
    && (w.server.AwaitName? ==> w.toClient == [] || Just(w.toClient, Reply(READY_FOR_NEW_NAME, 0)))
  }

  ghost predicate ClientOk(st: Setup, w: World) {
    match w.client
    case Fresh => w == Initial(st)
    case AwaitReady =>
      && w.files == st.files && !w.server.AwaitConfirm? && |w.toClient| <= 1
      && (w.toServer == [] || Just(w.toServer, TheCommand(st)))
      && (w.toClient != [] ==> w.toServer == [])
      && (w.toClient != [] ==> w.toClient[0] == Reply(READY_FOR_NEW_NAME, 0) || w.toClient[0].error != 0)
    case AwaitAck => !Just(w.toServer, TheAnswer(true)) && !Just(w.toServer, TheAnswer(false))
    case AwaitFinal =>
      && |w.toClient| <= 1 && !w.server.AwaitName?
      && (w.toServer == [] || Just(w.toServer, TheAnswer(true)) || Just(w.toServer, TheAnswer(false)))
      && (w.toClient != [] ==> w.toClient[0].code == ACK && w.server.Idle? && w.toServer == [])
    case Done(SUCCESS) => w.server.Idle? && w.toServer == [] && IsMoved(st, w.files)
    case Done(CANCELLED) => w.server.Idle? && w.toServer == [] && w.files == st.files
    case Done(FILE_NOT_FOUND) => Settled(st, w) && w.files == st.files
    case Done(_) => true
  }

  /** The client has been told, or will be, that a file was not found. */
  predicate ToldNotFound(w: World) {
    w.client == Done(FILE_NOT_FOUND) || Reply(ACK, 1) in w.toClient
  }

  predicate SourceMissing(st: Setup) {
    st.valid(st.Source()) && st.Source() !in st.files
  }

  /** The new name has not been taken for a command. */
  ghost predicate InTime(st: Setup, w: World) {
    && (w.toServer != [] && w.toServer[|w.toServer| - 1] == TheName(st) && ToldNotFound(w) ==> SourceMissing(st))
    && ServerOk(st, w) && FilesOk(st, w) && ResponsesOk(st, w) && ClientOk(st, w)
  }

  // ---------- after a new name has been taken for a command ----------

  /** What the server may be doing then: only a late remove command changes the store, and only by its file. */
  ghost predicate LateServer(st: Setup, w: World) {
    && (w.files == st.files || (st.Removes() && w.files == st.LateFiles()))
    && match st.Late().code
       case LS => w.server.Idle?
       case SEND => LateSend(st, w)
       case REMOVE => w.server.Idle?
       case RENAME => w.server.Idle? || w.server.AwaitName?
       case SHUTDOWN => w.server.Stopped?
       case _ => false
  }

  /** By the time a send waits for data, the client has no question left to answer. */
  ghost predicate LateSend(st: Setup, w: World) {
    match w.server
    case Idle => true
    case AwaitOverwrite => st.valid(st.Late().filename)
    case AwaitData(_) =>
      w.toServer == [] && (w.client.AwaitAck? ==> forall c <- w.toClient :: c.code != FILE_EXISTS)
    case Accepting => true
    case _ => false
  }

  /** What a response under way may be: one to the rename command, or one to the late name. */
  ghost predicate LateMeans(st: Setup, w: World, c: Command) {
    || c == Reply(READY_FOR_NEW_NAME, 0) || c == Reply(ACK, 1) || c == Reply(ACK, INVALID_FILENAME)
    || (SaysSuccess(c) && st.LateSuccess() && w.files == st.LateFiles())
    || (st.Late().code == SEND && c.code == ACK && c.error == 2)
    || (st.Late().code == SEND && c.code == FILE_EXISTS && c.error == 0)
    || (st.Late().code == LS && exists listing :: Lists(listing, st.files) && c == ListReply(listing))
  }

  ghost predicate TooLate(st: Setup, w: World) {
    && st.NameGoesOut() && LateServer(st, w) && (forall c <- w.toClient :: LateMeans(st, w, c))
    && (w.client.AwaitAck? || w.client.AwaitFinal? || w.client.Done?)
    && (w.toServer == [] || (!w.client.AwaitAck? && (Just(w.toServer, TheAnswer(true)) || Just(w.toServer, TheAnswer(false)))))
    && (w.client.AwaitFinal? || w.toServer != [] || w.client == Done(CANCELLED) ==> st.Late().code == SEND || st.Late().code == LS)
    && (w.client == Done(SUCCESS) ==> st.LateSuccess() && w.files == st.LateFiles())
    && (w.files != st.files && ToldNotFound(w) ==> SourceMissing(st))
  }

  ghost predicate Inv(st: Setup, w: World) {
    InTime(st, w) || TooLate(st, w)
  }

  // ---------- every step keeps it ----------

  lemma CarriedNone<T>(lost: seq<bool>)
    ensures Carried<T>([], lost) == []
  {
  }

  lemma CarriedOne<T>(x: T, lost: seq<bool>)
    ensures Carried([x], lost) == [] || Just(Carried([x], lost), x)
  {
    assert [x][1..] == [];
  }

  lemma CarriedTwo<T>(x: T, y: T, lost: seq<bool>)
    ensures var q := Carried([x, y], lost);
            q == [] || Just(q, x) || Just(q, y) || Both(q, x, y)
  {
    assert [x, y][1..] == [y];
    CarriedOne(y, if lost == [] then [] else lost[1..]);
  }

  lemma StartInv(st: Setup, w: World, step: Step)
    requires InTime(st, w) && Enabled(w, step) && step.Start?
    ensures InTime(st, Apply(st, w, step))
  {
    hide CommandName, DataName, ByteAt, Moved, Lists;
    var c, n := TheCommand(st), TheName(st);
    assert [c] + [n] == [c, n] && [c] + [] == [c];
    CarriedNone<Datagram>(step.lost);
    CarriedOne(c, step.lost);
    CarriedTwo(c, n, step.lost);
    var sent := StartRename(st.clientHandshake, st.oldName, st.newName, step.fails, step.failsNext).sent;
    assert sent == [] || sent == [c] || (sent == [c, n] && !st.clientHandshake);
    assert [] + Carried(sent, step.lost) == Carried(sent, step.lost);
    AfterStart(st, Apply(st, w, step));
  }

  lemma AfterStart(st: Setup, t: World)
    requires t.server.Idle? && t.files == st.files && t.toClient == []
    requires t.client.AwaitReady? || t.client.AwaitAck? || t.client == Done(SOCKET_SEND_ERROR)
    requires || t.toServer == [] || Just(t.toServer, TheCommand(st))
             || (!st.clientHandshake && (Just(t.toServer, TheName(st)) || Both(t.toServer, TheCommand(st), TheName(st))))
    requires t.client.AwaitReady? ==> st.clientHandshake
    ensures InTime(st, t)
  {
    hide CommandName, DataName, ByteAt, Moved, Lists;
  }

  /** At most one datagram joins the queue of the server. */
  lemma OneDatagram(queue: seq<Datagram>, sent: seq<Datagram>, lost: seq<bool>)
    requires |sent| <= 1
    ensures queue + Carried(sent, lost) == queue || (|sent| == 1 && queue + Carried(sent, lost) == queue + sent)
  {
    if |sent| == 1 {
      CarriedOne(sent[0], lost);
      assert sent == [sent[0]];
    }
  }

  lemma ReadyInv(st: Setup, w: World, step: Step)
    requires InTime(st, w) && Enabled(w, step) && step.ClientReceives? && w.client.AwaitReady?
    ensures InTime(st, Apply(st, w, step))
  {
    hide Lists;
    hide CommandName, DataName, ByteAt, Moved;
    OneDatagram(w.toServer, OnResponse(w.client, st.newName, w.toClient[0], step.consent, step.fails).sent, step.lost);
  }

  lemma Asked(st: Setup, w: World)
    requires InTime(st, w) && w.client.AwaitAck? && w.toClient != [] && w.toClient[0].code == FILE_EXISTS
    ensures w.toServer == [] && w.toClient[1..] == [] && w.files == st.files && !w.server.AwaitName?
  {
    hide CommandName, DataName, ByteAt, Moved;
  }

  /** The user is asked, and the answer goes out. */
  lemma AskInv(st: Setup, w: World, step: Step)
    requires InTime(st, w) && Enabled(w, step) && step.ClientReceives? && w.client.AwaitAck?
    requires w.toClient[0].code == FILE_EXISTS
    ensures InTime(st, Apply(st, w, step))
  {
    hide CommandName, DataName, ByteAt, Moved, InTime;
    Asked(st, w);
    OneDatagram([], OnResponse(w.client, st.newName, w.toClient[0], step.consent, step.fails).sent, step.lost);
    AfterAsk(st, w, Apply(st, w, step));
  }

  lemma AfterAsk(st: Setup, w: World, t: World)
    requires InTime(st, w) && w.toServer == [] && w.files == st.files && !w.server.AwaitName?
    requires t == w.(client := t.client, toServer := t.toServer, toClient := [], consented := t.consented)
    requires t.client.AwaitFinal? || (t.client.Done? && t.client.outcome !in {SUCCESS, CANCELLED, FILE_NOT_FOUND})
    requires t.toServer == [] || Just(t.toServer, TheAnswer(false)) || (Just(t.toServer, TheAnswer(true)) && t.consented)
    ensures InTime(st, t)
  {
    hide CommandName, DataName, ByteAt, Moved, Lists;
  }

  lemma VerdictInv(st: Setup, w: World, step: Step)
    requires InTime(st, w) && Enabled(w, step) && step.ClientReceives? && w.client.AwaitAck?
    requires w.toClient[0].code != FILE_EXISTS
    ensures InTime(st, Apply(st, w, step))
  {
    hide CommandName, DataName, ByteAt, Moved;
    OneDatagram(w.toServer, OnResponse(w.client, st.newName, w.toClient[0], step.consent, step.fails).sent, step.lost);
  }

  lemma FinalInv(st: Setup, w: World, step: Step)
    requires InTime(st, w) && Enabled(w, step) && step.ClientReceives? && w.client.AwaitFinal?
    ensures InTime(st, Apply(st, w, step))
  {
    hide CommandName, DataName, ByteAt, Moved;
    OneDatagram(w.toServer, OnResponse(w.client, st.newName, w.toClient[0], step.consent, step.fails).sent, step.lost);
  }

  /** At most one reply joins the queue of responses. */
  lemma OneReply(queue: seq<Command>, replies: seq<Command>, lost: seq<bool>)
    requires |replies| <= 1
    ensures queue + Carried(replies, lost) == queue
         || (|replies| == 1 && queue + Carried(replies, lost) == queue + replies)
  {
    if |replies| == 1 {
      CarriedOne(replies[0], lost);
      assert replies == [replies[0]];
    }
  }

  lemma CommandReaction(st: Setup, files: Files, os: Os)
    ensures var r := OnCommand(st.serverHandshake, st.valid, files, TheCommand(st), os);
            && r.files == files && |r.replies| <= 1
            && if r.state.Idle?
               then r.replies == [Reply(ACK, INVALID_FILENAME)]
                 || (r.replies == [Reply(ACK, 1)] && st.valid(st.Source()) && st.Source() !in files)
               else r.state == AwaitName(st.Source()) && st.Source() in files && st.valid(st.Source())
                    && (r.replies == [] || (st.serverHandshake && r.replies == [Reply(READY_FOR_NEW_NAME, 0)]))
  {
  }

  /** An answer that comes too late does nothing in the main loop, and neither does a name that is no command. */
  lemma IgnoredReaction(st: Setup, files: Files, d: Datagram, os: Os)
    requires d == TheAnswer(true) || d == TheAnswer(false)
          || (d == TheName(st) && st.Late().code !in {LS, SEND, REMOVE, RENAME, SHUTDOWN})
    ensures OnCommand(st.serverHandshake, st.valid, files, d, os) == Reaction(Idle, files, [])
  {
  }

  lemma IgnoredInv(st: Setup, w: World, step: Step)
    requires InTime(st, w) && Enabled(w, step) && step.ServerReceives? && w.server.Idle?
    requires w.toServer[0] != TheCommand(st)
    requires w.toServer[0] == TheName(st) ==> st.Late().code !in {LS, SEND, REMOVE, RENAME, SHUTDOWN}
    ensures InTime(st, Apply(st, w, step))
  {
    hide CommandName, DataName, ByteAt, Moved, OnCommand;
    IgnoredReaction(st, w.files, w.toServer[0], step.os);
    OneReply(w.toClient, [], step.lost);
  }

  lemma AtCommand(st: Setup, w: World)
    requires InTime(st, w) && w.toServer != [] && w.toServer[0] == TheCommand(st)
    ensures w.server.Idle? && w.toClient == [] && w.files == st.files
    ensures w.toServer[1..] == [] || (Just(w.toServer[1..], TheName(st)) && st.NameGoesOut())
    ensures w.client.AwaitReady? ==> w.toServer[1..] == []
    ensures w.client.AwaitReady? || w.client.AwaitAck?
         || (w.client.Done? && w.client.outcome !in {SUCCESS, CANCELLED, FILE_NOT_FOUND})
  {
    hide CommandName, DataName, ByteAt, Moved;
  }

  lemma CommandInv(st: Setup, w: World, step: Step)
    requires InTime(st, w) && Enabled(w, step) && step.ServerReceives? && w.server.Idle?
    requires w.toServer[0] == TheCommand(st)
    ensures InTime(st, Apply(st, w, step))
  {
    hide CommandName, DataName, ByteAt, Moved, OnCommand, InTime;
    AtCommand(st, w);
    CommandReaction(st, w.files, step.os);
    OneReply([], React(st, w, step.os).replies, step.lost);
    AfterCommand(st, w, Apply(st, w, step));
  }

  lemma AfterCommand(st: Setup, w: World, t: World)
    requires w.server.Idle? && w.files == st.files
    requires w.toServer != [] && (w.toServer[1..] == [] || (Just(w.toServer[1..], TheName(st)) && st.NameGoesOut()))
    requires w.client.AwaitReady? ==> w.toServer[1..] == []
    requires w.client.AwaitReady? || w.client.AwaitAck?
          || (w.client.Done? && w.client.outcome !in {SUCCESS, CANCELLED, FILE_NOT_FOUND})
    requires t == w.(server := t.server, toServer := w.toServer[1..], toClient := t.toClient)
    requires t.server.Idle? || t.server == AwaitName(st.Source())
    requires t.server.Idle? ==> t.toClient == [] || t.toClient == [Reply(ACK, INVALID_FILENAME)]
                                || (t.toClient == [Reply(ACK, 1)] && SourceMissing(st))
    requires !t.server.Idle? ==>
               && st.Source() in st.files && st.valid(st.Source())
               && (t.toClient == [] || (st.serverHandshake && t.toClient == [Reply(READY_FOR_NEW_NAME, 0)]))
    ensures InTime(st, t)
  {
    hide CommandName, DataName, ByteAt, Moved, Lists;
  }

  /** What the late name can make the server do. */
  lemma LateReaction(st: Setup, os: Os)
    requires st.Late().code in {LS, SEND, REMOVE, RENAME, SHUTDOWN} && Lists(os.listing, st.files)
    ensures var r := OnCommand(st.serverHandshake, st.valid, st.files, TheName(st), os);
            var w := World(AwaitAck, r.state, [], r.replies, r.files, false);
            |r.replies| <= 1 && LateServer(st, w) && (forall c <- r.replies :: LateMeans(st, w, c))
            && (r.files == st.files || r.replies == [Reply(ACK, 0)])
  {
    hide CommandName, DataName, AsCommand, ByteAt, Number, ListReply;
  }

  /** The exchange when the name arrives too late: nothing has happened to the store. */
  ghost predicate AtLateName(st: Setup, w: World) {
    && w.server.Idle? && Just(w.toServer, TheName(st)) && w.files == st.files && st.NameGoesOut()
    && (w.client.AwaitAck? || (w.client.Done? && w.client != Done(SUCCESS) && w.client != Done(CANCELLED)))
    && (forall c <- w.toClient ::
          c == Reply(READY_FOR_NEW_NAME, 0) || c == Reply(ACK, 1) || c == Reply(ACK, INVALID_FILENAME))
    && (ToldNotFound(w) ==> SourceMissing(st))
  }

  lemma LateNameWaits(st: Setup, w: World)
    requires InTime(st, w) && w.server.Idle? && w.toServer != [] && w.toServer[0] == TheName(st)
    ensures AtLateName(st, w)
  {
    hide CommandName, DataName, ByteAt, Moved;
  }

  /** A name that comes too late is taken for a command. */
  lemma LateNameInv(st: Setup, w: World, step: Step)
    requires AtLateName(st, w) && Enabled(w, step) && step.ServerReceives?
    requires st.Late().code in {LS, SEND, REMOVE, RENAME, SHUTDOWN}
    ensures TooLate(st, Apply(st, w, step))
  {
    hide CommandName, DataName, ByteAt, Moved, OnCommand, Lists, ListReply, InTime;
    LateReaction(st, step.os);
    OneReply(w.toClient, React(st, w, step.os).replies, step.lost);
  }

  lemma NameReaction(st: Setup, renames: bool)
    requires st.Source() in st.files
    ensures var r := OnName(st.valid, st.files, st.Source(), TheName(st), renames);
            || r == Reaction(Idle, st.files, [Reply(ACK, INVALID_FILENAME)])
            || r == Reaction(Idle, st.files, [Reply(ACK, 1)])
            || (st.valid(st.Target()) && st.Target() in st.files
                && r == Reaction(AwaitConfirm(st.Source(), st.Target()), st.files, [Reply(FILE_EXISTS, 0)]))
            || (st.valid(st.Target()) && st.Target() !in st.files
                && r == Reaction(Idle, Moved(st.files, st.Source(), st.Target()), [Reply(ACK, 0)]))
  {
    hide CommandName, DataName, Moved;
  }

  lemma AtName(st: Setup, w: World)
    requires InTime(st, w) && w.server.AwaitName? && w.toServer != []
    ensures w.server == AwaitName(st.Source()) && Just(w.toServer, TheName(st)) && w.files == st.files
    ensures st.Source() in st.files && st.valid(st.Source())
    ensures w.toClient == [] || (st.serverHandshake && w.toClient == [Reply(READY_FOR_NEW_NAME, 0)])
    ensures w.client.AwaitAck? || (w.client.Done? && w.client.outcome !in {SUCCESS, CANCELLED, FILE_NOT_FOUND})
  {
    hide CommandName, DataName, ByteAt, Moved;
  }

  lemma NameInv(st: Setup, w: World, step: Step)
    requires InTime(st, w) && Enabled(w, step) && step.ServerReceives? && w.server.AwaitName?
    ensures InTime(st, Apply(st, w, step))
  {
    hide CommandName, DataName, ByteAt, Moved, OnName, AsText, Lists, InTime;
    AtName(st, w);
    NameReaction(st, step.os.renames);
    OneReply(w.toClient, React(st, w, step.os).replies, step.lost);
    AfterName(st, w, React(st, w, step.os), Apply(st, w, step));
  }

  lemma AfterName(st: Setup, w: World, r: Reaction, t: World)
    requires st.Source() in st.files && st.valid(st.Source())
    requires w.toClient == [] || (st.serverHandshake && w.toClient == [Reply(READY_FOR_NEW_NAME, 0)])
    requires t.client.AwaitAck? || (t.client.Done? && t.client.outcome !in {SUCCESS, CANCELLED, FILE_NOT_FOUND})
    requires t.toServer == [] && t.server == r.state && t.files == r.files
    requires t.toClient == w.toClient || t.toClient == w.toClient + r.replies
    requires || r == Reaction(Idle, st.files, [Reply(ACK, INVALID_FILENAME)])
             || r == Reaction(Idle, st.files, [Reply(ACK, 1)])
             || (st.valid(st.Target()) && st.Target() in st.files
                 && r == Reaction(AwaitConfirm(st.Source(), st.Target()), st.files, [Reply(FILE_EXISTS, 0)]))
             || (st.valid(st.Target()) && st.Target() !in st.files
                 && r == Reaction(Idle, Moved(st.files, st.Source(), st.Target()), [Reply(ACK, 0)]))
    ensures InTime(st, t)
  {
    hide CommandName, DataName, ByteAt, Moved, Lists;
  }

  lemma ConfirmReaction(st: Setup, yes: bool, deletes: bool, renames: bool)
    requires st.Source() in st.files && st.Target() in st.files
    ensures var r := OnConfirm(st.files, st.Source(), st.Target(), TheAnswer(yes), deletes, renames);
            && r.state.Idle? && |r.replies| == 1
            && match r.replies[0].error
               case 0 => yes && r.replies == [Reply(ACK, 0)] && IsMoved(st, r.files)
               case 1 => yes && r.replies == [Reply(ACK, 1)] && (r.files == st.files || r.files == st.files - {st.Target()})
               case _ => !yes && r.replies == [Reply(ACK, 2)] && r.files == st.files
  {
    hide CommandName, DataName;
  }

  lemma AtConfirm(st: Setup, w: World)
    requires InTime(st, w) && w.server.AwaitConfirm? && w.toServer != []
    ensures w.server == AwaitConfirm(st.Source(), st.Target()) && w.files == st.files && w.toClient == []
    ensures st.valid(st.Source()) && st.valid(st.Target()) && st.Source() in st.files && st.Target() in st.files
    ensures Just(w.toServer, TheAnswer(w.toServer[0] == TheAnswer(true))) && (w.toServer[0] == TheAnswer(true) ==> w.consented)
    ensures w.client.AwaitFinal? || (w.client.Done? && w.client.outcome !in {SUCCESS, CANCELLED, FILE_NOT_FOUND})
  {
    hide CommandName, DataName, ByteAt, Moved;
  }

  lemma ConfirmInv(st: Setup, w: World, step: Step)
    requires InTime(st, w) && Enabled(w, step) && step.ServerReceives? && w.server.AwaitConfirm?
    ensures InTime(st, Apply(st, w, step))
  {
    hide CommandName, DataName, ByteAt, Moved, OnConfirm, AsCommand, IsMoved, Lists, InTime;
    AtConfirm(st, w);
    ConfirmReaction(st, w.toServer[0] == TheAnswer(true), step.os.deletes, step.os.renames);
    OneReply([], React(st, w, step.os).replies, step.lost);
    AfterConfirm(st, w, Apply(st, w, step));
  }

  lemma AfterConfirm(st: Setup, w: World, t: World)
    requires st.valid(st.Source()) && st.valid(st.Target()) && st.Source() in st.files && st.Target() in st.files
    requires t.client.AwaitFinal? || (t.client.Done? && t.client.outcome !in {SUCCESS, CANCELLED, FILE_NOT_FOUND})
    requires t.server.Idle? && t.toServer == []
    requires t.files == st.files || (t.consented && (IsMoved(st, t.files) || t.files == st.files - {st.Target()}))
    requires || t.toClient == [] || t.toClient == [Reply(ACK, 1)]
             || (t.toClient == [Reply(ACK, 0)] && IsMoved(st, t.files))
             || (t.toClient == [Reply(ACK, 2)] && t.files == st.files)
    ensures InTime(st, t)
  {
    hide CommandName, DataName, ByteAt, IsMoved, Lists;
  }

  lemma ClientInv(st: Setup, w: World, step: Step)
    requires InTime(st, w) && Enabled(w, step) && step.ClientReceives?
    ensures InTime(st, Apply(st, w, step))
  {
    hide InTime, Apply;
    match w.client {
      case AwaitReady => ReadyInv(st, w, step);
      case AwaitAck =>
        if w.toClient[0].code == FILE_EXISTS {
          AskInv(st, w, step);
        } else {
          VerdictInv(st, w, step);
        }
      case AwaitFinal => FinalInv(st, w, step);
    }
  }

  lemma MainLoopInv(st: Setup, w: World, step: Step)
    requires InTime(st, w) && Enabled(w, step) && step.ServerReceives? && w.server.Idle?
    ensures Inv(st, Apply(st, w, step))
  {
    hide InTime, TooLate, Apply, AtLateName;
    if w.toServer[0] == TheCommand(st) {
      CommandInv(st, w, step);
    } else if w.toServer[0] == TheName(st) && st.Late().code in {LS, SEND, REMOVE, RENAME, SHUTDOWN} {
      LateNameWaits(st, w);
      LateNameInv(st, w, step);
    } else {
      IgnoredInv(st, w, step);
    }
  }

  lemma InTimeServer(st: Setup, w: World)
    requires InTime(st, w)
    ensures w.server.Idle? || w.server.AwaitName? || w.server.AwaitConfirm?
  {
  }

  lemma ServerTimeOutInv(st: Setup, w: World, step: Step)
    requires InTime(st, w) && Enabled(w, step) && step.ServerTimesOut?
    ensures InTime(st, Apply(st, w, step))
  {
    hide CommandName, DataName, ByteAt, Moved;
    OneReply(w.toClient, [], step.lost);
    assert Apply(st, w, step) == w.(server := Idle);
  }

  lemma ClientTimeOutInv(st: Setup, w: World, step: Step)
    requires InTime(st, w) && Enabled(w, step) && step.ClientTimesOut?
    ensures InTime(st, Apply(st, w, step))
  {
    hide CommandName, DataName, ByteAt, Moved, IsMoved, Lists;
  }

  lemma InTimeStep(st: Setup, w: World, step: Step)
    requires InTime(st, w) && Enabled(w, step)
    ensures Inv(st, Apply(st, w, step))
  {
    hide InTime, TooLate, Apply;
    match step
    case Start(_, _, _) => StartInv(st, w, step);
    case ClientReceives(_, _, _) => ClientInv(st, w, step);
    case ServerReceives(_, _) =>
      InTimeServer(st, w);
      match w.server {
        case Idle => MainLoopInv(st, w, step);
        case AwaitName(_) => NameInv(st, w, step);
        case AwaitConfirm(_, _) => ConfirmInv(st, w, step);
      }
    case ServerTimesOut(_) => ServerTimeOutInv(st, w, step);
    case ClientTimesOut => ClientTimeOutInv(st, w, step);
  }

  /** Taking the first response: the others keep their meaning. */
  lemma LateRest(st: Setup, w: World)
    requires w.toClient != [] && forall c <- w.toClient :: LateMeans(st, w, c)
    ensures LateMeans(st, w, w.toClient[0]) && forall c <- w.toClient[1..] :: LateMeans(st, w, c) && c in w.toClient
  {
    assert w.toClient[0] in w.toClient && forall c <- w.toClient[1..] :: c in w.toClient;
  }

  lemma TooLateAsk(st: Setup, w: World, step: Step)
    requires TooLate(st, w) && Enabled(w, step) && step.ClientReceives? && w.client.AwaitAck?
    requires w.toClient[0].code == FILE_EXISTS
    ensures TooLate(st, Apply(st, w, step))
  {
    hide CommandName, DataName, ByteAt, Moved, OnCommand, Lists, ListReply;
    LateRest(st, w);
    OneDatagram([], OnResponse(w.client, st.newName, w.toClient[0], step.consent, step.fails).sent, step.lost);
  }

  lemma TooLateVerdict(st: Setup, w: World, step: Step)
    requires TooLate(st, w) && Enabled(w, step) && step.ClientReceives?
    requires w.client.AwaitFinal? || (w.client.AwaitAck? && w.toClient[0].code != FILE_EXISTS)
    ensures TooLate(st, Apply(st, w, step))
  {
    hide CommandName, DataName, ByteAt, Moved, OnCommand, Lists, ListReply;
    LateRest(st, w);
    OneDatagram(w.toServer, [], step.lost);
  }

  lemma TooLateIdle(st: Setup, w: World, step: Step)
    requires TooLate(st, w) && Enabled(w, step) && step.ServerReceives? && w.server.Idle?
    ensures TooLate(st, Apply(st, w, step))
  {
    hide CommandName, DataName, ByteAt, Moved, OnCommand, Lists, ListReply;
    IgnoredReaction(st, w.files, w.toServer[0], step.os);
    OneReply(w.toClient, [], step.lost);
  }

  /** The answer to a question that a late send command asked. */
  lemma TooLateAnswer(st: Setup, w: World, step: Step)
    requires TooLate(st, w) && Enabled(w, step) && step.ServerReceives? && w.server.AwaitOverwrite?
    ensures TooLate(st, Apply(st, w, step))
  {
    hide CommandName, DataName, ByteAt, Moved, Lists, ListReply;
    OneReply(w.toClient, React(st, w, step.os).replies, step.lost);
  }

  lemma TooLateTimeOut(st: Setup, w: World, step: Step)
    requires TooLate(st, w) && Enabled(w, step) && step.ServerTimesOut?
    ensures TooLate(st, Apply(st, w, step))
  {
    hide CommandName, DataName, ByteAt, Moved, OnCommand;
    OneReply(w.toClient, OnTimeOut(w.server, w.files).replies, step.lost);
  }

  lemma StepInv(st: Setup, w: World, step: Step)
    requires Inv(st, w) && Enabled(w, step)
    ensures Inv(st, Apply(st, w, step))
  {
    hide InTime, TooLate, Apply;
    if InTime(st, w) {
      InTimeStep(st, w, step);
    } else {
      match step
      case ClientReceives(_, _, _) =>
        TooLateListens(st, w);
        if w.client.AwaitAck? && w.toClient[0].code == FILE_EXISTS {
          TooLateAsk(st, w, step);
        } else {
          TooLateVerdict(st, w, step);
        }
      case ServerReceives(_, _) =>
        TooLateListens(st, w);
        if w.server.Idle? {
          TooLateIdle(st, w, step);
        } else {
          TooLateAnswer(st, w, step);
        }
      case ServerTimesOut(_) => TooLateTimeOut(st, w, step);
      case _ => TooLateEnds(st, w, step);
    }
  }

  lemma TooLateListens(st: Setup, w: World)
    requires TooLate(st, w)
    ensures w.toServer != [] && w.server.Receives() ==> w.server.Idle? || w.server.AwaitOverwrite?
    ensures w.client.Waiting() ==> w.client.AwaitAck? || w.client.AwaitFinal?
  {
  }

  lemma TooLateEnds(st: Setup, w: World, step: Step)
    requires TooLate(st, w) && Enabled(w, step) && (step.Start? || step.ClientTimesOut?)
    ensures TooLate(st, Apply(st, w, step))
  {
  }

  lemma InitialInv(st: Setup)
    ensures Inv(st, Initial(st))
  {
  }

  lemma {:induction false} RunInv(st: Setup, worlds: seq<World>, steps: seq<Step>, k: nat)
    requires Run(st, worlds, steps) && k < |worlds|
    ensures Inv(st, worlds[k])
  {
    hide Inv, Apply, Enabled, Initial;
    if k == 0 {
      InitialInv(st);
    } else {
      RunInv(st, worlds, steps, k - 1);
      StepInv(st, worlds[k - 1], steps[k - 1]);
    }
  }

  // ---------- what the client may conclude ----------

  /** A late remove command has done its work. */
  ghost predicate LateRemoval(st: Setup, files: Files) {
    st.NameGoesOut() && st.Removes() && files == st.LateFiles()
  }

  /** What a rename of valid names may leave: all done, or, when it failed in the middle, the target gone. */
  ghost predicate Renaming(st: Setup, files: Files) {
    st.valid(st.Source()) && st.valid(st.Target())
    && (IsMoved(st, files) || (st.Target() in st.files && files == st.files - {st.Target()}))
  }

  /** Whatever is lost and whichever waits time out, and whatever the names: success means that exactly the one entry
      has moved, unless the new name was taken for a command whose reply says "no error"; a cancelled rename, and one
      whose source was not found, has changed nothing, unless the name was taken for a remove command; no other file
      is ever touched unless it was, and a target that was there is touched only after the user agreed. */
  lemma OutcomeSound(st: Setup, worlds: seq<World>, steps: seq<Step>, k: nat)
    requires Run(st, worlds, steps) && k < |worlds|
    ensures var w := worlds[k];
            && (w.client == Done(SUCCESS) ==>
                  IsMoved(st, w.files) || (st.NameGoesOut() && st.LateSuccess() && w.files == st.LateFiles()))
            && (w.client == Done(CANCELLED) ==> w.files == st.files)
            && (w.client == Done(FILE_NOT_FOUND) ==>
                  w.files == st.files || (LateRemoval(st, w.files) && SourceMissing(st)))
            && (w.files == st.files || LateRemoval(st, w.files)
                || (Renaming(st, w.files) && (st.Target() in st.files ==> w.consented)))
  {
    RunInv(st, worlds, steps, k);
  }

  /** The rename command is all that ever reaches the server, and nothing but refusals come back. */
  ghost predicate Stuck(st: Setup, w: World) {
    && w.files == st.files && (w.client.Fresh? || w.client.AwaitReady? || w.client.Done?)
    && (w.toServer == [] || Just(w.toServer, TheCommand(st))) && (w.server.Idle? || w.server.AwaitName?)
    && (w.client.Fresh? ==> w.toServer == [] && w.server.Idle?) && (w.server.AwaitName? ==> w.toServer == [])
    && (forall c <- w.toClient :: c.code == ACK)
  }

  /** A client that insists on the handshake never gets past a server that does not offer it, whatever the names. */
  lemma {:induction false} NoHandshakeNoRename(st: Setup, worlds: seq<World>, steps: seq<Step>, k: nat)
    requires Run(st, worlds, steps) && k < |worlds| && st.clientHandshake && !st.serverHandshake
    ensures Stuck(st, worlds[k])
  {
    if k > 0 {
      NoHandshakeNoRename(st, worlds, steps, k - 1);
      HandshakelessStep(st, worlds[k - 1], steps[k - 1]);
    }
  }

  lemma HandshakelessStep(st: Setup, w: World, step: Step)
    requires Stuck(st, w) && Enabled(w, step) && st.clientHandshake && !st.serverHandshake
    ensures Stuck(st, Apply(st, w, step))
  {
    hide CommandName, DataName, ByteAt, Moved, OnCommand;
    match step
    case Start(_, _, lost) =>
      CarriedOne(TheCommand(st), lost);
      CarriedNone<Datagram>(lost);
    case ClientReceives(_, _, lost) =>
      assert w.toClient[0] in w.toClient;
      CarriedNone<Datagram>(lost);
    case ServerReceives(os, lost) =>
      CommandReplies(st, w.files, os);
      OneReply(w.toClient, OnCommand(false, st.valid, w.files, TheCommand(st), os).replies, lost);
    case ServerTimesOut(lost) => OneReply(w.toClient, [], lost);
    case ClientTimesOut =>
  }

  lemma CommandReplies(st: Setup, files: Files, os: Os)
    ensures var r := OnCommand(false, st.valid, files, TheCommand(st), os);
            && r.files == files && |r.replies| <= 1 && (r.state.Idle? || r.state.AwaitName?)
            && forall c <- r.replies :: c.code == ACK
  {
  }
}
