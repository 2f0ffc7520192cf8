/** Runs of the rename exchange, and with them exactly when each thing that the client would like to conclude fails. */
module RenameRuns {
  import opened Messages
  import opened Rename
  import opened RenameExchange

  lemma {:induction false} NothingLost<T>(sent: seq<T>)
    ensures Carried(sent, []) == sent
  {
    if sent != [] {
      NothingLost(sent[1..]);
    }
  }

  /** Everything works, directories cannot be listed. */
  function Obliging(): Os {
    Os(true, true, true, true, [], 0, "")
  }

  /** The server takes the next datagram and its replies arrive. */
  function Serve(): Step {
    ServerReceives(Obliging(), [])
  }

  /** Both sides agree on the handshake, or only the server offers it and its signal is lost. */
  function Opening(st: Setup): seq<Step> {
    if st.clientHandshake
    then [Start(false, false, []), Serve(), ClientReceives(true, false, [])]
    else [Start(false, false, []), ServerReceives(Obliging(), [true])]
  }

  /** The server has the new name before it, the client waits for the verdict. */
  function NameSent(st: Setup): World {
    World(AwaitAck, AwaitName(st.Source()), [TheName(st)], [], st.files, false)
  }

  lemma Opens(st: Setup) returns (worlds: seq<World>)
    requires st.Source() in st.files && st.valid(st.Source())
    requires st.clientHandshake ==> st.serverHandshake
    ensures Run(st, worlds, Opening(st)) && worlds[|Opening(st)|] == NameSent(st)
  {
    hide CommandName, DataName, ByteAt;
    var w0 := Initial(st);
    var c, n, ready := TheCommand(st), TheName(st), Reply(READY_FOR_NEW_NAME, 0);
    NothingLost([c]);
    NothingLost([n]);
    NothingLost([ready]);
    if st.clientHandshake {
      var w1 := w0.(client := AwaitReady, toServer := [c]);
      var w2 := w1.(server := AwaitName(st.Source()), toServer := [], toClient := [ready]);
      assert Apply(st, w0, Opening(st)[0]) == w1;
      assert Apply(st, w1, Opening(st)[1]) == w2;
      assert Apply(st, w2, Opening(st)[2]) == NameSent(st);
      worlds := [w0, w1, w2, NameSent(st)];
    } else {
      assert [c] + [n] == [c, n];
      NothingLost([c, n]);
      var w1 := w0.(client := AwaitAck, toServer := [c, n]);
      assert Apply(st, w0, Opening(st)[0]) == w1;
      assert Carried([ready], [true]) == [];
      assert Apply(st, w1, Opening(st)[1]) == NameSent(st);
      worlds := [w0, w1, NameSent(st)];
    }
  }

  /** One more step, with the world it leads to. */
  lemma RunExtend(st: Setup, worlds: seq<World>, steps: seq<Step>, step: Step, w: World)
    requires Run(st, worlds, steps) && Enabled(worlds[|steps|], step) && w == Apply(st, worlds[|steps|], step)
    ensures Run(st, worlds + [w], steps + [step])
  {
    hide Apply, Enabled;
  }

  /** The exchange can succeed: a valid new name that is not taken, and a source that exists. */
  lemma SuccessReachable(st: Setup) returns (worlds: seq<World>, steps: seq<Step>)
    requires st.Source() in st.files && st.valid(st.Source())
    requires st.valid(st.Target()) && st.Target() !in st.files && (st.clientHandshake ==> st.serverHandshake)
    ensures Run(st, worlds, steps) && worlds[|steps|].client == Done(SUCCESS) && IsMoved(st, worlds[|steps|].files)
  {
    hide CommandName, DataName, ByteAt;
    worlds := Opens(st);
    steps := Opening(st);
    var w1 := NameSent(st).(server := Idle, toServer := [], toClient := [Reply(ACK, 0)],
                            files := Moved(st.files, st.Source(), st.Target()));
    NothingLost([Reply(ACK, 0)]);
    RunExtend(st, worlds, steps, Serve(), w1);
    worlds, steps := worlds + [w1], steps + [Serve()];
    var w2 := Apply(st, w1, ClientReceives(true, false, []));
    RunExtend(st, worlds, steps, ClientReceives(true, false, []), w2);
    worlds, steps := worlds + [w2], steps + [ClientReceives(true, false, [])];
  }

  // ---------- the new name arrives too late ----------

  /** The server is between commands, the client has sent the name. */
  function NameLate(st: Setup): World {
    World(AwaitAck, Idle, [TheName(st)], [], st.files, false)
  }

  /** It comes to that whenever the client sends the name at all: the server gives up waiting for it, or has never got
      the rename command. */
  lemma LateReachable(st: Setup) returns (worlds: seq<World>, steps: seq<Step>)
    requires st.NameGoesOut()
    ensures Run(st, worlds, steps) && worlds[|steps|] == NameLate(st)
  {
    hide CommandName, DataName, ByteAt;
    if st.clientHandshake {
      worlds := Opens(st);
      steps := Opening(st);
      RunExtend(st, worlds, steps, ServerTimesOut([]), NameLate(st));
      worlds, steps := worlds + [NameLate(st)], steps + [ServerTimesOut([])];
    } else {
      var c, n := TheCommand(st), TheName(st);
      assert [c] + [n] == [c, n] && [c, n][1..] == [n] && [true][1..] == [];
      assert Carried([c, n], [true]) == [] + Carried([n], []);
      NothingLost([n]);
      steps := [Start(false, false, [true])];
      worlds := [Initial(st), NameLate(st)];
      assert Apply(st, Initial(st), steps[0]) == NameLate(st);
    }
  }

  /** The late name is taken for a command, and the server's reply to it arrives. */
  lemma LateCommand(st: Setup, os: Os, reply: Command) returns (worlds: seq<World>, steps: seq<Step>)
    requires st.NameGoesOut() && Lists(os.listing, st.files)
    requires OnCommand(st.serverHandshake, st.valid, st.files, TheName(st), os).replies == [reply]
    ensures Run(st, worlds, steps)
    ensures var r := OnCommand(st.serverHandshake, st.valid, st.files, TheName(st), os);
            worlds[|steps|] == World(AwaitAck, r.state, [], [reply], r.files, false)
  {
    hide CommandName, DataName, ByteAt, OnCommand;
    worlds, steps := LateReachable(st);
    var r := OnCommand(st.serverHandshake, st.valid, st.files, TheName(st), os);
    var w := World(AwaitAck, r.state, [], [reply], r.files, false);
    NothingLost([reply]);
    RunExtend(st, worlds, steps, ServerReceives(os, []), w);
    worlds, steps := worlds + [w], steps + [ServerReceives(os, [])];
  }

  /** One reply that says "no error" is enough for the client. */
  lemma SuccessReported(st: Setup, worlds: seq<World>, steps: seq<Step>) returns (worlds': seq<World>, steps': seq<Step>)
    requires Run(st, worlds, steps)
    requires var w := worlds[|steps|];
             (w.client.AwaitAck? || w.client.AwaitFinal?) && w.toClient != [] && SaysSuccess(w.toClient[0])
    ensures Run(st, worlds', steps') && worlds'[|steps'|].client == Done(SUCCESS)
    ensures worlds'[|steps'|].files == worlds[|steps|].files
  {
    var step := ClientReceives(true, false, []);
    var w := Apply(st, worlds[|steps|], step);
    RunExtend(st, worlds, steps, step, w);
    worlds', steps' := worlds + [w], steps + [step];
  }

  /** A late send command for an existing file: the client, asked whether to overwrite, agrees, and its agreement is
      acknowledged. */
  lemma LateOverwrite(st: Setup) returns (worlds: seq<World>, steps: seq<Step>)
    requires st.NameGoesOut() && st.Late().code == SEND
    requires st.valid(st.Late().filename) && st.Late().filename in st.files
    ensures Run(st, worlds, steps)
    ensures worlds[|steps|] == World(AwaitFinal, AwaitData(""), [], [Reply(ACK, 0)], st.files, true)
  {
    hide CommandName, DataName, ByteAt;
    var question := Reply(FILE_EXISTS, 0).(size := st.Late().size);
    worlds, steps := LateCommand(st, Obliging(), question);
    var w0 := World(AwaitAck, AwaitOverwrite, [], [question], st.files, false);
    var w1 := World(AwaitFinal, AwaitOverwrite, [TheAnswer(true)], [], st.files, true);
    NothingLost([TheAnswer(true)]);
    assert Apply(st, w0, ClientReceives(true, false, [])) == w1;
    RunExtend(st, worlds, steps, ClientReceives(true, false, []), w1);
    worlds, steps := worlds + [w1], steps + [ClientReceives(true, false, [])];
    var w2 := World(AwaitFinal, AwaitData(""), [], [Reply(ACK, 0)], st.files, true);
    NothingLost([Reply(ACK, 0)]);
    assert Apply(st, w1, Serve()) == w2;
    RunExtend(st, worlds, steps, Serve(), w2);
    worlds, steps := worlds + [w2], steps + [Serve()];
  }

  /** Any other late command that can be answered with "no error". */
  lemma LateAccepted(st: Setup) returns (os: Os)
    requires st.LateSuccess() && !(st.Late().code == SEND && st.Late().filename in st.files)
    ensures Lists(os.listing, st.files)
    ensures var r := OnCommand(st.serverHandshake, st.valid, st.files, TheName(st), os);
            |r.replies| == 1 && SaysSuccess(r.replies[0]) && r.files == st.LateFiles()
  {
    hide CommandName, DataName, ByteAt, Number;
    os := Obliging();
    if st.Late().code == LS {
      var listing :| Lists(listing, st.files) && SaysSuccess(ListReply(listing));
      os := os.(listing := listing);
    }
  }

  lemma LateSuccessReachable(st: Setup) returns (worlds: seq<World>, steps: seq<Step>)
    requires st.NameGoesOut() && st.LateSuccess()
    ensures Run(st, worlds, steps) && worlds[|steps|].client == Done(SUCCESS) && worlds[|steps|].files == st.LateFiles()
  {
    hide OnCommand, Lists, Run, CommandName, DataName, ByteAt, Number;
    if st.Late().code == SEND && st.Late().filename in st.files {
      worlds, steps := LateOverwrite(st);
    } else {
      var os := LateAccepted(st);
      worlds, steps := LateCommand(st, os, OnCommand(st.serverHandshake, st.valid, st.files, TheName(st), os).replies[0]);
    }
    worlds, steps := SuccessReported(st, worlds, steps);
  }

  /** A late remove command: the file it names is gone, nothing is renamed, and the client reports success. */
  lemma LateNameRemoves(st: Setup) returns (worlds: seq<World>, steps: seq<Step>)
    requires st.NameGoesOut() && st.Removes()
    ensures Run(st, worlds, steps) && worlds[|steps|].client == Done(SUCCESS)
    ensures worlds[|steps|].files == st.files - {st.Late().filename}
  {
    worlds, steps := LateSuccessReachable(st);
  }

  // ---------- exactly when conclusions fail ----------

  /** A command's name is shorter than the name it is read from. */
  lemma VictimIsNoTarget(st: Setup)
    requires st.Removes()
    ensures st.Late().filename != st.Target()
  {
  }

  /** What a late command leaves looks like the moved entry: both names are the same, or the file removed was the source
      and the target was there already, with the same content. */
  predicate LooksMoved(st: Setup) {
    st.Source() in st.files
    && if st.Removes()
       then st.Late().filename == st.Source() && st.Target() in st.files && st.files[st.Target()] == st.files[st.Source()]
       else st.Source() == st.Target()
  }

  lemma LooksMovedExact(st: Setup)
    ensures IsMoved(st, st.LateFiles()) <==> LooksMoved(st)
  {
    hide CommandName, DataName, ByteAt, Number, AsCommand;
    if st.Source() in st.files {
      var moved := Moved(st.files, st.Source(), st.Target());
      assert st.Target() in moved;
      if st.Source() == st.Target() {
        assert moved == st.files;
      } else {
        assert st.Source() !in moved;
      }
      if st.Removes() {
        assert st.Late().filename !in st.LateFiles() && st.Late().filename in st.files;
        if LooksMoved(st) {
          VictimIsNoTarget(st);
          assert moved == st.LateFiles();
        }
      }
    }
  }

  /** Success is reported although the entry has not moved: possible exactly when the name can be sent, some reply to it
      as a command says "no error", and what that command leaves does not look like the moved entry. */
  ghost predicate Misleading(st: Setup) {
    st.NameGoesOut() && st.LateSuccess() && !LooksMoved(st)
  }

  lemma SuccessNotMoved(st: Setup, worlds: seq<World>, steps: seq<Step>, k: nat)
    requires Run(st, worlds, steps) && k < |worlds|
    requires worlds[k].client == Done(SUCCESS) && !IsMoved(st, worlds[k].files)
    ensures Misleading(st)
  {
    hide Run, LooksMoved, Renaming, LateRemoval;
    OutcomeSound(st, worlds, steps, k);
    LooksMovedExact(st);
  }

  lemma SuccessExact(st: Setup)
    ensures (exists worlds: seq<World>, steps: seq<Step> ::
               Run(st, worlds, steps) && worlds[|steps|].client == Done(SUCCESS) && !IsMoved(st, worlds[|steps|].files))
       <==> Misleading(st)
  {
    hide LooksMoved, IsMoved, Enabled, Apply, Initial;
    forall worlds: seq<World>, steps: seq<Step>
      | Run(st, worlds, steps) && worlds[|steps|].client == Done(SUCCESS) && !IsMoved(st, worlds[|steps|].files)
      ensures Misleading(st)
    {
      SuccessNotMoved(st, worlds, steps, |steps|);
    }
    if Misleading(st) {
      var worlds, steps := LateSuccessReachable(st);
      LooksMovedExact(st);
    }
  }

  /** With names that fit their messages, and no such command in the new name, success means that the file the user
      named has moved to the name the user gave, and everything else is as before. */
  lemma NamedFileMoved(st: Setup, worlds: seq<World>, steps: seq<Step>, k: nat, other: string)
    requires !Misleading(st) && Run(st, worlds, steps) && k < |worlds| && worlds[k].client == Done(SUCCESS)
    requires |st.oldName| <= 127 && NUL !in st.oldName
    requires |st.newName| <= 2999 && NUL !in st.newName
    ensures var files := worlds[k].files;
            && st.oldName in st.files && st.newName in files && files[st.newName] == st.files[st.oldName]
            && (st.oldName != st.newName ==> st.oldName !in files)
            && (other != st.oldName && other != st.newName ==>
                  (other in files <==> other in st.files) && (other in files ==> files[other] == st.files[other]))
  {
    OutcomeSound(st, worlds, steps, k);
    CommandNameExact(st.oldName);
    DataNameExact(st.newName);
  }

  /** A store that no rename of the two names leaves: possible exactly when the name reads as a remove command of an
      existing file and that removal does not look like the rename. */
  lemma StoreExact(st: Setup)
    ensures (exists worlds: seq<World>, steps: seq<Step> ::
               && Run(st, worlds, steps)
               && worlds[|steps|].files != st.files && !Renaming(st, worlds[|steps|].files))
       <==> st.NameGoesOut() && st.Removes() && !(LooksMoved(st) && st.valid(st.Target()))
  {
    forall worlds: seq<World>, steps: seq<Step>
      | Run(st, worlds, steps) && worlds[|steps|].files != st.files && !Renaming(st, worlds[|steps|].files)
      ensures st.NameGoesOut() && st.Removes() && !(LooksMoved(st) && st.valid(st.Target()))
    {
      OutcomeSound(st, worlds, steps, |steps|);
      LooksMovedExact(st);
    }
    if st.NameGoesOut() && st.Removes() && !(LooksMoved(st) && st.valid(st.Target())) {
      var worlds, steps := LateNameRemoves(st);
      RemovalIsNoRename(st);
    }
  }

  lemma RemovalIsNoRename(st: Setup)
    requires st.Removes() && !(LooksMoved(st) && st.valid(st.Target()))
    ensures st.LateFiles() != st.files && !Renaming(st, st.LateFiles())
  {
    LooksMovedExact(st);
    VictimIsNoTarget(st);
    assert st.Late().filename in st.files && st.Late().filename !in st.LateFiles();
  }

  /** The client is told that the source does not exist, and a file has gone: possible exactly when that is so, the
      client does not wait for the signal, and the name reads as a remove command of an existing file. */
  lemma NotFoundExact(st: Setup)
    ensures (exists worlds: seq<World>, steps: seq<Step> ::
               && Run(st, worlds, steps)
               && worlds[|steps|].client == Done(FILE_NOT_FOUND) && worlds[|steps|].files != st.files)
       <==> SourceMissing(st) && !st.clientHandshake && st.Removes()
  {
    forall worlds: seq<World>, steps: seq<Step>
      | Run(st, worlds, steps) && worlds[|steps|].client == Done(FILE_NOT_FOUND) && worlds[|steps|].files != st.files
      ensures SourceMissing(st) && !st.clientHandshake && st.Removes()
    {
      OutcomeSound(st, worlds, steps, |steps|);
    }
    if SourceMissing(st) && !st.clientHandshake && st.Removes() {
      var worlds, steps := NotFoundReachable(st);
    }
  }

  /** Nothing is lost: the server refuses the rename command, and the name that follows is too late. */
  lemma NotFoundReachable(st: Setup) returns (worlds: seq<World>, steps: seq<Step>)
    requires SourceMissing(st) && !st.clientHandshake && st.Removes()
    ensures Run(st, worlds, steps)
    ensures worlds[|steps|].client == Done(FILE_NOT_FOUND) && worlds[|steps|].files != st.files
  {
    hide CommandName, DataName, ByteAt, Number, OnCommand;
    worlds, steps := Refused(st);
    var w := World(Done(FILE_NOT_FOUND), Idle, [TheName(st)], [], st.files, false);
    var t := Apply(st, w, Serve());
    LateRemovalReaction(st);
    RunExtend(st, worlds, steps, Serve(), t);
    worlds, steps := worlds + [t], steps + [Serve()];
  }

  lemma LateRemovalReaction(st: Setup)
    requires st.Removes()
    ensures OnCommand(st.serverHandshake, st.valid, st.files, TheName(st), Obliging()).files == st.LateFiles() != st.files
  {
    hide CommandName, DataName, ByteAt, Number;
    assert st.Late().filename in st.files && st.Late().filename !in st.LateFiles();
  }

  lemma RefusedReaction(st: Setup)
    requires SourceMissing(st)
    ensures OnCommand(st.serverHandshake, st.valid, st.files, TheCommand(st), Obliging())
         == Reaction(Idle, st.files, [Reply(ACK, 1)])
  {
  }

  lemma Refused(st: Setup) returns (worlds: seq<World>, steps: seq<Step>)
    requires SourceMissing(st) && !st.clientHandshake
    ensures Run(st, worlds, steps)
    ensures worlds[|steps|] == World(Done(FILE_NOT_FOUND), Idle, [TheName(st)], [], st.files, false)
  {
    hide CommandName, DataName, ByteAt, Number, OnCommand, AsCommand;
    RefusedReaction(st);
    var c, n, no := TheCommand(st), TheName(st), Reply(ACK, 1);
    assert [c] + [n] == [c, n];
    NothingLost([c, n]);
    NothingLost([no]);
    var w1 := World(AwaitAck, Idle, [c, n], [], st.files, false);
    var w2 := World(AwaitAck, Idle, [n], [no], st.files, false);
    var w3 := World(Done(FILE_NOT_FOUND), Idle, [n], [], st.files, false);
    assert Apply(st, Initial(st), Start(false, false, [])) == w1;
    assert Apply(st, w1, Serve()) == w2;
    steps, worlds := [Start(false, false, [])], [Initial(st), w1];
    RunExtend(st, worlds, steps, Serve(), w2);
    steps, worlds := steps + [Serve()], worlds + [w2];
    RunExtend(st, worlds, steps, ClientReceives(true, false, []), w3);
    steps, worlds := steps + [ClientReceives(true, false, [])], worlds + [w3];
  }

  /** The content of the source is still there, under one of the two names. */
  ghost predicate Survives(st: Setup, files: Files)
    requires st.Source() in st.files
  {
    var content := st.files[st.Source()];
    || (st.Source() in files && files[st.Source()] == content)
    || (st.Target() in files && files[st.Target()] == content)
  }

  /** The new name reads as a command to remove the source. */
  predicate RemovesSource(st: Setup) {
    st.Removes() && st.Late().filename == st.Source()
  }

  lemma SourceSurvives(st: Setup, worlds: seq<World>, steps: seq<Step>, k: nat)
    requires Run(st, worlds, steps) && k < |worlds| && st.Source() in st.files
    ensures st.Source() != st.Target() && !RemovesSource(st) ==> Survives(st, worlds[k].files)
    ensures !st.valid(st.Source()) ==> Survives(st, worlds[k].files)
    ensures !st.NameGoesOut() ==> Survives(st, worlds[k].files)
    ensures RemovesSource(st) && LooksMoved(st) ==> Survives(st, worlds[k].files)
  {
    hide CommandName, DataName, ByteAt, Number, AsCommand;
    OutcomeSound(st, worlds, steps, k);
    if !st.NameGoesOut() {
      NothingHappens(st, worlds, steps, k);
    }
    if st.Removes() {
      VictimIsNoTarget(st);
    }
  }

  /** Without the signal that the client waits for, nothing happens to the store. */
  lemma NothingHappens(st: Setup, worlds: seq<World>, steps: seq<Step>, k: nat)
    requires Run(st, worlds, steps) && k < |worlds| && !st.NameGoesOut() && st.Source() in st.files
    ensures worlds[k].files == st.files
  {
    OutcomeSound(st, worlds, steps, k);
    if st.clientHandshake && !st.serverHandshake {
      NoHandshakeNoRename(st, worlds, steps, k);
    }
  }

  /** The server has asked whether the client's own source may be overwritten. */
  function SelfAsked(st: Setup): World {
    NameSent(st).(server := AwaitConfirm(st.Source(), st.Source()), toServer := [], toClient := [Reply(FILE_EXISTS, 0)])
  }

  /** The client has agreed. */
  function SelfAgreed(st: Setup): World {
    SelfAsked(st).(client := AwaitFinal, toServer := [TheAnswer(true)], toClient := [], consented := true)
  }

  lemma SelfRenameAsks(st: Setup)
    requires st.Source() in st.files && st.valid(st.Source()) && st.Source() == st.Target()
    ensures Enabled(NameSent(st), Serve()) && Apply(st, NameSent(st), Serve()) == SelfAsked(st)
    ensures Enabled(SelfAsked(st), ClientReceives(true, false, []))
    ensures Apply(st, SelfAsked(st), ClientReceives(true, false, [])) == SelfAgreed(st)
  {
    hide CommandName, DataName, ByteAt;
    NothingLost([Reply(FILE_EXISTS, 0)]);
    NothingLost([TheAnswer(true)]);
  }

  /** Renaming a file to itself, with consent: the server deletes the target first, which is the source. */
  lemma SelfRenameLosesSource(st: Setup) returns (worlds: seq<World>, steps: seq<Step>)
    requires st.Source() in st.files && st.valid(st.Source()) && st.Source() == st.Target()
    requires st.clientHandshake ==> st.serverHandshake
    ensures Run(st, worlds, steps) && !Survives(st, worlds[|steps|].files)
  {
    hide CommandName, DataName, ByteAt;
    worlds := Opens(st);
    steps := Opening(st);
    SelfRenameAsks(st);
    RunExtend(st, worlds, steps, Serve(), SelfAsked(st));
    worlds, steps := worlds + [SelfAsked(st)], steps + [Serve()];
    RunExtend(st, worlds, steps, ClientReceives(true, false, []), SelfAgreed(st));
    worlds, steps := worlds + [SelfAgreed(st)], steps + [ClientReceives(true, false, [])];
    var w3 := Apply(st, SelfAgreed(st), Serve());
    RunExtend(st, worlds, steps, Serve(), w3);
    worlds, steps := worlds + [w3], steps + [Serve()];
  }

  /** The source's content can get lost exactly when the two names are the same valid name, or the new name reads as a
      command to remove the source and the target does not hold the same content; and the name can be sent. */
  lemma SourceLossExact(st: Setup)
    requires st.Source() in st.files
    ensures (exists worlds: seq<World>, steps: seq<Step> :: Run(st, worlds, steps) && !Survives(st, worlds[|steps|].files))
       <==> st.NameGoesOut() && ((st.Source() == st.Target() && st.valid(st.Source())) || (RemovesSource(st) && !LooksMoved(st)))
  {
    forall worlds: seq<World>, steps: seq<Step> | Run(st, worlds, steps) && !Survives(st, worlds[|steps|].files)
      ensures st.NameGoesOut()
      ensures (st.Source() == st.Target() && st.valid(st.Source())) || (RemovesSource(st) && !LooksMoved(st))
    {
      SourceSurvives(st, worlds, steps, |steps|);
    }
    if st.NameGoesOut() {
      if st.Source() == st.Target() && st.valid(st.Source()) {
        var worlds, steps := SelfRenameLosesSource(st);
      } else if RemovesSource(st) && !LooksMoved(st) {
        var worlds, steps := LateNameRemoves(st);
        assert !Survives(st, st.LateFiles());
      }
    }
  }

  // ---------- a missing source and the signal ----------

  /** Nothing gets lost in a step, no send fails, and nobody gives up waiting. */
  predicate Smooth(step: Step) {
    match step
    case Start(fails, failsNext, lost) => !fails && !failsNext && lost == []
    case ClientReceives(_, fails, lost) => !fails && lost == []
    case ServerReceives(_, lost) => lost == []
    case ServerTimesOut(_) => false
    case ClientTimesOut => false
  }

  /** The exchange with a client that waits for the signal, after `k` smooth steps. */
  function Refusal(st: Setup, k: nat): World {
    var no := Reply(ACK, 1);
    if k == 0 then Initial(st)
    else if k == 1 then World(AwaitReady, Idle, [TheCommand(st)], [], st.files, false)
    else if k == 2 then World(AwaitReady, Idle, [], [no], st.files, false)
    else World(Done(FILE_NOT_FOUND), Idle, [], [], st.files, false)
  }

  lemma RefusalReaction(st: Setup, os: Os)
    requires SourceMissing(st)
    ensures OnCommand(st.serverHandshake, st.valid, st.files, TheCommand(st), os) == Reaction(Idle, st.files, [Reply(ACK, 1)])
  {
  }

  lemma RefusalStep(st: Setup, k: nat, step: Step)
    requires SourceMissing(st) && st.clientHandshake && Smooth(step) && Enabled(Refusal(st, k), step)
    ensures k < 3 && Apply(st, Refusal(st, k), step) == Refusal(st, k + 1)
  {
    hide CommandName, DataName, ByteAt, Number, OnCommand, AsCommand, Lists;
    NothingLost([TheCommand(st)]);
    NothingLost([Reply(ACK, 1)]);
    NothingLost<Datagram>([]);
    if step.ServerReceives? {
      RefusalReaction(st, step.os);
    }
  }

  /** With a client that waits for the signal and a valid source that does not exist, every run in which nothing is lost goes
      the same way: after three steps the client reports that the file was not found, and nothing can happen any more. */
  lemma {:induction false} MissingSourceReported(st: Setup, worlds: seq<World>, steps: seq<Step>, k: nat)
    requires SourceMissing(st) && st.clientHandshake && Run(st, worlds, steps) && k < |worlds|
    requires forall i | 0 <= i < |steps| :: Smooth(steps[i])
    ensures k <= 3 && worlds[k] == Refusal(st, k) && worlds[k].files == st.files
    ensures worlds[k].client == Done(FILE_NOT_FOUND) <==> k == 3
  {
    hide Apply, Enabled;
    if k > 0 {
      MissingSourceReported(st, worlds, steps, k - 1);
      RefusalStep(st, k - 1, steps[k - 1]);
    }
  }

  /** There is such a run, and no step is left out: until the client is done, a smooth step is always possible. */
  lemma MissingSourceRun(st: Setup) returns (worlds: seq<World>, steps: seq<Step>)
    requires SourceMissing(st) && st.clientHandshake
    ensures Run(st, worlds, steps) && |steps| == 3 && forall i | 0 <= i < |steps| :: Smooth(steps[i])
    ensures worlds[3].client == Done(FILE_NOT_FOUND) && worlds[3].files == st.files
  {
    hide CommandName, DataName, ByteAt, Number, OnCommand, AsCommand;
    steps := [Start(false, false, []), Serve(), ClientReceives(true, false, [])];
    worlds := [Refusal(st, 0), Refusal(st, 1), Refusal(st, 2), Refusal(st, 3)];
    RefusalStep(st, 0, steps[0]);
    RefusalStep(st, 1, steps[1]);
    RefusalStep(st, 2, steps[2]);
  }

  /** Whatever is lost and whoever gives up, such a client never reports anything else but that or its own failure to send or
      to receive, and no file is touched. */
  lemma {:induction false} MissingSourceOutcomes(st: Setup, worlds: seq<World>, steps: seq<Step>, k: nat)
    requires SourceMissing(st) && st.clientHandshake && Run(st, worlds, steps) && k < |worlds|
    ensures var w := worlds[k];
            && w.files == st.files
            && (w.client.Done? ==> w.client.outcome in {FILE_NOT_FOUND, TIMEOUT, SOCKET_SEND_ERROR})
  {
    RefusingRun(st, worlds, steps, k);
  }

  ghost predicate Refusing(st: Setup, w: World) {
    && w.files == st.files && w.server.Idle? && (w.toServer == [] || Just(w.toServer, TheCommand(st)))
    && (forall c <- w.toClient :: c == Reply(ACK, 1))
    && (w.client.Fresh? || w.client.AwaitReady?
        || (w.client.Done? && w.client.outcome in {FILE_NOT_FOUND, TIMEOUT, SOCKET_SEND_ERROR}))
    && (w.client.Fresh? ==> w.toServer == [])
  }

  lemma {:induction false} RefusingRun(st: Setup, worlds: seq<World>, steps: seq<Step>, k: nat)
    requires SourceMissing(st) && st.clientHandshake && Run(st, worlds, steps) && k < |worlds|
    ensures Refusing(st, worlds[k])
  {
    hide Apply, Enabled, Refusing;
    if k == 0 {
      RefusingStart(st);
    } else {
      RefusingRun(st, worlds, steps, k - 1);
      if steps[k - 1].ServerReceives? || steps[k - 1].ServerTimesOut? {
        RefusingServer(st, worlds[k - 1], steps[k - 1]);
      } else {
        RefusingClient(st, worlds[k - 1], steps[k - 1]);
      }
    }
  }

  lemma RefusingStart(st: Setup)
    ensures Refusing(st, Initial(st))
  {
  }

  lemma RefusingClient(st: Setup, w: World, step: Step)
    requires SourceMissing(st) && st.clientHandshake && Refusing(st, w) && Enabled(w, step)
    requires step.Start? || step.ClientReceives? || step.ClientTimesOut?
    ensures Refusing(st, Apply(st, w, step))
  {
    hide CommandName, DataName, ByteAt, Number, OnCommand, AsCommand, Lists, SourceMissing;
    match step
    case Start(_, _, lost) =>
      CarriedOne(TheCommand(st), lost);
      CarriedNone<Datagram>(lost);
      assert [TheCommand(st)] + [] == [TheCommand(st)];
      OneDatagram(w.toServer, StartRename(true, st.oldName, st.newName, step.fails, step.failsNext).sent, lost);
    case ClientReceives(_, _, lost) =>
      assert w.toClient[0] in w.toClient && forall c <- w.toClient[1..] :: c in w.toClient;
      CarriedNone<Datagram>(lost);
      assert w.toServer + [] == w.toServer;
    case ClientTimesOut =>
  }

  lemma RefusingServer(st: Setup, w: World, step: Step)
    requires SourceMissing(st) && st.clientHandshake && Refusing(st, w) && Enabled(w, step)
    requires step.ServerReceives? || step.ServerTimesOut?
    ensures Refusing(st, Apply(st, w, step))
  {
    hide CommandName, DataName, ByteAt, Number, OnCommand, AsCommand, Lists;
    if step.ServerReceives? {
      RefusalReaction(st, step.os);
      OneReply(w.toClient, [Reply(ACK, 1)], step.lost);
    }
  }
}
