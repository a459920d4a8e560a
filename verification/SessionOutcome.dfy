/** Without failures from outside, when a daemon session succeeds, exactly: the two sides' wishes, the module and the transfer decide. */
module SessionOutcome {
  import opened Prelude
  import opened FileSystem
  import opened Entries
  import opened Receiver
  import opened SyncRun
  import LocalSync
  import opened Lockstep
  import opened Daemon
  import opened Sessions
  import Interleavings
  import SessionEnds

  // ---- The conditions ----

  function UserName(ss: Session): string {
    if ss.user == "" then "nobody" else ss.user
  }

  /** The module asks for no password, or the client's user name and password answer the challenge as an allowed user's secret would. */
  ghost predicate Authorised(ss: Session, m: Module) {
    m.AuthRequired() ==>
      ss.password.Some? && exists user ::
        && user in m.authUsers && ' ' !in user && m.secrets.Some? && user in m.secrets.value
        && UserName(ss) + " " + ss.hash(ss.password.value, ss.challenge) == user + " " + ss.hash(m.secrets.value[user], ss.challenge)
  }

  /** The module exists, lets the client in, may be written to by a Put, and has rules that compile for a Get. */
  ghost predicate Permitted(ss: Session) {
    && ss.name in ss.modules
    && Authorised(ss, ss.modules[ss.name])
    && (ss.direction == Put ==> !ss.modules[ss.name].readOnly)
    && (ss.direction == Get ==> ss.modules[ss.name].rulesOk)
  }

  ghost predicate Succeeds(ss: Session) {
    Permitted(ss) && Run(Agreed(ss).job, Agreed(ss).start).Ok?
  }

  /** A client that is an allowed user and has that user's secret is let in; with a hash that tells secrets apart, no other is. */
  lemma AuthorisedIff(ss: Session, m: Module)
    requires ' ' !in UserName(ss)
    ensures var user := UserName(ss);
      m.AuthRequired() && user in m.authUsers && m.secrets.Some? && user in m.secrets.value && ss.password == Some(m.secrets.value[user]) ==> Authorised(ss, m)
    ensures var user := UserName(ss);
      Authorised(ss, m) && m.AuthRequired() && (forall a, b :: ss.hash(a, ss.challenge) == ss.hash(b, ss.challenge) ==> a == b) ==>
        user in m.authUsers && m.secrets.Some? && user in m.secrets.value && ss.password == Some(m.secrets.value[user])
  {
    if Authorised(ss, m) && m.AuthRequired() {
      var user :| && user in m.authUsers && ' ' !in user && m.secrets.Some? && user in m.secrets.value
        && UserName(ss) + " " + ss.hash(ss.password.value, ss.challenge) == user + " " + ss.hash(m.secrets.value[user], ss.challenge);
      CutOfJoin(UserName(ss), ss.hash(ss.password.value, ss.challenge));
      CutOfJoin(user, ss.hash(m.secrets.value[user], ss.challenge));
    }
  }

  /** The line DialAuth writes after a challenge. */
  function ResponseLine(ss: Session): string
    requires ss.password.Some?
  {
    UserName(ss) + " " + ss.hash(ss.password.value, ss.challenge)
  }

  /** What the client answers is what the server accepts, exactly for an authorised client. */
  lemma ResponseIsAccepted(ss: Session, m: Module)
    requires ss.password.Some? && m.AuthRequired()
    ensures CheckAuth(ss, m, ResponseLine(ss)).Some? <==> Authorised(ss, m)
  {
    var line := ResponseLine(ss);
    if CheckAuth(ss, m, line).Some? {
      AuthIffSecretIsKnown(ss, m, line, CheckAuth(ss, m, line).value);
    }
    if Authorised(ss, m) {
      var user :| && user in m.authUsers && ' ' !in user && m.secrets.Some? && user in m.secrets.value
        && UserName(ss) + " " + ss.hash(ss.password.value, ss.challenge) == user + " " + ss.hash(m.secrets.value[user], ss.challenge);
      AuthIffSecretIsKnown(ss, m, line, user);
    }
  }

  /** To a challenge the client with a password responds so. */
  lemma ChallengeIsAnswered(ss: Session)
    ensures ClientOnLine(ss, AwaitAuth, AUTHREQD + ss.challenge) == if ss.password.None? then GAVE_UP else Respond(ResponseLine(ss))
    ensures ClientOnLine(ss, AwaitAuth, OK) == SayDirection
  {
    assert (AUTHREQD + ss.challenge)[|AUTHREQD|..] == ss.challenge;
    assert AUTHREQD[9] == 'A' && OK[9] == 'O';
  }

  // ---- How far the server has let the client ----

  ghost predicate IsModule(ss: Session, m: Module) {
    ss.name in ss.modules && m == ss.modules[ss.name]
  }

  /** What the server's position says of the module and the client. */
  ghost predicate LetIn(ss: Session, s: ServerPc) {
    match s
    case StartAuth(m) => IsModule(ss, m)
    case WantResponse(m) => IsModule(ss, m) && m.AuthRequired()
    case Accept(m, _) => IsModule(ss, m) && Authorised(ss, m)
    case WantDirection(m, _) => IsModule(ss, m) && Authorised(ss, m)
    case Acknowledge(m, _, dir, _) => IsModule(ss, m) && Authorised(ss, m) && dir == ss.direction && (dir == Put ==> !m.readOnly)
    case Serving(m, _, out) => IsModule(ss, m) && Authorised(ss, m) && ss.direction == Get && (out != SendList ==> m.rulesOk)
    case WantDone(m, _) => IsModule(ss, m) && Authorised(ss, m) && ss.direction == Get && m.rulesOk
    case Storing(m, _, _, _) => IsModule(ss, m) && Authorised(ss, m) && ss.direction == Put && !m.readOnly
    case SayDone(m, _, _, _) => IsModule(ss, m) && Authorised(ss, m) && ss.direction == Put && !m.readOnly
    case Listing(_) => false
    case Refuse(line) => !(AUTHREQD <= line)
    case ServerStopped(ok, _) => ok ==> Permitted(ss)
    case _ => true
  }

  /** No line but the challenge looks like one. */
  predicate OnlyChallenge(ss: Session, item: Item) {
    item.Text? && AUTHREQD <= item.line ==> item.line == AUTHREQD + ss.challenge
  }

  /** The only answer that is given or on its way is the right one. */
  predicate Answers(ss: Session, n: Net) {
    && (n.c.Respond? ==> ss.password.Some? && n.c.line == ResponseLine(ss))
    && (n.s.WantResponse? && n.toServer != [] ==> ss.password.Some? && n.toServer == [Text(ResponseLine(ss))])
    && (forall i :: 0 <= i < |n.toClient| ==> OnlyChallenge(ss, n.toClient[i]))
  }

  ghost predicate Gates(ss: Session, n: Net) {
    LetIn(ss, n.s) && Answers(ss, n)
  }

  lemma GatesAtStart(ss: Session)
    ensures Gates(ss, Dialled())
  {
  }

  /** The first item the server finds, by where it is. */
  lemma ServerFinds(ss: Session, n: Net)
    requires SessionInv(ss, n) && !n.s.ServerStopped? && n.toServer != []
    ensures n.s.WantModule? ==> n.toServer[0] == Text(ss.name)
    ensures n.s.WantDirection? ==> n.toServer[0] == Text(DirectionLine(ss))
  {
    hide Exchange, Download, Upload;
    if !ClientFailed(n) && !Opening(ss, n) {
      ExchangePcs(ss, n);
    }
  }

  lemma ExchangePcs(ss: Session, n: Net)
    requires Exchange(ss, n)
    ensures n.s.Serving? || n.s.WantDone? || n.s.Storing? || n.s.SayDone? || n.s.ServerStopped?
  {
    hide Download, Upload, Sessions.Complete, Finishing;
  }

  lemma ServerLetsIn(ss: Session, n: Net)
    requires Dials(ss) && SessionInv(ss, n) && Gates(ss, n) && ServerStep(ss, n).Some?
    ensures LetIn(ss, ServerStep(ss, n).value.s)
  {
    hide SessionInv, CheckAuth, ParseGreeting, Authorised, OutgoingGot, OutgoingNext, IncomingGot, IncomingNext, OutgoingKind, IncomingKind, Fields, DirectionLine, ForServer, ResponseLine;
    DirectionIsRead(ss);
    if n.s.WantResponse? && ss.password.Some? {
      ResponseIsAccepted(ss, n.s.m);
    }
    if !n.s.ServerStopped? && n.toServer != [] {
      ServerFinds(ss, n);
      if n.toServer[0].Text? {
        RefusalIsNoChallenge(ss, n.s, n.toServer[0].line);
      }
    }
    if n.s.Serving? {
      NeverBack(ss, n.s.out);
    }
    if n.s.StartAuth? && !n.s.m.AuthRequired() {
      assert Authorised(ss, n.s.m) by {
        OpenToAll(ss, n.s.m);
      }
    }
  }

  lemma RefusalIsNoChallenge(ss: Session, s: ServerPc, line: string)
    ensures ServerOnLine(ss, s, line).Refuse? && !s.Refuse? ==> !(AUTHREQD <= ServerOnLine(ss, s, line).line)
  {
    hide CheckAuth, Fields, ParseGreeting;
    assert AUTHREQD[1] == 'R';
    if ServerOnLine(ss, s, line).Refuse? && !s.Refuse? {
      assert ServerOnLine(ss, s, line).line[1] == 'E';
    }
  }

  lemma OpenToAll(ss: Session, m: Module)
    requires !m.AuthRequired()
    ensures Authorised(ss, m)
  {
  }

  lemma NeverBack(ss: Session, out: Outgoing)
    ensures OutgoingNext(ss.setup, out) != SendList
  {
  }

  // ---- Every step keeps the gates ----

  lemma WritesOnlyChallenge(ss: Session, s: ServerPc)
    requires LetIn(ss, s) && ServerKind(ss, s).Writes?
    ensures OnlyChallenge(ss, ServerKind(ss, s).item)
  {
    hide Authorised, OutgoingKind, IncomingKind, ForServer;
    assert AUTHREQD[9] == 'A' && OK[9] == 'O' && GREETING[9] == '3' && DONE[1] == 'G' && AUTHREQD[1] == 'R';
    if s.Serving? && s.m.rulesOk && !s.out.Sent? {
      PacketsOut(ss.setup, s.out);
    }
    if s.Storing? && !s.into.Received? {
      PacketsIn(ForServer(ss, s.dry), s.into);
    }
  }

  lemma PacketsOut(t: LocalSync.Setup, out: Outgoing)
    ensures OutgoingKind(t, out).Writes? ==> OutgoingKind(t, out).item.Packet?
  {
  }

  lemma PacketsIn(t: LocalSync.Setup, into: Incoming)
    ensures IncomingKind(t, into).Writes? ==> IncomingKind(t, into).item.Packet?
  {
  }

  lemma NobodyAnswersYet(ss: Session, n: Net)
    requires SessionInv(ss, n) && n.s.StartAuth?
    ensures n.toServer == []
  {
    hide Exchange;
    if !ClientFailed(n) && !ServerFailed(n) && !Opening(ss, n) {
      ExchangePcs(ss, n);
    }
  }

  /** A server's step: its new position, and the two buffers. */
  lemma ServerMoves(ss: Session, n: Net)
    requires ServerStep(ss, n).Some?
    ensures var next := ServerStep(ss, n).value;
      && next.c == n.c
      && (next.toServer == n.toServer || (n.toServer != [] && next.toServer == n.toServer[1..]))
      && (next.toClient == n.toClient || (ServerKind(ss, n.s).Writes? && next.toClient == n.toClient + [ServerKind(ss, n.s).item]))
      && (next.s.WantResponse? ==> n.s.StartAuth? && next.toServer == n.toServer)
  {
    hide ParseGreeting, CheckAuth, Fields, OutgoingGot, OutgoingNext, IncomingGot, IncomingNext, OutgoingKind, IncomingKind, ForServer;
  }

  lemma ServerKeepsGates(ss: Session, n: Net)
    requires Dials(ss) && SessionInv(ss, n) && Gates(ss, n) && ServerStep(ss, n).Some?
    ensures Gates(ss, ServerStep(ss, n).value)
  {
    ServerLetsIn(ss, n);
    ServerMoves(ss, n);
    if n.s.StartAuth? {
      NobodyAnswersYet(ss, n);
    }
    hide SessionInv, LetIn, ServerStep, OnlyChallenge, ResponseLine;
    if ServerKind(ss, n.s).Writes? {
      WritesOnlyChallenge(ss, n.s);
    }
    hide ServerKind;
  }

  /** A client's step: only Respond writes while the server waits for a response, and only a challenge leads to it. */
  lemma ClientMoves(ss: Session, n: Net)
    requires ClientStep(ss, n).Some?
    ensures var next := ClientStep(ss, n).value;
      && next.s == n.s
      && (next.toClient == n.toClient || (n.toClient != [] && next.toClient == n.toClient[1..]))
      && (next.toServer == n.toServer || (ClientKind(ss, n.c).Writes? && next.toServer == n.toServer + [ClientKind(ss, n.c).item]))
      && (next.c.Respond? ==> n.c.AwaitAuth? && n.toClient != [] && n.toClient[0].Text? && AUTHREQD <= n.toClient[0].line
                              && next.c == ClientOnLine(ss, AwaitAuth, n.toClient[0].line))
  {
    hide ParseGreeting, OutgoingGot, OutgoingNext, IncomingGot, IncomingNext, OutgoingKind, IncomingKind, Agreed, DirectionLine;
  }

  /** While the server waits for a response the client has nothing else to write. */
  lemma OnlyResponds(ss: Session, n: Net)
    requires SessionInv(ss, n) && n.s.WantResponse? && ClientKind(ss, n.c).Writes?
    ensures n.c.Respond? && n.toServer == [] && ClientKind(ss, n.c).item == Text(n.c.line)
  {
    hide Exchange, ServerGone, ClientGone;
    if !ClientFailed(n) && !ServerFailed(n) && !Opening(ss, n) {
      ExchangePcs(ss, n);
    }
  }

  lemma ClientKeepsGates(ss: Session, n: Net)
    requires SessionInv(ss, n) && Gates(ss, n) && ClientStep(ss, n).Some?
    ensures Gates(ss, ClientStep(ss, n).value)
  {
    ClientMoves(ss, n);
    ChallengeIsAnswered(ss);
    if n.s.WantResponse? && ClientKind(ss, n.c).Writes? {
      OnlyResponds(ss, n);
    }
    hide SessionInv, LetIn, ClientStep, ClientKind, ClientOnLine;
  }

  lemma BreakKeepsGates(ss: Session, n: Net, turn: Turn)
    requires Gates(ss, n) && (turn == BreakClient || turn == BreakServer)
    ensures Gates(ss, Advance(ss, n, turn))
  {
  }

  /** In every session, with any failures, the server lets in only whom it should. */
  lemma {:induction false} EverySessionGated(ss: Session, turns: seq<Turn>)
    requires Dials(ss)
    ensures Gates(ss, Converse(ss, turns))
  {
    hide SessionInv, Gates, ServerStep, ClientStep, Dials;
    if turns == [] {
      GatesAtStart(ss);
    } else {
      var n := Converse(ss, turns[..|turns| - 1]);
      EverySessionGated(ss, turns[..|turns| - 1]);
      EverySession(ss, turns[..|turns| - 1]);
      match turns[|turns| - 1] {
        case RunClient => if ClientStep(ss, n).Some? { ClientKeepsGates(ss, n); }
        case RunServer => if ServerStep(ss, n).Some? { ServerKeepsGates(ss, n); }
        case BreakClient => BreakKeepsGates(ss, n, BreakClient);
        case BreakServer => BreakKeepsGates(ss, n, BreakServer);
      }
    }
  }

  // ---- A transfer that succeeds never stops either side ----

  lemma HandlingGoesOn(t: LocalSync.Setup, into: Incoming)
    requires Stands(t, into) && into.Handling? && Run(t.job, t.start).Ok?
    ensures IncomingNext(t, into).Some?
  {
    if into.k < LocalSync.N(t) {
      Interleavings.AllSucceed(t, into.k + 1);
      hide Run, ReceiveLocal, Prepare, Reply, TakeDelta, Transfers;
    } else {
      hide After, Passes, ReceiveLocal, Prepare, Transfers;
    }
  }

  lemma QuestionIsAnswered(t: LocalSync.Setup, k: nat, plan: Plan)
    requires Planned(t, k, plan) && Run(t.job, t.start).Ok?
    ensures k < LocalSync.N(t) && Answer(t, k, plan).Ok? && After(t.job, t.start, k + 1).Ok?
  {
    hide Run, Prepare, Transfers, Reply, After;
    Interleavings.AllSucceed(t, k);
    Interleavings.AllSucceed(t, k + 1);
    Interleavings.PartsSucceed(t, k, plan);
  }

  lemma OutgoingGoesOn(t: LocalSync.Setup, out: Outgoing, into: Incoming, toR: seq<Item>, toX: seq<Item>)
    requires Talking(t, out, into, toR, toX) && Stands(t, into) && Run(t.job, t.start).Ok?
    requires toX != [] && OutgoingKind(t, out) == ReadsFrame
    ensures toX[0].Packet? && OutgoingGot(t, out, toX[0].msg).Some?
  {
    hide Run, After, Transfers, Reply, Prepare, NextTransfer, Reached;
    if into.WantDelta? {
      QuestionIsAnswered(t, into.k, into.plan);
    }
  }

  lemma IncomingGoesOn(t: LocalSync.Setup, out: Outgoing, into: Incoming, toR: seq<Item>, toX: seq<Item>)
    requires Talking(t, out, into, toR, toX) && Stands(t, into) && Run(t.job, t.start).Ok? && toR != []
    ensures toR[0].Packet? && IncomingGot(t, into, toR[0].msg).Some?
  {
    hide Run, After, Transfers, Reply, Prepare, NextTransfer, TakeDelta, Reached;
    if into.WantDelta? {
      QuestionIsAnswered(t, into.k, into.plan);
      TransferAdvances(t, into.k, into.plan);
    }
  }

  // ---- Nobody fails ----

  predicate Alive(n: Net) {
    !ClientFailed(n) && !ServerFailed(n) && !n.s.Refuse?
  }

  lemma OpeningServerLives(ss: Session, n: Net)
    requires Dials(ss) && Opening(ss, n) && Gates(ss, n) && Permitted(ss) && !n.s.Refuse? && ServerStep(ss, n).Some?
    ensures Alive(ServerStep(ss, n).value)
  {
    hide ParseGreeting, CheckAuth, Fields, Authorised, DirectionLine, ResponseLine;
    OwnGreetingIsAccepted();
    DirectionIsRead(ss);
    if n.s.WantResponse? && ss.password.Some? {
      ResponseIsAccepted(ss, n.s.m);
    }
  }

  lemma OpeningClientLives(ss: Session, n: Net)
    requires Opening(ss, n) && Gates(ss, n) && Permitted(ss) && !n.s.Refuse? && ClientStep(ss, n).Some?
    ensures Alive(ClientStep(ss, n).value)
  {
    hide ParseGreeting, Authorised, DirectionLine, ResponseLine;
    OwnGreetingIsAccepted();
    ChallengeIsAnswered(ss);
    if n.s.WantResponse? {
      NeedsPassword(ss, n.s.m);
    }
  }

  lemma NeedsPassword(ss: Session, m: Module)
    requires Authorised(ss, m) && m.AuthRequired()
    ensures ss.password.Some?
  {
  }

  lemma ServingLives(ss: Session, n: Net)
    requires n.s.Serving? && Exchange(ss, n) && Gates(ss, n) && Succeeds(ss) && ServerStep(ss, n).Some?
    ensures Alive(ServerStep(ss, n).value)
  {
    var out := n.s.out;
    assert n.s.m.rulesOk && Agreed(ss) == ss.setup;
    assert Download(ss, out, n.c, n.toServer, n.toClient);
    ExchangeIsLive(ss, n);
    hide Gates, Succeeds, Run, Talking, Stands, Sessions.Complete, HeadsFor, OutgoingKind, OutgoingGot, OutgoingNext;
    if !out.Sent? && OutgoingKind(ss.setup, out).Writes? {
      DownloadWrites(ss, out, n.c, n.toServer, n.toClient);
    } else if !out.Sent? && OutgoingKind(ss.setup, out) == ReadsFrame {
      if n.toServer != [] {
        DownloadReads(ss, out, n.c, n.toServer, n.toClient);
        match n.c {
          case AwaitAck => OutgoingGoesOn(ss.setup, out, WantList, n.toClient[1..], n.toServer);
          case Downloading(into) => OutgoingGoesOn(ss.setup, out, into, n.toClient, n.toServer);
          case _ => HeadsNeverWrites(ss.setup, out, LocalSync.N(ss.setup));
        }
      } else if n.c.ClientStopped? {
        HeadsNeverWrites(ss.setup, out, LocalSync.N(ss.setup));
      }
    }
    KindOfOutgoing(ss.setup, out);
  }

  lemma WantDoneLives(ss: Session, n: Net)
    requires n.s.WantDone? && Exchange(ss, n) && ServerStep(ss, n).Some?
    ensures Alive(ServerStep(ss, n).value)
  {
    ExchangeIsLive(ss, n);
    NothingLeftToRead(ss, n.c, n.toServer, n.toClient);
    ConfirmedAtTheEnd(ss, n.c, n.toServer, n.toClient);
    hide Download, Sessions.Complete;
  }

  lemma ConfirmedAtTheEnd(ss: Session, c: ClientPc, toServer: seq<Item>, toClient: seq<Item>)
    requires Download(ss, Sent, c, toServer, toClient) && c.ClientStopped?
    ensures toServer == [Text(DONE)]
  {
    hide Sessions.Complete;
  }

  lemma StoringLives(ss: Session, n: Net)
    requires n.s.Storing? && Exchange(ss, n) && Run(Agreed(ss).job, Agreed(ss).start).Ok? && ServerStep(ss, n).Some?
    ensures Alive(ServerStep(ss, n).value)
  {
    var into := n.s.into;
    ExchangeIsLive(ss, n);
    StoringNever(ss, n);
    assert Upload(ss, into, n.c, n.toServer, n.toClient) && ForServer(ss, n.s.dry) == Agreed(ss);
    assert Stands(Agreed(ss), into) && !n.c.ClientStopped?;
    WritingSucceeds(Agreed(ss), into);
    hide Exchange, SessionInv, Run, Talking, Stands, Sessions.Complete, IncomingKind, IncomingGot, IncomingNext, Agreed, ForServer;
    if !into.Received? && IncomingKind(Agreed(ss), into) == Works {
      WorksIsHandling(Agreed(ss), into);
      HandlingGoesOn(Agreed(ss), into);
    } else if !into.Received? && n.toServer != [] {
      match n.c {
        case Uploading(out) => IncomingGoesOn(Agreed(ss), out, into, n.toServer, n.toClient);
        case AwaitDone => IncomingGoesOn(Agreed(ss), Sent, into, n.toServer, n.toClient);
        case _ =>
      }
    }
    KindOfIncoming(Agreed(ss), into);
  }

  lemma KindOfIncoming(t: LocalSync.Setup, into: Incoming)
    ensures IncomingKind(t, into) == Works || IncomingKind(t, into).Writes? || IncomingKind(t, into) == ReadsFrame || IncomingKind(t, into).Rests?
  {
  }

  lemma SayDoneLives(ss: Session, n: Net)
    requires n.s.SayDone? && Exchange(ss, n) && ServerStep(ss, n).Some?
    ensures Alive(ServerStep(ss, n).value)
  {
    hide Sessions.Complete, HeadsFor, Agreed;
  }

  lemma ServerLives(ss: Session, n: Net)
    requires Dials(ss) && SessionInv(ss, n) && Gates(ss, n) && Succeeds(ss) && Alive(n) && ServerStep(ss, n).Some?
    ensures Alive(ServerStep(ss, n).value)
  {
    hide Opening, Exchange, Gates, Dials, Run, Permitted;
    if Opening(ss, n) {
      hide ServerStep;
      OpeningServerLives(ss, n);
    } else {
      ExchangePcs(ss, n);
      StoppedRests(ss, n);
      hide ServerStep;
      if n.s.Serving? {
        hide Succeeds;
        ServingLives(ss, n);
      } else if n.s.WantDone? {
        WantDoneLives(ss, n);
      } else if n.s.Storing? {
        StoringLives(ss, n);
      } else {
        SayDoneLives(ss, n);
      }
    }
  }

  lemma DownloadingLives(ss: Session, n: Net)
    requires (n.s.Serving? || n.s.WantDone?) && Exchange(ss, n) && n.c.Downloading? && Run(Agreed(ss).job, Agreed(ss).start).Ok? && ClientStep(ss, n).Some?
    ensures Alive(ClientStep(ss, n).value)
  {
    var into := n.c.into;
    assert Download(ss, ServedFrom(n.s), n.c, n.toServer, n.toClient) && ss.direction == Get;
    assert Agreed(ss) == ss.setup && Stands(ss.setup, into) && Talking(ss.setup, ServedFrom(n.s), into, n.toClient, n.toServer);
    WritingSucceeds(ss.setup, into);
    hide Exchange, Download, Run, Talking, Stands, Sessions.Complete, IncomingKind, IncomingGot, IncomingNext, Agreed;
    if !into.Received? && IncomingKind(ss.setup, into) == Works {
      WorksIsHandling(ss.setup, into);
      HandlingGoesOn(ss.setup, into);
    } else if !into.Received? && n.toClient != [] {
      IncomingGoesOn(ss.setup, ServedFrom(n.s), into, n.toClient, n.toServer);
    }
    KindOfIncoming(ss.setup, into);
  }

  lemma UploadingLives(ss: Session, n: Net)
    requires n.s.Storing? && Exchange(ss, n) && n.c.Uploading? && Run(Agreed(ss).job, Agreed(ss).start).Ok? && ClientStep(ss, n).Some?
    ensures Alive(ClientStep(ss, n).value)
  {
    var out := n.c.out;
    assert Upload(ss, n.s.into, n.c, n.toServer, n.toClient);
    assert Stands(Agreed(ss), n.s.into) && Talking(Agreed(ss), out, n.s.into, n.toServer, n.toClient);
    hide Exchange, Upload, Run, Talking, Stands, Sessions.Complete, OutgoingKind, OutgoingGot, OutgoingNext, Agreed;
    if !out.Sent? && OutgoingKind(Agreed(ss), out) == ReadsFrame && n.toClient != [] {
      OutgoingGoesOn(Agreed(ss), out, n.s.into, n.toServer, n.toClient);
    }
    KindOfOutgoing(Agreed(ss), out);
  }

  /** The client's other steps: the acknowledgement, the confirmation, and whatever is left once the server is done. */
  lemma EdgesLive(ss: Session, n: Net)
    requires Exchange(ss, n) && ClientStep(ss, n).Some? && !n.c.Downloading? && !(n.s.Storing? && n.c.Uploading?)
    ensures Alive(ClientStep(ss, n).value)
  {
    ExchangeIsLive(ss, n);
    if n.c.Uploading? {
      FinishingWorks(ss, n);
    }
    hide Talking, Stands, Sessions.Complete, HeadsFor, OutgoingKind, OutgoingGot, OutgoingNext, Agreed;
  }

  lemma FinishingWorks(ss: Session, n: Net)
    requires Exchange(ss, n) && n.c.Uploading? && !n.s.Storing?
    ensures n.c.out.Sent? || OutgoingKind(Agreed(ss), n.c.out) == Works
  {
    assert HeadsFor(Agreed(ss), n.c.out, LocalSync.N(Agreed(ss))) by {
      hide HeadsFor, Sessions.Complete, Talking, Stands;
    }
    HeadsNeverWrites(Agreed(ss), n.c.out, LocalSync.N(Agreed(ss)));
    hide HeadsFor, OutgoingKind, Exchange;
  }

  lemma ClientLives(ss: Session, n: Net)
    requires SessionInv(ss, n) && Gates(ss, n) && Succeeds(ss) && Alive(n) && ClientStep(ss, n).Some?
    ensures Alive(ClientStep(ss, n).value)
  {
    hide Opening, Exchange, Gates, Run, Permitted, ClientStep;
    if Opening(ss, n) {
      OpeningClientLives(ss, n);
    } else if n.c.Downloading? {
      DownloadedFrom(ss, n);
      DownloadingLives(ss, n);
    } else if n.s.Storing? && n.c.Uploading? {
      UploadingLives(ss, n);
    } else {
      EdgesLive(ss, n);
    }
  }

  lemma DownloadedFrom(ss: Session, n: Net)
    requires Exchange(ss, n) && n.c.Downloading?
    ensures n.s.Serving? || n.s.WantDone?
  {
    hide Talking, Stands, Sessions.Complete, HeadsFor;
  }

  // ---- The outcome ----

  predicate Unbroken(turns: seq<Turn>) {
    forall i :: 0 <= i < |turns| ==> turns[i] == RunClient || turns[i] == RunServer
  }

  lemma {:induction false} SuccessLives(ss: Session, turns: seq<Turn>)
    requires Dials(ss) && Succeeds(ss) && Unbroken(turns)
    ensures Alive(Converse(ss, turns))
  {
    hide Dials, Succeeds, Alive, SessionInv, Gates, ServerStep, ClientStep;
    if turns == [] {
      assert Alive(Dialled()) by {
        StartsAlive();
      }
    } else {
      var before := turns[..|turns| - 1];
      var n := Converse(ss, before);
      SuccessLives(ss, before);
      EverySession(ss, before);
      EverySessionGated(ss, before);
      if turns[|turns| - 1] == RunClient {
        if ClientStep(ss, n).Some? {
          ClientLives(ss, n);
        }
      } else if ServerStep(ss, n).Some? {
        ServerLives(ss, n);
      }
    }
  }

  lemma StartsAlive()
    ensures Alive(Dialled())
  {
  }

  predicate BothOk(n: Net) {
    n.c.ClientStopped? && n.c.ok && n.s.ServerStopped? && n.s.ok
  }

  /** A session in which both sides returned nil was permitted, and its transfer succeeded - whatever failed on the way. */
  lemma SuccessIsDeserved(ss: Session, turns: seq<Turn>)
    requires Dials(ss) && BothOk(Converse(ss, turns))
    ensures Succeeds(ss)
  {
    hide Dials, Run, Permitted, Converse;
    EverySessionGated(ss, turns);
    if ss.direction == Put {
      PutClientWaitsForServer(ss, turns);
    } else {
      GetIsComplete(ss, turns);
    }
  }

  /**
   * Without failures from outside, every session that ends comes out the same,
   * whatever the interleaving and the buffers: both sides return nil exactly
   * when the module exists, lets the client in and allows the direction, and
   * the transfer succeeds.
   */
  lemma SessionSucceedsIff(ss: Session, turns: seq<Turn>)
    requires Dials(ss) && Unbroken(turns) && SessionEnds.BothStopped(Converse(ss, turns))
    ensures BothOk(Converse(ss, turns)) <==> Succeeds(ss)
  {
    hide Dials, Succeeds, Converse;
    if Succeeds(ss) {
      SuccessLives(ss, turns);
    }
    if BothOk(Converse(ss, turns)) {
      SuccessIsDeserved(ss, turns);
    }
  }

  lemma {:induction false} CompletionIsUnbroken(ss: Session, n: Net)
    requires Dials(ss) && 1 <= ss.capacity && SessionInv(ss, n)
    ensures Unbroken(SessionEnds.Completion(ss, n, _ => RunClient))
    decreases SessionEnds.Left(ss, n)
  {
    hide Dials, SessionInv, ServerStep, ClientStep, SessionEnds.Left;
    if !SessionEnds.BothStopped(n) {
      SessionEnds.EffectiveDescends(ss, n, RunClient);
      CompletionIsUnbroken(ss, Advance(ss, n, SessionEnds.Effective(ss, n, RunClient)));
    }
  }

  /** And such a session exists: a permitted transfer that succeeds can be carried out to the end. */
  lemma PermittedSessionSucceeds(ss: Session) returns (turns: seq<Turn>)
    requires Dials(ss) && 1 <= ss.capacity && Succeeds(ss)
    ensures Unbroken(turns) && BothOk(Converse(ss, turns))
  {
    hide Dials, Succeeds, Converse, SessionInv;
    turns := SessionEnds.EverySessionEnds(ss, [], _ => RunClient);
    assert [] + turns == turns;
    CompletionIsUnbroken(ss, Converse(ss, []));
    SessionSucceedsIff(ss, turns);
  }
}
