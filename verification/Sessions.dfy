/** An honest client and the server, over every interleaving, buffer size and failure. */
module Sessions {
  import opened Prelude
  import opened FileSystem
  import opened Entries
  import opened Receiver
  import opened SyncRun
  import opened LocalSync
  import opened Lockstep
  import opened Daemon

  // ---- The transfer inside a session ----

  /** The receiving side is at a point of the sequential run. */
  predicate Stands(t: Setup, into: Incoming) {
    match into
    case WantList => true
    case Handling(k, st) => Reached(t, k, st)
    case SendSignature(k, st, plan) => Reached(t, k, st) && Planned(t, k, plan)
    case WantDelta(k, st, plan) => Asked(t, k, st, plan)
    case Received(st) => Complete(t, st)
  }

  predicate Complete(t: Setup, st: State) {
    Run(t.job, t.start).Ok? && Run(t.job, t.start).value.st == st
  }

  /** The sending side is on its way to the question about entry j, or to its end. */
  predicate HeadsFor(t: Setup, out: Outgoing, j: nat) {
    match out
    case Look(i) => i <= N(t) && NextTransfer(t, i) == j
    case WantSignature(i) => i < N(t) && i == j == NextTransfer(t, i)
    case Sent => j == N(t)
    case _ => false
  }

  /** What is in flight between the two sides of the transfer: toR towards the receiving one, toX towards the sending one. */
  predicate Talking(t: Setup, out: Outgoing, into: Incoming, toR: seq<Item>, toX: seq<Item>) {
    match into
    case WantList =>
      toX == [] && ((out == SendList && toR == []) || (toR == [Packet(FileListMsg(t.job.list))] && HeadsFor(t, out, NextTransfer(t, 0))))
    case Handling(k, _) => toX == [] && toR == [] && k <= N(t) && HeadsFor(t, out, NextTransfer(t, k))
    case SendSignature(k, _, _) => toX == [] && toR == [] && k < N(t) && HeadsFor(t, out, k)
    case WantDelta(k, _, plan) =>
      && k < N(t)
      && if toX != [] then toX == [Packet(Question(t, k, plan))] && toR == [] && HeadsFor(t, out, k)
         else if toR != [] then Answer(t, k, plan).Ok? && toR == [Packet(Answer(t, k, plan).value)] && HeadsFor(t, out, NextTransfer(t, k + 1))
         else out.SendDelta? && out.i == k && Answer(t, k, plan) == Ok(out.reply)
    case Received(_) => toX == [] && toR == [] && HeadsFor(t, out, N(t))
  }

  // ---- Sending side steps ----

  lemma OutgoingWorks(t: Setup, out: Outgoing, into: Incoming, toR: seq<Item>, toX: seq<Item>)
    requires Talking(t, out, into, toR, toX) && OutgoingKind(t, out) == Works
    ensures Talking(t, OutgoingNext(t, out), into, toR, toX)
  {
    hide Question, Answer, Transfers;
  }

  lemma OutgoingWrites(t: Setup, out: Outgoing, into: Incoming, toR: seq<Item>, toX: seq<Item>)
    requires Talking(t, out, into, toR, toX) && OutgoingKind(t, out).Writes?
    ensures toR == [] && toX == []
    ensures Talking(t, OutgoingNext(t, out), into, [OutgoingKind(t, out).item], toX)
  {
    hide Question, Answer, Transfers;
  }

  lemma OutgoingReads(t: Setup, out: Outgoing, into: Incoming, toR: seq<Item>, toX: seq<Item>)
    requires Talking(t, out, into, toR, toX) && toX != []
    ensures toX[0].Packet? && toX[1..] == [] && OutgoingKind(t, out) in {Works, ReadsFrame}
    ensures OutgoingKind(t, out) == ReadsFrame && OutgoingGot(t, out, toX[0].msg).Some? ==>
      Talking(t, OutgoingGot(t, out, toX[0].msg).value, into, toR, toX[1..])
  {
    hide Reply, Transfers;
  }

  // ---- Receiving side steps ----

  lemma IncomingWorks(t: Setup, out: Outgoing, into: Incoming, toR: seq<Item>, toX: seq<Item>)
    requires Talking(t, out, into, toR, toX) && Stands(t, into) && into.Handling? && IncomingNext(t, into).Some?
    ensures Talking(t, out, IncomingNext(t, into).value, toR, toX) && Stands(t, IncomingNext(t, into).value)
  {
    hide Question, Answer, Transfers, Passes, Prepare, ReceiveLocal, After;
    if into.k < N(t) && !Transfers(t.job.list, Entry(t.job, into.k)) {
      LocalAdvances(t, into.k, into.st);
    }
  }

  lemma IncomingWrites(t: Setup, out: Outgoing, into: Incoming, toR: seq<Item>, toX: seq<Item>)
    requires Talking(t, out, into, toR, toX) && Stands(t, into) && IncomingKind(t, into).Writes?
    ensures toR == [] && toX == [] && into.SendSignature? && IncomingNext(t, into).Some?
    ensures Talking(t, out, IncomingNext(t, into).value, toR, [IncomingKind(t, into).item]) && Stands(t, IncomingNext(t, into).value)
  {
    hide Transfers, Prepare, After, NextTransfer;
  }

  lemma IncomingReads(t: Setup, out: Outgoing, into: Incoming, toR: seq<Item>, toX: seq<Item>)
    requires Talking(t, out, into, toR, toX) && Stands(t, into) && toR != []
    ensures toR[0].Packet? && toR[1..] == [] && IncomingKind(t, into) == ReadsFrame
    ensures IncomingGot(t, into, toR[0].msg).Some? ==>
      Talking(t, out, IncomingGot(t, into, toR[0].msg).value, toR[1..], toX) && Stands(t, IncomingGot(t, into, toR[0].msg).value)
  {
    hide Transfers, Prepare, After, Reply, TakeDelta;
    if into.WantList? {
      StartIsReached(t);
    } else {
      TransferAdvances(t, into.k, into.plan);
    }
  }

  lemma StartIsReached(t: Setup)
    ensures Reached(t, 0, CountReceived(t.job.cfg, FileListMsg(t.job.list), State(t.start, NO_STATS, [])))
  {
  }

  // ---- Both sides alive ----

  /** Up to the acknowledgement: which lines are on their way, for every pair of positions. */
  predicate Opening(ss: Session, n: Net) {
    match n.s
    case Greet => n.c.AwaitGreeting? && n.toServer == [] && n.toClient == []
    case WantGreeting =>
      || (n.c.AwaitGreeting? && n.toClient == [Text(GREETING)] && n.toServer == [])
      || (n.c.GreetBack? && n.toClient == [] && n.toServer == [])
      || (n.c.Select? && n.toClient == [] && n.toServer == [Text(GREETING)])
      || (n.c.AwaitAuth? && n.toClient == [] && n.toServer == [Text(GREETING), Text(ss.name)])
    case WantModule =>
      n.toClient == [] && ((n.c.Select? && n.toServer == []) || (n.c.AwaitAuth? && n.toServer == [Text(ss.name)]))
    case Refuse(_) => n.toClient == [] && n.toServer == [] && (n.c.AwaitAuth? || n.c.AwaitAck?)
    case StartAuth(_) => n.c.AwaitAuth? && n.toClient == [] && n.toServer == []
    case WantResponse(_) =>
      || (n.c.AwaitAuth? && n.toClient == [Text(AUTHREQD + ss.challenge)] && n.toServer == [])
      || (n.c.Respond? && n.toClient == [] && n.toServer == [])
      || (n.c.AwaitAuth? && n.toClient == [] && |n.toServer| == 1 && n.toServer[0].Text?)
    case Accept(_, _) => n.c.AwaitAuth? && n.toClient == [] && n.toServer == []
    case WantDirection(_, _) =>
      || (n.c.AwaitAuth? && n.toClient == [Text(OK)] && n.toServer == [])
      || (n.c.SayDirection? && n.toClient == [] && n.toServer == [])
      || (n.c.AwaitAck? && n.toClient == [] && n.toServer == [Text(DirectionLine(ss))])
    case Acknowledge(_, _, dir, dry) =>
      n.c.AwaitAck? && n.toClient == [] && n.toServer == [] && dir == ss.direction && (dir == Put ==> dry == ss.dryRun)
    case _ => false
  }

  /** A download, with the server's sending side at `out`. */
  predicate Download(ss: Session, out: Outgoing, c: ClientPc, toServer: seq<Item>, toClient: seq<Item>) {
    && ss.direction == Get
    && match c
       case AwaitAck => toClient != [] && toClient[0] == Text(OK) && Talking(ss.setup, out, WantList, toClient[1..], toServer)
       case Downloading(into) => Stands(ss.setup, into) && Talking(ss.setup, out, into, toClient, toServer)
       case ConfirmDone(st) => Complete(ss.setup, st) && toServer == [] && toClient == [] && HeadsFor(ss.setup, out, N(ss.setup))
       case ClientStopped(ok, loaded) =>
         ok && loaded.Some? && Complete(ss.setup, loaded.value) && toServer == [Text(DONE)] && toClient == [] && HeadsFor(ss.setup, out, N(ss.setup))
       case _ => false
  }

  /** An upload, with the server's receiving side at `into`. */
  predicate Upload(ss: Session, into: Incoming, c: ClientPc, toServer: seq<Item>, toClient: seq<Item>) {
    && ss.direction == Put && Stands(Agreed(ss), into)
    && match c
       case AwaitAck => into == WantList && toServer == [] && toClient == [Text(OK)]
       case Uploading(out) => Talking(Agreed(ss), out, into, toServer, toClient)
       case AwaitDone => Talking(Agreed(ss), Sent, into, toServer, toClient)
       case _ => false
  }

  predicate Finishing(ss: Session, c: ClientPc) {
    match c
    case Uploading(out) => HeadsFor(Agreed(ss), out, N(Agreed(ss)))
    case AwaitDone => true
    case _ => false
  }

  predicate Exchange(ss: Session, n: Net) {
    match n.s
    case Serving(_, _, out) => Download(ss, out, n.c, n.toServer, n.toClient)
    case WantDone(_, _) => Download(ss, Sent, n.c, n.toServer, n.toClient)
    case Storing(_, _, dry, into) => dry == ss.dryRun && Upload(ss, into, n.c, n.toServer, n.toClient)
    case SayDone(_, _, dry, st) =>
      ss.direction == Put && dry == ss.dryRun && Complete(Agreed(ss), st) && n.toServer == [] && n.toClient == [] && Finishing(ss, n.c)
    case ServerStopped(ok, stored) =>
      && ok && n.toServer == []
      && (if ss.direction == Put then
            && stored.Some? && Complete(Agreed(ss), stored.value)
            && ((Finishing(ss, n.c) && n.toClient == [Text(DONE)]) || (n.c == ClientStopped(true, None) && n.toClient == []))
          else n.c.ClientStopped? && n.c.ok && n.c.loaded.Some? && Complete(ss.setup, n.c.loaded.value) && n.toClient == [])
    case _ => false
  }

  // ---- One side gone: what the other may still find in its buffer ----

  /** The client failed; the server finds at most what had been written to it before. */
  predicate ClientGone(ss: Session, s: ServerPc, toServer: seq<Item>) {
    match s
    case WantGreeting => toServer in {[], [Text(GREETING)], [Text(GREETING), Text(ss.name)]}
    case WantModule => toServer in {[], [Text(ss.name)]}
    case WantResponse(_) => toServer == [] || (|toServer| == 1 && toServer[0].Text?)
    case WantDirection(_, _) => toServer in {[], [Text(DirectionLine(ss))]}
    case Serving(_, _, out) =>
      toServer == [] || (|toServer| == 1 && toServer[0].Packet? && (out.Look? || out.WantSignature?) && out.i <= N(ss.setup) && NextTransfer(ss.setup, out.i) < N(ss.setup))
    case Storing(_, _, _, into) =>
      && (into.SendSignature? ==> into.k < N(ss.setup))
      && (toServer == [] || (|toServer| == 1 && toServer[0].Packet? && (into.WantList? || into.WantDelta?)))
    case ServerStopped(ok, stored) => ok ==> ss.direction == Put && stored.Some? && Complete(Agreed(ss), stored.value)
    case Listing(_) => false
    case _ => toServer == []
  }

  /** The server failed; likewise for the client. */
  predicate ServerGone(ss: Session, c: ClientPc, toClient: seq<Item>) {
    match c
    case AwaitGreeting => toClient in {[], [Text(GREETING)]}
    case AwaitAuth => toClient == [] || (|toClient| == 1 && toClient[0].Text?)
    case AwaitAck =>
      || toClient == [] || (|toClient| == 1 && toClient[0].Text?)
      || (ss.direction == Get && |toClient| == 2 && toClient[0].Text? && toClient[1].Packet?)
    case Uploading(out) =>
      toClient == [] || (|toClient| == 1 && toClient[0].Packet? && (out.Look? || out.WantSignature?) && out.i <= N(Agreed(ss)) && NextTransfer(Agreed(ss), out.i) < N(Agreed(ss)))
    case Downloading(into) =>
      && (into.SendSignature? ==> into.k < N(ss.setup))
      && (toClient == [] || (|toClient| == 1 && toClient[0].Packet? && (into.WantList? || into.WantDelta?)))
    case ClientStopped(ok, loaded) => ok ==> ss.direction == Get && loaded.Some? && Complete(ss.setup, loaded.value)
    case _ => toClient == []
  }

  predicate ClientFailed(n: Net) {
    n.c.ClientStopped? && !n.c.ok
  }

  predicate ServerFailed(n: Net) {
    n.s.ServerStopped? && !n.s.ok
  }

  /** The invariant of every interleaving of DialClient and ServeConn. */
  predicate SessionInv(ss: Session, n: Net) {
    if ClientFailed(n) then ClientGone(ss, n.s, n.toServer)
    else if ServerFailed(n) then ServerGone(ss, n.c, n.toClient)
    else Opening(ss, n) || Exchange(ss, n)
  }

  /** DialClient insists on a module name; this one is not the request to list them. */
  predicate Dials(ss: Session) {
    ss.name != "" && ss.name != LIST
  }

  // ---- Failures ----

  lemma OpeningLeaves(ss: Session, n: Net)
    requires Opening(ss, n)
    ensures ClientGone(ss, n.s, n.toServer) && ServerGone(ss, n.c, n.toClient)
    ensures !n.c.ClientStopped? && !n.s.ServerStopped?
  {
  }

  lemma ExchangeLeaves(ss: Session, n: Net)
    requires Exchange(ss, n)
    ensures !n.c.ClientStopped? ==> ClientGone(ss, n.s, n.toServer)
    ensures !n.s.ServerStopped? ==> ServerGone(ss, n.c, n.toClient)
  {
    hide Stands, Complete, Question, Answer, Transfers;
  }

  // ---- The direction line ----

  lemma WordIsRead(w: string)
    requires w == "get" || w == "put" || w == DRY_RUN
    ensures Fields(w) == [w]
  {
    hide FirstWord, Fields;
    WordAlone(w);
  }

  lemma BlankIsSkipped(rest: string)
    ensures Fields(" " + rest) == Fields(rest)
  {
    assert (" " + rest)[1..] == rest;
  }

  lemma DryPutIsRead()
    ensures Fields("put" + " " + DRY_RUN) == ["put", DRY_RUN]
  {
    hide FirstWord, Fields;
    BlankIsSkipped(DRY_RUN);
    WordIsRead(DRY_RUN);
    WordThen("put", " " + DRY_RUN);
    assert "put" + " " + DRY_RUN == "put" + (" " + DRY_RUN);
  }

  lemma DirectionIsRead(ss: Session)
    ensures var fields := Fields(DirectionLine(ss));
      && fields != [] && fields[0] == DirectionName(ss.direction)
      && (ss.direction == Put ==> (|fields| > 1 && fields[1] == DRY_RUN <==> ss.dryRun))
  {
    hide FirstWord, Fields;
    WordIsRead("get");
    WordIsRead("put");
    DryPutIsRead();
  }

  // ---- The server's steps ----

  lemma FailingServer(ss: Session, n: Net, next: Net)
    requires SessionInv(ss, n) && !n.s.ServerStopped? && !ClientFailed(n)
    requires next.s == FAILED && next.c == n.c && next.toClient == n.toClient
    ensures SessionInv(ss, next)
  {
    hide Opening, Exchange, ServerGone, ClientGone;
    if Opening(ss, n) {
      OpeningLeaves(ss, n);
    } else {
      ExchangeLeaves(ss, n);
    }
  }

  lemma GreetingServer(ss: Session, n: Net)
    requires Dials(ss) && Opening(ss, n) && ServerStep(ss, n).Some? && (n.s.Greet? || n.s.WantGreeting? || n.s.WantModule?)
    ensures Opening(ss, ServerStep(ss, n).value) || (ServerStep(ss, n).value.s == FAILED && ServerStep(ss, n).value.toClient == n.toClient)
    ensures ServerStep(ss, n).value.c == n.c
  {
    hide ParseGreeting;
  }

  lemma AuthServer(ss: Session, n: Net)
    requires Opening(ss, n) && ServerStep(ss, n).Some? && (n.s.StartAuth? || n.s.WantResponse? || n.s.Accept?)
    ensures Opening(ss, ServerStep(ss, n).value) || (ServerStep(ss, n).value.s == FAILED && ServerStep(ss, n).value.toClient == n.toClient)
    ensures ServerStep(ss, n).value.c == n.c
  {
    hide CheckAuth;
  }

  lemma DirectionServer(ss: Session, n: Net)
    requires Opening(ss, n) && ServerStep(ss, n).Some? && n.s.WantDirection?
    ensures Opening(ss, ServerStep(ss, n).value) || (ServerStep(ss, n).value.s == FAILED && ServerStep(ss, n).value.toClient == n.toClient)
    ensures ServerStep(ss, n).value.c == n.c
  {
    hide Fields, DirectionLine;
    DirectionIsRead(ss);
  }

  lemma AcknowledgeServer(ss: Session, n: Net)
    requires Opening(ss, n) && ServerStep(ss, n).Some? && n.s.Acknowledge?
    ensures Exchange(ss, ServerStep(ss, n).value)
  {
    hide Agreed;
  }

  lemma RefuseServer(ss: Session, n: Net)
    requires Opening(ss, n) && ServerStep(ss, n).Some? && n.s.Refuse?
    ensures ServerStep(ss, n).value == n.(s := FAILED, toClient := [Text(n.s.line)])
  {
  }

  lemma OpeningServer(ss: Session, n: Net)
    requires Dials(ss) && Opening(ss, n) && ServerStep(ss, n).Some?
    ensures SessionInv(ss, ServerStep(ss, n).value)
  {
    hide Opening, Exchange, ServerStep, ClientGone, ServerGone;
    OpeningLeaves(ss, n);
    var next := ServerStep(ss, n).value;
    if n.s.Acknowledge? {
      AcknowledgeServer(ss, n);
      ExchangeIsLive(ss, next);
    } else if n.s.Refuse? {
      RefuseServer(ss, n);
      RefusedIsGone(ss, n, next);
    } else {
      OpeningPcs(ss, n);
      if n.s.Greet? || n.s.WantGreeting? || n.s.WantModule? {
        GreetingServer(ss, n);
      } else if n.s.WantDirection? {
        DirectionServer(ss, n);
      } else {
        AuthServer(ss, n);
      }
      if Opening(ss, next) {
        OpeningLeaves(ss, next);
      } else {
        FailingServer(ss, n, next);
      }
    }
  }

  lemma OpeningPcs(ss: Session, n: Net)
    requires Opening(ss, n)
    ensures n.s.Greet? || n.s.WantGreeting? || n.s.WantModule? || n.s.StartAuth? || n.s.WantResponse? || n.s.Accept? || n.s.WantDirection? || n.s.Acknowledge? || n.s.Refuse?
  {
  }

  /** In the exchange nobody has failed. */
  lemma ExchangeIsLive(ss: Session, n: Net)
    requires Exchange(ss, n)
    ensures !ClientFailed(n) && !ServerFailed(n)
  {
    hide Stands, Talking, Complete, HeadsFor;
  }

  lemma RefusedIsGone(ss: Session, n: Net, next: Net)
    requires Opening(ss, n) && n.s.Refuse? && next.c == n.c && next.toClient == [Text(n.s.line)]
    ensures ServerGone(ss, next.c, next.toClient)
  {
  }

  lemma HeadsWorks(t: Setup, out: Outgoing, j: nat)
    requires HeadsFor(t, out, j) && OutgoingKind(t, out) == Works
    ensures HeadsFor(t, OutgoingNext(t, out), j)
  {
    hide Transfers;
  }

  lemma DownloadWorks(ss: Session, out: Outgoing, c: ClientPc, toServer: seq<Item>, toClient: seq<Item>)
    requires Download(ss, out, c, toServer, toClient) && OutgoingKind(ss.setup, out) == Works
    ensures Download(ss, OutgoingNext(ss.setup, out), c, toServer, toClient)
  {
    hide Talking, Stands, Complete, HeadsFor, OutgoingNext, OutgoingKind;
    match c {
      case AwaitAck => OutgoingWorks(ss.setup, out, WantList, toClient[1..], toServer);
      case Downloading(into) => OutgoingWorks(ss.setup, out, into, toClient, toServer);
      case _ => HeadsWorks(ss.setup, out, N(ss.setup));
    }
  }

  lemma HeadsNeverWrites(t: Setup, out: Outgoing, j: nat)
    requires HeadsFor(t, out, j)
    ensures !OutgoingKind(t, out).Writes?
    ensures j == N(t) ==> OutgoingKind(t, out) in {Works, Rests} && (OutgoingKind(t, out) == Rests ==> out.Sent?)
  {
  }

  lemma DownloadWrites(ss: Session, out: Outgoing, c: ClientPc, toServer: seq<Item>, toClient: seq<Item>)
    requires Download(ss, out, c, toServer, toClient) && OutgoingKind(ss.setup, out).Writes?
    ensures Download(ss, OutgoingNext(ss.setup, out), c, toServer, toClient + [OutgoingKind(ss.setup, out).item])
    ensures !c.ClientStopped?
  {
    hide Talking, Stands, Complete, HeadsFor, OutgoingNext, OutgoingKind;
    var item := OutgoingKind(ss.setup, out).item;
    match c {
      case AwaitAck =>
        OutgoingWrites(ss.setup, out, WantList, toClient[1..], toServer);
        assert (toClient + [item])[1..] == [item] && toClient[1..] == [];
      case Downloading(into) =>
        OutgoingWrites(ss.setup, out, into, toClient, toServer);
        assert toClient + [item] == [item];
      case _ => HeadsNeverWrites(ss.setup, out, N(ss.setup));
    }
  }

  lemma DownloadReads(ss: Session, out: Outgoing, c: ClientPc, toServer: seq<Item>, toClient: seq<Item>)
    requires Download(ss, out, c, toServer, toClient) && toServer != [] && OutgoingKind(ss.setup, out) == ReadsFrame
    ensures toServer[0].Packet? && !c.ClientStopped?
    ensures OutgoingGot(ss.setup, out, toServer[0].msg).Some? ==>
      Download(ss, OutgoingGot(ss.setup, out, toServer[0].msg).value, c, toServer[1..], toClient)
  {
    hide Talking, Stands, Complete, HeadsFor, OutgoingGot, OutgoingKind;
    match c {
      case AwaitAck => OutgoingReads(ss.setup, out, WantList, toClient[1..], toServer);
      case Downloading(into) => OutgoingReads(ss.setup, out, into, toClient, toServer);
      case _ => HeadsNeverWrites(ss.setup, out, N(ss.setup));
    }
  }

  /** What a serving server's step makes of the session, by kind of step. */
  lemma ServingStep(ss: Session, n: Net)
    requires n.s.Serving? && Exchange(ss, n) && ServerStep(ss, n).Some?
    ensures var next, out := ServerStep(ss, n).value, n.s.out;
      || (next.s == FAILED && next.c == n.c && next.toClient == n.toClient)
      || (out.Sent? && next == n.(s := WantDone(n.s.m, n.s.answer)))
      || (OutgoingKind(ss.setup, out) == Works && next == n.(s := n.s.(out := OutgoingNext(ss.setup, out))))
      || (OutgoingKind(ss.setup, out).Writes? && next == n.(s := n.s.(out := OutgoingNext(ss.setup, out)), toClient := n.toClient + [OutgoingKind(ss.setup, out).item]))
      || (OutgoingKind(ss.setup, out) == ReadsFrame && n.toServer != [] && n.toServer[0].Packet? && OutgoingGot(ss.setup, out, n.toServer[0].msg).Some? &&
          next == n.(s := n.s.(out := OutgoingGot(ss.setup, out, n.toServer[0].msg).value), toServer := n.toServer[1..]))
  {
    hide Download, OutgoingKind, OutgoingNext, OutgoingGot;
  }

  lemma ServingKeeps(ss: Session, n: Net)
    requires n.s.Serving? && Exchange(ss, n) && ServerStep(ss, n).Some?
    ensures SessionInv(ss, ServerStep(ss, n).value)
  {
    ServingStep(ss, n);
    ExchangeIsLive(ss, n);
    hide Download, OutgoingKind, OutgoingNext, OutgoingGot, Opening, ClientGone, ServerGone, ServerStep;
    var next, out := ServerStep(ss, n).value, n.s.out;
    if next.s == FAILED {
      FailingServer(ss, n, next);
    } else {
      if !out.Sent? {
        if OutgoingKind(ss.setup, out) == Works {
          DownloadWorks(ss, out, n.c, n.toServer, n.toClient);
        } else if OutgoingKind(ss.setup, out).Writes? {
          DownloadWrites(ss, out, n.c, n.toServer, n.toClient);
        } else {
          DownloadReads(ss, out, n.c, n.toServer, n.toClient);
        }
      } else {
        SentRests(ss.setup, out);
      }
      ExchangeIsLive(ss, next);
    }
  }

  lemma SentRests(t: Setup, out: Outgoing)
    ensures out.Sent? ==> OutgoingKind(t, out) == Rests
  {
  }

  lemma NothingLeftToRead(ss: Session, c: ClientPc, toServer: seq<Item>, toClient: seq<Item>)
    requires Download(ss, Sent, c, toServer, toClient)
    ensures toServer == [] || (toServer == [Text(DONE)] && c.ClientStopped? && c.ok && c.loaded.Some? && Complete(ss.setup, c.loaded.value) && toClient == [])
  {
    hide Stands, Complete;
  }

  lemma WantDoneKeeps(ss: Session, n: Net)
    requires n.s.WantDone? && Exchange(ss, n) && ServerStep(ss, n).Some?
    ensures SessionInv(ss, ServerStep(ss, n).value)
  {
    NothingLeftToRead(ss, n.c, n.toServer, n.toClient);
    assert ss.direction == Get && !ClientFailed(n);
    hide Download, Complete, ClientGone, ServerGone;
    var next := ServerStep(ss, n).value;
    if next.s == FAILED {
      FailingServer(ss, n, next);
    }
  }

  lemma UploadServerReads(ss: Session, into: Incoming, c: ClientPc, toServer: seq<Item>, toClient: seq<Item>)
    requires Upload(ss, into, c, toServer, toClient) && toServer != []
    ensures toServer[0].Packet? && IncomingKind(Agreed(ss), into) == ReadsFrame
    ensures IncomingGot(Agreed(ss), into, toServer[0].msg).Some? ==>
      Upload(ss, IncomingGot(Agreed(ss), into, toServer[0].msg).value, c, toServer[1..], toClient)
  {
    hide Talking, Stands, IncomingGot, IncomingKind, Agreed;
    match c {
      case Uploading(out) => IncomingReads(Agreed(ss), out, into, toServer, toClient);
      case AwaitDone => IncomingReads(Agreed(ss), Sent, into, toServer, toClient);
      case _ =>
    }
  }

  lemma UploadServerWrites(ss: Session, into: Incoming, c: ClientPc, toServer: seq<Item>, toClient: seq<Item>)
    requires Upload(ss, into, c, toServer, toClient) && IncomingKind(Agreed(ss), into).Writes?
    ensures IncomingNext(Agreed(ss), into).Some?
    ensures Upload(ss, IncomingNext(Agreed(ss), into).value, c, toServer, toClient + [IncomingKind(Agreed(ss), into).item])
  {
    assert !into.WantList?;
    hide Talking, Stands, IncomingNext, IncomingKind, Agreed;
    assert toClient == [] ==> toClient + [IncomingKind(Agreed(ss), into).item] == [IncomingKind(Agreed(ss), into).item];
    match c {
      case Uploading(out) => IncomingWrites(Agreed(ss), out, into, toServer, toClient);
      case AwaitDone => IncomingWrites(Agreed(ss), Sent, into, toServer, toClient);
      case _ =>
    }
  }

  lemma UploadServerWorks(ss: Session, into: Incoming, c: ClientPc, toServer: seq<Item>, toClient: seq<Item>)
    requires Upload(ss, into, c, toServer, toClient) && into.Handling? && IncomingNext(Agreed(ss), into).Some?
    ensures Upload(ss, IncomingNext(Agreed(ss), into).value, c, toServer, toClient)
  {
    hide Talking, Stands, IncomingNext, IncomingKind, Agreed;
    match c {
      case Uploading(out) => IncomingWorks(Agreed(ss), out, into, toServer, toClient);
      case AwaitDone => IncomingWorks(Agreed(ss), Sent, into, toServer, toClient);
      case _ =>
    }
  }

  lemma UploadDone(ss: Session, into: Incoming, c: ClientPc, toServer: seq<Item>, toClient: seq<Item>)
    requires Upload(ss, into, c, toServer, toClient) && into.Received?
    ensures Complete(Agreed(ss), into.st) && toServer == [] && toClient == [] && Finishing(ss, c)
  {
    hide Complete, HeadsFor, Agreed;
  }

  /** What a storing server's step makes of the session, by kind of step. */
  lemma StoringStep(ss: Session, n: Net)
    requires n.s.Storing? && Exchange(ss, n) && ServerStep(ss, n).Some?
    ensures Upload(ss, n.s.into, n.c, n.toServer, n.toClient)
    ensures var next, into, t := ServerStep(ss, n).value, n.s.into, Agreed(ss);
      || (next.s == FAILED && next.c == n.c && next.toClient == n.toClient)
      || (into.Received? && next == n.(s := SayDone(n.s.m, n.s.answer, n.s.dry, into.st)))
      || (IncomingKind(t, into) == Works && !into.Received? && IncomingNext(t, into).Some? && next == n.(s := n.s.(into := IncomingNext(t, into).value)))
      || (IncomingKind(t, into).Writes? && !into.Received? && IncomingNext(t, into).Some? &&
          next == n.(s := n.s.(into := IncomingNext(t, into).value), toClient := n.toClient + [IncomingKind(t, into).item]))
      || (IncomingKind(t, into) == ReadsFrame && !into.Received? && n.toServer != [] && n.toServer[0].Packet? && IncomingGot(t, into, n.toServer[0].msg).Some? &&
          next == n.(s := n.s.(into := IncomingGot(t, into, n.toServer[0].msg).value), toServer := n.toServer[1..]))
  {
    WritingSucceeds(ForServer(ss, n.s.dry), n.s.into);
    hide IncomingKind, IncomingNext, IncomingGot, Stands, Talking, Transfers, Complete;
  }

  lemma WritingSucceeds(t: Setup, into: Incoming)
    ensures IncomingKind(t, into).Writes? ==> IncomingNext(t, into).Some?
  {
  }

  lemma StoringKeeps(ss: Session, n: Net)
    requires n.s.Storing? && Exchange(ss, n) && ServerStep(ss, n).Some?
    ensures SessionInv(ss, ServerStep(ss, n).value)
  {
    StoringStep(ss, n);
    ExchangeIsLive(ss, n);
    StoringNever(ss, n);
    hide Upload, IncomingKind, IncomingNext, IncomingGot, Opening, ClientGone, ServerGone, Complete, Finishing, Agreed, ForServer, ServerStep;
    var next, into := ServerStep(ss, n).value, n.s.into;
    if next.s == FAILED {
      FailingServer(ss, n, next);
    } else {
      if into.Received? {
        UploadDone(ss, into, n.c, n.toServer, n.toClient);
      } else if IncomingKind(Agreed(ss), into) == Works {
        WorksIsHandling(Agreed(ss), into);
        UploadServerWorks(ss, into, n.c, n.toServer, n.toClient);
      } else if IncomingKind(Agreed(ss), into).Writes? {
        UploadServerWrites(ss, into, n.c, n.toServer, n.toClient);
      } else {
        UploadServerReads(ss, into, n.c, n.toServer, n.toClient);
      }
      ExchangeIsLive(ss, next);
    }
  }

  lemma StoringNever(ss: Session, n: Net)
    requires n.s.Storing? && Exchange(ss, n)
    ensures SessionInv(ss, n) && !ClientFailed(n) && ss.direction == Put && n.s.dry == ss.dryRun
  {
    hide Talking, Transfers, After, Prepare, Complete;
  }

  lemma WorksIsHandling(t: Setup, into: Incoming)
    requires IncomingKind(t, into) == Works
    ensures into.Handling?
  {
  }

  lemma SayDoneKeeps(ss: Session, n: Net)
    requires n.s.SayDone? && Exchange(ss, n) && ServerStep(ss, n).Some?
    ensures SessionInv(ss, ServerStep(ss, n).value)
  {
    hide Complete, HeadsFor, Agreed, ServerGone, ClientGone;
  }

  // ---- A server left alone ----

  lemma AloneServer(ss: Session, n: Net)
    requires Dials(ss) && ClientFailed(n) && ClientGone(ss, n.s, n.toServer) && ServerStep(ss, n).Some?
    ensures ClientGone(ss, ServerStep(ss, n).value.s, ServerStep(ss, n).value.toServer)
  {
    hide ParseGreeting, CheckAuth, Fields, Complete, Transfers, Reply, Prepare, ReceiveLocal, TakeDelta, Passes, DirectionLine, Agreed;
  }

  lemma ServerKeeps(ss: Session, n: Net)
    requires Dials(ss) && SessionInv(ss, n) && ServerStep(ss, n).Some?
    ensures SessionInv(ss, ServerStep(ss, n).value)
  {
    if ClientFailed(n) {
      AloneServer(ss, n);
      hide ClientGone;
      ServerLeavesClient(ss, n);
    } else if ServerFailed(n) {
      hide ServerGone;
    } else if Opening(ss, n) {
      hide ServerGone, ClientGone;
      OpeningServer(ss, n);
    } else {
      hide ServerGone, ClientGone, ServerStep;
      if n.s.Serving? {
        ServingKeeps(ss, n);
      } else if n.s.WantDone? {
        WantDoneKeeps(ss, n);
      } else if n.s.Storing? {
        StoringKeeps(ss, n);
      } else if n.s.SayDone? {
        SayDoneKeeps(ss, n);
      } else {
        StoppedRests(ss, n);
      }
    }
  }

  lemma ServerLeavesClient(ss: Session, n: Net)
    requires ServerStep(ss, n).Some?
    ensures ServerStep(ss, n).value.c == n.c
  {
    hide ServerKind, ServerNext, ServerGot;
  }

  lemma StoppedRests(ss: Session, n: Net)
    ensures n.s.ServerStopped? ==> ServerStep(ss, n).None?
    ensures n.c.ClientStopped? ==> ClientStep(ss, n).None?
  {
    hide OutgoingKind, IncomingKind;
  }

  // ---- The client's steps ----

  lemma FailingClient(ss: Session, n: Net, next: Net)
    requires SessionInv(ss, n) && !n.c.ClientStopped? && !ServerFailed(n)
    requires next.c == GAVE_UP && next.s == n.s && next.toServer == n.toServer
    ensures SessionInv(ss, next)
  {
    hide Opening, Exchange, ServerGone, ClientGone;
    if Opening(ss, n) {
      OpeningLeaves(ss, n);
    } else {
      ExchangeLeaves(ss, n);
    }
  }

  lemma OpeningClient(ss: Session, n: Net)
    requires Opening(ss, n) && ClientStep(ss, n).Some?
    ensures SessionInv(ss, ClientStep(ss, n).value)
  {
    OpeningLeaves(ss, n);
    hide ParseGreeting, ClientGone, ServerGone, DirectionLine;
    var next := ClientStep(ss, n).value;
    if next.c == GAVE_UP && next.toServer == n.toServer {
      FailingClient(ss, n, next);
    } else {
      assert Opening(ss, next);
    }
  }

  lemma UploadClientWorks(ss: Session, into: Incoming, c: ClientPc, toServer: seq<Item>, toClient: seq<Item>)
    requires Upload(ss, into, c, toServer, toClient) && c.Uploading? && OutgoingKind(Agreed(ss), c.out) == Works
    ensures Upload(ss, into, Uploading(OutgoingNext(Agreed(ss), c.out)), toServer, toClient)
  {
    hide Talking, Stands, OutgoingNext, OutgoingKind, Agreed;
    OutgoingWorks(Agreed(ss), c.out, into, toServer, toClient);
  }

  lemma UploadClientWrites(ss: Session, into: Incoming, c: ClientPc, toServer: seq<Item>, toClient: seq<Item>)
    requires Upload(ss, into, c, toServer, toClient) && c.Uploading? && OutgoingKind(Agreed(ss), c.out).Writes?
    ensures Upload(ss, into, Uploading(OutgoingNext(Agreed(ss), c.out)), toServer + [OutgoingKind(Agreed(ss), c.out).item], toClient)
  {
    hide Talking, Stands, OutgoingNext, OutgoingKind, Agreed;
    OutgoingWrites(Agreed(ss), c.out, into, toServer, toClient);
    assert toServer + [OutgoingKind(Agreed(ss), c.out).item] == [OutgoingKind(Agreed(ss), c.out).item];
  }

  lemma UploadClientReads(ss: Session, into: Incoming, c: ClientPc, toServer: seq<Item>, toClient: seq<Item>)
    requires Upload(ss, into, c, toServer, toClient) && c.Uploading? && toClient != [] && OutgoingKind(Agreed(ss), c.out) == ReadsFrame
    ensures toClient[0].Packet?
    ensures OutgoingGot(Agreed(ss), c.out, toClient[0].msg).Some? ==>
      Upload(ss, into, Uploading(OutgoingGot(Agreed(ss), c.out, toClient[0].msg).value), toServer, toClient[1..])
  {
    hide Talking, Stands, OutgoingGot, OutgoingKind, Agreed;
    OutgoingReads(Agreed(ss), c.out, into, toServer, toClient);
  }

  lemma KindOfOutgoing(t: Setup, out: Outgoing)
    ensures OutgoingKind(t, out) == Works || OutgoingKind(t, out).Writes? || OutgoingKind(t, out) == ReadsFrame || out.Sent?
  {
  }

  /** The client's step while it uploads. */
  lemma UploadStep(ss: Session, n: Net)
    requires n.c.Uploading? && !n.s.ServerStopped? && ClientStep(ss, n).Some?
    ensures n.c.out.Sent? ==> ClientStep(ss, n).value == n.(c := AwaitDone)
    ensures !n.c.out.Sent? && OutgoingKind(Agreed(ss), n.c.out) == Works ==>
      ClientStep(ss, n).value == n.(c := Uploading(OutgoingNext(Agreed(ss), n.c.out)))
    ensures !n.c.out.Sent? && OutgoingKind(Agreed(ss), n.c.out).Writes? ==>
      ClientStep(ss, n).value == n.(c := Uploading(OutgoingNext(Agreed(ss), n.c.out)), toServer := n.toServer + [OutgoingKind(Agreed(ss), n.c.out).item])
    ensures !n.c.out.Sent? && OutgoingKind(Agreed(ss), n.c.out) == ReadsFrame ==>
      n.toClient != [] && ClientStep(ss, n).value == n.(c := ClientGot(ss, n.c, n.toClient[0]), toClient := n.toClient[1..])
  {
    hide OutgoingKind, OutgoingNext, ClientGot, Agreed;
  }

  lemma UploadKeeps(ss: Session, n: Net)
    requires n.s.Storing? && Exchange(ss, n) && n.c.Uploading? && ClientStep(ss, n).Some?
    ensures SessionInv(ss, ClientStep(ss, n).value)
  {
    UploadStep(ss, n);
    var next, into := ClientStep(ss, n).value, n.s.into;
    hide OutgoingKind, OutgoingNext, OutgoingGot, ClientGone, ServerGone, Agreed, ClientStep, Talking, Stands;
    KindOfOutgoing(Agreed(ss), n.c.out);
    if next.c == GAVE_UP && next.toServer == n.toServer {
      FailingClient(ss, n, next);
    } else if n.c.out.Sent? {
    } else if OutgoingKind(Agreed(ss), n.c.out) == Works {
      UploadClientWorks(ss, into, n.c, n.toServer, n.toClient);
    } else if OutgoingKind(Agreed(ss), n.c.out).Writes? {
      UploadClientWrites(ss, into, n.c, n.toServer, n.toClient);
    } else {
      UploadClientReads(ss, into, n.c, n.toServer, n.toClient);
    }
  }

  /** The client's other steps of an upload: after the acknowledgement, and once everything is sent. */
  lemma UploadEdges(ss: Session, n: Net)
    requires Exchange(ss, n) && ss.direction == Put && ClientStep(ss, n).Some?
    requires !(n.s.Storing? && n.c.Uploading?)
    ensures SessionInv(ss, ClientStep(ss, n).value)
  {
    hide Stands, Complete, Agreed, ClientGone, ServerGone, Transfers, Question, Answer;
  }

  lemma DownloadClientReads(ss: Session, out: Outgoing, c: ClientPc, toServer: seq<Item>, toClient: seq<Item>)
    requires Download(ss, out, c, toServer, toClient) && c.Downloading? && toClient != []
    ensures toClient[0].Packet? && IncomingKind(ss.setup, c.into) == ReadsFrame
    ensures IncomingGot(ss.setup, c.into, toClient[0].msg).Some? ==>
      Download(ss, out, Downloading(IncomingGot(ss.setup, c.into, toClient[0].msg).value), toServer, toClient[1..])
  {
    hide Talking, Stands, IncomingGot, IncomingKind;
    IncomingReads(ss.setup, out, c.into, toClient, toServer);
  }

  lemma DownloadClientWrites(ss: Session, out: Outgoing, c: ClientPc, toServer: seq<Item>, toClient: seq<Item>)
    requires Download(ss, out, c, toServer, toClient) && c.Downloading? && IncomingKind(ss.setup, c.into).Writes?
    ensures IncomingNext(ss.setup, c.into).Some?
    ensures Download(ss, out, Downloading(IncomingNext(ss.setup, c.into).value), toServer + [IncomingKind(ss.setup, c.into).item], toClient)
  {
    hide Talking, Stands, IncomingNext, IncomingKind;
    IncomingWrites(ss.setup, out, c.into, toClient, toServer);
    assert toServer + [IncomingKind(ss.setup, c.into).item] == [IncomingKind(ss.setup, c.into).item];
  }

  lemma DownloadClientWorks(ss: Session, out: Outgoing, c: ClientPc, toServer: seq<Item>, toClient: seq<Item>)
    requires Download(ss, out, c, toServer, toClient) && c.Downloading? && c.into.Handling? && IncomingNext(ss.setup, c.into).Some?
    ensures Download(ss, out, Downloading(IncomingNext(ss.setup, c.into).value), toServer, toClient)
  {
    hide Talking, Stands, IncomingNext, IncomingKind;
    IncomingWorks(ss.setup, out, c.into, toClient, toServer);
  }

  lemma DownloadClientDone(ss: Session, out: Outgoing, c: ClientPc, toServer: seq<Item>, toClient: seq<Item>)
    requires Download(ss, out, c, toServer, toClient) && c.Downloading? && c.into.Received?
    ensures Download(ss, out, ConfirmDone(c.into.st), toServer, toClient)
  {
    hide Complete, HeadsFor;
  }

  lemma DownloadClientConfirms(ss: Session, out: Outgoing, c: ClientPc, toServer: seq<Item>, toClient: seq<Item>)
    requires Download(ss, out, c, toServer, toClient) && c.ConfirmDone?
    ensures Download(ss, out, ClientStopped(true, Some(c.st)), toServer + [Text(DONE)], toClient)
  {
    hide Complete, HeadsFor;
  }

  lemma DownloadClientBegins(ss: Session, out: Outgoing, c: ClientPc, toServer: seq<Item>, toClient: seq<Item>)
    requires Download(ss, out, c, toServer, toClient) && c.AwaitAck?
    ensures toClient != [] && Download(ss, out, Downloading(WantList), toServer, toClient[1..])
  {
    hide Talking;
  }

  function ServedFrom(s: ServerPc): Outgoing
    requires s.Serving? || s.WantDone?
  {
    if s.Serving? then s.out else Sent
  }

  lemma DownloadStep(ss: Session, n: Net)
    requires n.c.Downloading? && !n.s.ServerStopped? && ClientStep(ss, n).Some? && ss.direction == Get
    ensures n.c.into.Received? ==> ClientStep(ss, n).value == n.(c := ConfirmDone(n.c.into.st))
    ensures !n.c.into.Received? && IncomingKind(ss.setup, n.c.into) == Works ==> ClientStep(ss, n).value == n.(c := ClientNext(ss, n.c))
    ensures !n.c.into.Received? && IncomingKind(ss.setup, n.c.into).Writes? ==>
      ClientStep(ss, n).value == n.(c := ClientNext(ss, n.c), toServer := n.toServer + [IncomingKind(ss.setup, n.c.into).item])
    ensures !n.c.into.Received? && IncomingKind(ss.setup, n.c.into) in {ReadsLine, ReadsFrame} ==>
      n.toClient != [] && ClientStep(ss, n).value == n.(c := ClientGot(ss, n.c, n.toClient[0]), toClient := n.toClient[1..])
    ensures n.c.into.Received? || !IncomingKind(ss.setup, n.c.into).Rests?
  {
    hide IncomingKind, IncomingNext, ClientGot;
  }

  lemma DownloadKeeps(ss: Session, n: Net)
    requires (n.s.Serving? || n.s.WantDone?) && Exchange(ss, n) && n.c.Downloading? && ClientStep(ss, n).Some?
    ensures SessionInv(ss, ClientStep(ss, n).value)
  {
    assert Download(ss, ServedFrom(n.s), n.c, n.toServer, n.toClient) && ss.direction == Get by {
      hide Talking, Stands;
    }
    DownloadStep(ss, n);
    var next, into, out := ClientStep(ss, n).value, n.c.into, ServedFrom(n.s);
    hide IncomingKind, IncomingNext, IncomingGot, ClientGone, ServerGone, ClientStep, Download;
    if next.c == GAVE_UP && next.toServer == n.toServer {
      FailingClient(ss, n, next);
    } else if into.Received? {
      DownloadClientDone(ss, out, n.c, n.toServer, n.toClient);
    } else if IncomingKind(ss.setup, into) == Works {
      WorksIsHandling(ss.setup, into);
      DownloadClientWorks(ss, out, n.c, n.toServer, n.toClient);
    } else if IncomingKind(ss.setup, into).Writes? {
      DownloadClientWrites(ss, out, n.c, n.toServer, n.toClient);
    } else {
      DownloadClientReads(ss, out, n.c, n.toServer, n.toClient);
    }
  }

  lemma DownloadEdges(ss: Session, n: Net)
    requires (n.s.Serving? || n.s.WantDone?) && Exchange(ss, n) && !n.c.Downloading? && ClientStep(ss, n).Some?
    ensures SessionInv(ss, ClientStep(ss, n).value)
  {
    var out := ServedFrom(n.s);
    assert Download(ss, out, n.c, n.toServer, n.toClient);
    if n.c.AwaitAck? {
      DownloadClientBegins(ss, out, n.c, n.toServer, n.toClient);
    } else if n.c.ConfirmDone? {
      DownloadClientConfirms(ss, out, n.c, n.toServer, n.toClient);
    }
    hide Talking, Stands, Complete, HeadsFor, ClientGone, ServerGone, Opening;
  }

  lemma AloneClient(ss: Session, n: Net)
    requires !ClientFailed(n) && ServerFailed(n) && ServerGone(ss, n.c, n.toClient) && ClientStep(ss, n).Some?
    ensures var next := ClientStep(ss, n).value;
      next.s == n.s && next.toServer == n.toServer && (next.c == GAVE_UP || ServerGone(ss, next.c, next.toClient))
  {
    hide ParseGreeting, Complete, Transfers, Reply, Prepare, ReceiveLocal, TakeDelta, Passes;
  }

  lemma ClientKeeps(ss: Session, n: Net)
    requires SessionInv(ss, n) && ClientStep(ss, n).Some?
    ensures SessionInv(ss, ClientStep(ss, n).value)
  {
    StoppedRests(ss, n);
    if ServerFailed(n) {
      AloneClient(ss, n);
    } else if Opening(ss, n) {
      OpeningClient(ss, n);
    } else if n.s.Serving? || n.s.WantDone? {
      if n.c.Downloading? {
        DownloadKeeps(ss, n);
      } else {
        DownloadEdges(ss, n);
      }
    } else if n.s.Storing? && n.c.Uploading? {
      UploadKeeps(ss, n);
    } else {
      UploadEdges(ss, n);
    }
  }

  lemma BreakKeeps(ss: Session, n: Net, turn: Turn)
    requires SessionInv(ss, n) && (turn == BreakClient || turn == BreakServer)
    ensures SessionInv(ss, Advance(ss, n, turn))
  {
    hide Opening, Exchange, ClientGone, ServerGone;
    var next := Advance(ss, n, turn);
    if next != n {
      if turn == BreakServer && !ClientFailed(n) {
        FailingServer(ss, n, next);
      } else if turn == BreakClient && !ServerFailed(n) {
        FailingClient(ss, n, next);
      } else {
        BothBroken(ss, next);
      }
    }
  }

  lemma BothBroken(ss: Session, n: Net)
    requires ClientFailed(n) && ServerFailed(n)
    ensures SessionInv(ss, n)
  {
  }

  lemma {:induction false} EverySession(ss: Session, turns: seq<Turn>)
    requires Dials(ss)
    ensures SessionInv(ss, Converse(ss, turns))
  {
    hide SessionInv, ServerStep, ClientStep, Dials;
    if turns == [] {
      DialledIsFine(ss);
    } else {
      var n := Converse(ss, turns[..|turns| - 1]);
      EverySession(ss, turns[..|turns| - 1]);
      match turns[|turns| - 1] {
        case RunClient => if ClientStep(ss, n).Some? { ClientKeeps(ss, n); }
        case RunServer => if ServerStep(ss, n).Some? { ServerKeeps(ss, n); }
        case BreakClient => BreakKeeps(ss, n, BreakClient);
        case BreakServer => BreakKeeps(ss, n, BreakServer);
      }
    }
  }

  lemma DialledIsFine(ss: Session)
    ensures SessionInv(ss, Dialled())
  {
  }

  // ---- What every session guarantees ----

  /** A Put client that returns nil finds the server's Receiver returned nil, with the tree of the whole transfer on its disk. */
  lemma PutClientWaitsForServer(ss: Session, turns: seq<Turn>)
    requires Dials(ss) && ss.direction == Put
    requires Converse(ss, turns).c.ClientStopped? && Converse(ss, turns).c.ok
    ensures var s := Converse(ss, turns).s;
      && s.ServerStopped? && s.ok && s.stored.Some?
      && Run(ForServer(ss, ss.dryRun).job, ss.setup.start).Ok?
      && Run(ForServer(ss, ss.dryRun).job, ss.setup.start).value.st == s.stored.value
  {
    hide Converse, Run, Opening, ClientGone;
    EverySession(ss, turns);
    OpeningIsLive(ss, Converse(ss, turns));
  }

  lemma OpeningIsLive(ss: Session, n: Net)
    ensures Opening(ss, n) ==> !n.c.ClientStopped? && !n.s.ServerStopped?
  {
  }

  /** A Get client that returns nil has the whole transfer on its disk, and a Get server returns nil only then. */
  lemma GetIsComplete(ss: Session, turns: seq<Turn>)
    requires Dials(ss) && ss.direction == Get
    ensures var n := Converse(ss, turns);
      && (n.c.ClientStopped? && n.c.ok ==> n.c.loaded.Some? && Complete(ss.setup, n.c.loaded.value))
      && (n.s.ServerStopped? && n.s.ok ==> n.c.ClientStopped? && n.c.ok)
  {
    hide Converse, Opening, Complete;
    EverySession(ss, turns);
    var n := Converse(ss, turns);
    OpeningIsLive(ss, n);
    hide SessionInv;
    if n.c.ClientStopped? || n.s.ServerStopped? {
      DownloadIsComplete(ss, n);
    }
  }

  lemma DownloadIsComplete(ss: Session, n: Net)
    requires SessionInv(ss, n) && !Opening(ss, n) && ss.direction == Get
    ensures n.c.ClientStopped? && n.c.ok ==> n.c.loaded.Some? && Complete(ss.setup, n.c.loaded.value)
    ensures n.s.ServerStopped? && n.s.ok ==> n.c.ClientStopped? && n.c.ok
  {
    hide Complete, Talking, Stands, Agreed, Opening;
  }

  predicate FitsKind(item: Item, kind: Daemon.Kind) {
    (kind == ReadsLine && item.Text?) || (kind == ReadsFrame && item.Packet?)
  }

  /**
   * No read meets the wrong kind of item: where a line is expected a line is
   * next, where a frame is expected a frame is, in every state of every
   * session; SessionBytes says what follows for the bytes.
   */
  lemma BoundariesAreExact(ss: Session, turns: seq<Turn>)
    requires Dials(ss)
    ensures var n := Converse(ss, turns);
      && (n.toClient != [] && ClientKind(ss, n.c) in {ReadsLine, ReadsFrame} ==> FitsKind(n.toClient[0], ClientKind(ss, n.c)))
      && (n.toServer != [] && ServerKind(ss, n.s) in {ReadsLine, ReadsFrame} ==> FitsKind(n.toServer[0], ServerKind(ss, n.s)))
  {
    hide Converse, SessionInv;
    EverySession(ss, turns);
    var n := Converse(ss, turns);
    ClientReadsItsKind(ss, n);
    ServerReadsItsKind(ss, n);
  }

  lemma ClientReadsItsKind(ss: Session, n: Net)
    requires SessionInv(ss, n)
    ensures n.toClient != [] && ClientKind(ss, n.c) in {ReadsLine, ReadsFrame} && !ClientFailed(n) ==> FitsKind(n.toClient[0], ClientKind(ss, n.c))
  {
  }

  lemma ServerReadsItsKind(ss: Session, n: Net)
    requires SessionInv(ss, n)
    ensures n.toServer != [] && ServerKind(ss, n.s) in {ReadsLine, ReadsFrame} ==> FitsKind(n.toServer[0], ServerKind(ss, n.s))
  {
  }

  /** With room for one item in each direction, some side can always go on until both have returned. */
  lemma SessionNeverStalls(ss: Session, n: Net)
    requires SessionInv(ss, n) && 1 <= ss.capacity
    ensures (n.c.ClientStopped? && n.s.ServerStopped?) || ClientStep(ss, n).Some? || ServerStep(ss, n).Some?
  {
    if n.c.ClientStopped? || n.s.ServerStopped? {
      LoneSideRuns(ss, n);
      HangingUpReleases(ss, n);
    } else if Opening(ss, n) {
      OpeningNeverStalls(ss, n);
    } else if ss.direction == Get {
      DownloadNeverStalls(ss, n);
    } else {
      UploadNeverStalls(ss, n);
    }
  }

  lemma OpeningNeverStalls(ss: Session, n: Net)
    requires Opening(ss, n) && 1 <= ss.capacity
    ensures ClientStep(ss, n).Some? || ServerStep(ss, n).Some?
  {
    hide ClientNext, ClientGot, ServerNext, ServerGot, DirectionLine;
  }

  lemma DownloadNeverStalls(ss: Session, n: Net)
    requires Exchange(ss, n) && ss.direction == Get && 1 <= ss.capacity && !n.s.ServerStopped? && !n.c.ClientStopped?
    ensures ClientStep(ss, n).Some? || ServerStep(ss, n).Some?
  {
    hide ClientNext, ClientGot, ServerNext, ServerGot, Complete, Question, Answer, Stands, NextTransfer;
  }

  lemma UploadNeverStalls(ss: Session, n: Net)
    requires Exchange(ss, n) && ss.direction == Put && 1 <= ss.capacity && !n.s.ServerStopped? && !n.c.ClientStopped?
    ensures ClientStep(ss, n).Some? || ServerStep(ss, n).Some?
  {
    hide ClientNext, ClientGot, ServerNext, ServerGot, Complete, Question, Answer, Stands, NextTransfer;
  }

  /** A side whose peer has returned still has something to do. */
  lemma LoneSideRuns(ss: Session, n: Net)
    requires SessionInv(ss, n)
    ensures n.s.ServerStopped? && !n.c.ClientStopped? ==> !ClientKind(ss, n.c).Rests?
    ensures n.c.ClientStopped? && !n.s.ServerStopped? ==> !ServerKind(ss, n.s).Rests?
  {
    hide Complete, Question, Answer, Stands, NextTransfer;
  }

  /** Once one side has returned, the other is never blocked, whatever the buffers hold. */
  lemma HangingUpReleases(ss: Session, n: Net)
    ensures n.s.ServerStopped? && !n.c.ClientStopped? && !ClientKind(ss, n.c).Rests? ==> ClientStep(ss, n).Some?
    ensures n.c.ClientStopped? && !n.s.ServerStopped? && !ServerKind(ss, n.s).Rests? ==> ServerStep(ss, n).Some?
  {
    hide ClientNext, ClientGot, ServerNext, ServerGot, OutgoingKind, IncomingKind;
  }
}
