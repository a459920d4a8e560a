/** Every daemon session ends: how many steps it can take, and that with any scheduler both sides return. */
module SessionEnds {
  import opened Prelude
  import opened Entries
  import opened Receiver
  import opened SyncRun
  import opened LocalSync
  import opened Daemon
  import opened Sessions

  // ---- What is left to do ----

  function Gap(n: nat, i: nat): nat {
    if i < n then n - i else 0
  }

  function OutLeft(n: nat, out: Outgoing): nat {
    match out
    case SendList => 3 * n + 3
    case Look(i) => if i < n then 3 * Gap(n, i) + 2 else 1
    case WantSignature(i) => 3 * Gap(n, i) + 1
    case SendDelta(i, _) => if i < n then 3 * Gap(n, i) else 2
    case Sent => 0
  }

  function InLeft(n: nat, into: Incoming): nat {
    match into
    case WantList => 3 * n + 3
    case Handling(k, _) => 3 * Gap(n, k) + 2
    case SendSignature(k, _, _) => 3 * Gap(n, k) + 1
    case WantDelta(k, _, _) => 3 * Gap(n, k)
    case Received(_) => 1
  }

  function ServerLeft(ss: Session, s: ServerPc): nat {
    var n := N(ss.setup);
    match s
    case Greet => 3 * n + |ss.listing| + 14
    case WantGreeting => 3 * n + |ss.listing| + 13
    case WantModule => 3 * n + |ss.listing| + 12
    case StartAuth(_) => 3 * n + 10
    case WantResponse(_) => 3 * n + 9
    case Accept(_, _) => 3 * n + 8
    case WantDirection(_, _) => 3 * n + 7
    case Acknowledge(_, _, _, _) => 3 * n + 6
    case Serving(_, _, out) => OutLeft(n, out) + 2
    case Storing(_, _, _, into) => InLeft(n, into) + 2
    case Listing(rest) => |rest| + 1
    case Refuse(_) => 1
    case WantDone(_, _) => 1
    case SayDone(_, _, _, _) => 1
    case ServerStopped(_, _) => 0
  }

  function ClientLeft(ss: Session, c: ClientPc): nat {
    var n := N(ss.setup);
    match c
    case AwaitGreeting => 3 * n + 12
    case GreetBack => 3 * n + 11
    case Select => 3 * n + 10
    case Respond(_) => 3 * n + 9
    case AwaitAuth => 3 * n + 8
    case SayDirection => 3 * n + 7
    case AwaitAck => 3 * n + 6
    case Uploading(out) => OutLeft(n, out) + 2
    case Downloading(into) => InLeft(n, into) + 2
    case AwaitDone => 1
    case ConfirmDone(_) => 1
    case ClientStopped(_, _) => 0
  }

  /** A challenge sends the client one step back, so what is on its way to it counts for more than that step. */
  function Left(ss: Session, n: Net): nat {
    4 * ServerLeft(ss, n.s) + 3 * |n.toClient| + 2 * ClientLeft(ss, n.c) + |n.toServer|
  }

  // ---- Each step ----

  lemma OutgoingDescends(t: Setup, out: Outgoing, msg: Message)
    ensures OutgoingKind(t, out).Writes? || OutgoingKind(t, out).Works? ==> OutLeft(N(t), OutgoingNext(t, out)) < OutLeft(N(t), out)
    ensures OutgoingGot(t, out, msg).Some? ==> OutLeft(N(t), OutgoingGot(t, out, msg).value) < OutLeft(N(t), out)
    ensures !OutgoingKind(t, out).Rests? ==> 0 < OutLeft(N(t), out)
  {
    hide Reply, Transfers;
  }

  lemma IncomingDescends(t: Setup, into: Incoming, msg: Message)
    ensures IncomingNext(t, into).Some? ==> InLeft(N(t), IncomingNext(t, into).value) < InLeft(N(t), into)
    ensures IncomingGot(t, into, msg).Some? ==> InLeft(N(t), IncomingGot(t, into, msg).value) < InLeft(N(t), into)
  {
    hide TakeDelta, Transfers, Passes, Prepare, ReceiveLocal;
  }

  lemma SameLength(ss: Session, dry: bool)
    ensures N(ForServer(ss, dry)) == N(ss.setup) && N(Agreed(ss)) == N(ss.setup)
  {
  }

  /** After a write or work of its own. */
  lemma ServerNextDescends(ss: Session, s: ServerPc)
    requires ServerKind(ss, s).Writes? || ServerKind(ss, s).Works?
    ensures ServerLeft(ss, ServerNext(ss, s)) < ServerLeft(ss, s)
  {
    hide OutgoingKind, OutgoingNext, IncomingKind, IncomingNext, ForServer, InLeft, OutLeft;
    if s.Serving? {
      OutgoingDescends(ss.setup, s.out, ErrorMsg);
      TransferRanks(ss);
    } else if s.Storing? {
      SameLength(ss, s.dry);
      IncomingDescends(ForServer(ss, s.dry), s.into, ErrorMsg);
      TransferRanks(ss);
    } else {
      TransferRanks(ss);
    }
  }

  lemma TransferRanks(ss: Session)
    ensures OutLeft(N(ss.setup), SendList) == 3 * N(ss.setup) + 3 && InLeft(N(ss.setup), WantList) == 3 * N(ss.setup) + 3
    ensures forall st :: InLeft(N(ss.setup), Received(st)) == 1
    ensures OutLeft(N(ss.setup), Sent) == 0
  {
  }

  lemma ServerGotDescends(ss: Session, s: ServerPc, item: Item)
    requires !s.ServerStopped?
    ensures ServerLeft(ss, ServerGot(ss, s, item)) < ServerLeft(ss, s)
  {
    hide OutgoingKind, OutgoingGot, IncomingKind, IncomingGot, ForServer, InLeft, OutLeft, ParseGreeting, CheckAuth, Fields;
    if item.Packet? && s.Serving? {
      OutgoingDescends(ss.setup, s.out, item.msg);
    } else if item.Packet? && s.Storing? {
      SameLength(ss, s.dry);
      IncomingDescends(ForServer(ss, s.dry), s.into, item.msg);
    }
  }

  lemma ClientNextDescends(ss: Session, c: ClientPc)
    requires ClientKind(ss, c).Writes? || ClientKind(ss, c).Works?
    ensures ClientLeft(ss, ClientNext(ss, c)) < ClientLeft(ss, c)
  {
    hide OutgoingKind, OutgoingNext, IncomingKind, IncomingNext, Agreed, InLeft, OutLeft, DirectionLine;
    SameLength(ss, false);
    TransferRanks(ss);
    if c.Uploading? {
      OutgoingDescends(Agreed(ss), c.out, ErrorMsg);
    } else if c.Downloading? {
      IncomingDescends(Agreed(ss), c.into, ErrorMsg);
    }
  }

  lemma ClientGotDescends(ss: Session, c: ClientPc, item: Item)
    requires !c.ClientStopped?
    ensures ClientLeft(ss, ClientGot(ss, c, item)) <= ClientLeft(ss, c) + 1
  {
    hide OutgoingKind, OutgoingGot, IncomingKind, IncomingGot, Agreed, InLeft, OutLeft, ParseGreeting;
    SameLength(ss, false);
    TransferRanks(ss);
    if item.Packet? && c.Uploading? {
      OutgoingDescends(Agreed(ss), c.out, item.msg);
    } else if item.Packet? && c.Downloading? {
      IncomingDescends(Agreed(ss), c.into, item.msg);
    }
  }

  lemma NotDoneYet(ss: Session, n: Net)
    ensures n.s.ServerStopped? || 0 < ServerLeft(ss, n.s)
    ensures n.c.ClientStopped? || 0 < ClientLeft(ss, n.c)
    ensures n.s.ServerStopped? ==> ServerKind(ss, n.s).Rests?
    ensures n.c.ClientStopped? ==> ClientKind(ss, n.c).Rests?
    ensures ServerLeft(ss, FAILED) == 0 && ClientLeft(ss, GAVE_UP) == 0
  {
    hide OutLeft, InLeft;
  }

  lemma ServerDescends(ss: Session, n: Net)
    requires ServerStep(ss, n).Some?
    ensures Left(ss, ServerStep(ss, n).value) < Left(ss, n)
  {
    hide ServerKind, ServerNext, ServerGot, ServerLeft, ClientLeft;
    NotDoneYet(ss, n);
    if ServerKind(ss, n.s).Writes? || ServerKind(ss, n.s).Works? {
      ServerNextDescends(ss, n.s);
    } else if n.toServer != [] {
      ServerGotDescends(ss, n.s, n.toServer[0]);
    }
  }

  lemma ClientDescends(ss: Session, n: Net)
    requires ClientStep(ss, n).Some?
    ensures Left(ss, ClientStep(ss, n).value) < Left(ss, n)
  {
    hide ClientKind, ClientNext, ClientGot, ServerLeft, ClientLeft;
    NotDoneYet(ss, n);
    if ClientKind(ss, n.c).Writes? || ClientKind(ss, n.c).Works? {
      ClientNextDescends(ss, n.c);
    } else if n.toClient != [] {
      ClientGotDescends(ss, n.c, n.toClient[0]);
    }
  }

  /** A turn that changes anything leaves less to do. */
  lemma TurnDescends(ss: Session, n: Net, turn: Turn)
    ensures Advance(ss, n, turn) == n || Left(ss, Advance(ss, n, turn)) < Left(ss, n)
  {
    hide ServerStep, ClientStep, ServerLeft, ClientLeft;
    NotDoneYet(ss, n);
    match turn {
      case RunClient => if ClientStep(ss, n).Some? { ClientDescends(ss, n); }
      case RunServer => if ServerStep(ss, n).Some? { ServerDescends(ss, n); }
      case _ =>
    }
  }

  // ---- Whole sessions ----

  /** The turns that changed something. */
  function StepsTaken(ss: Session, turns: seq<Turn>): nat {
    if turns == [] then 0
    else
      var before := turns[..|turns| - 1];
      StepsTaken(ss, before) + if Converse(ss, turns) == Converse(ss, before) then 0 else 1
  }

  lemma {:induction false} StepsArePaidFor(ss: Session, turns: seq<Turn>)
    ensures StepsTaken(ss, turns) + Left(ss, Converse(ss, turns)) <= Left(ss, Dialled())
  {
    hide Advance, Left;
    if turns != [] {
      var before := turns[..|turns| - 1];
      StepsArePaidFor(ss, before);
      TurnDescends(ss, Converse(ss, before), turns[|turns| - 1]);
    }
  }

  /** No session, with any client wishes, modules, buffers and failures, takes more than this many steps. */
  lemma StepsAreBounded(ss: Session, turns: seq<Turn>)
    ensures StepsTaken(ss, turns) <= 18 * N(ss.setup) + 4 * |ss.listing| + 80
  {
    StepsArePaidFor(ss, turns);
    hide StepsTaken, Converse;
  }

  /** The scheduler's turn, or that of a side that can go on when it would change nothing. */
  function Effective(ss: Session, n: Net, turn: Turn): Turn {
    if Advance(ss, n, turn) != n then turn
    else if ClientStep(ss, n).Some? then RunClient
    else RunServer
  }

  lemma EffectiveDescends(ss: Session, n: Net, turn: Turn)
    requires Dials(ss) && SessionInv(ss, n) && 1 <= ss.capacity && !(n.c.ClientStopped? && n.s.ServerStopped?)
    ensures Left(ss, Advance(ss, n, Effective(ss, n, turn))) < Left(ss, n)
    ensures SessionInv(ss, Advance(ss, n, Effective(ss, n, turn)))
  {
    hide ServerStep, ClientStep, Left, SessionInv, Dials;
    SessionNeverStalls(ss, n);
    TurnDescends(ss, n, turn);
    if ClientStep(ss, n).Some? {
      ClientDescends(ss, n);
    }
    if ServerStep(ss, n).Some? {
      ServerDescends(ss, n);
    }
    TurnKeeps(ss, n, Effective(ss, n, turn));
  }

  lemma TurnKeeps(ss: Session, n: Net, turn: Turn)
    requires Dials(ss) && SessionInv(ss, n)
    ensures SessionInv(ss, Advance(ss, n, turn))
  {
    hide SessionInv, ServerStep, ClientStep, Dials;
    match turn {
      case RunClient => if ClientStep(ss, n).Some? { ClientKeeps(ss, n); }
      case RunServer => if ServerStep(ss, n).Some? { ServerKeeps(ss, n); }
      case BreakClient => BreakKeeps(ss, n, BreakClient);
      case BreakServer => BreakKeeps(ss, n, BreakServer);
    }
  }

  predicate BothStopped(n: Net) {
    n.c.ClientStopped? && n.s.ServerStopped?
  }

  function From(ss: Session, n: Net, turns: seq<Turn>): Net
    decreases |turns|
  {
    if turns == [] then n else From(ss, Advance(ss, n, turns[0]), turns[1..])
  }

  lemma {:induction false} FromIsConverse(ss: Session, done: seq<Turn>, rest: seq<Turn>)
    ensures Converse(ss, done + rest) == From(ss, Converse(ss, done), rest)
    decreases |rest|
  {
    hide Advance;
    if rest == [] {
      assert done + rest == done;
    } else {
      var longer := done + [rest[0]];
      assert longer + rest[1..] == done + rest && longer[..|longer| - 1] == done;
      FromIsConverse(ss, longer, rest[1..]);
    }
  }

  /** What is left to run under a scheduler that decides, step by step, whom to run and whom to break. */
  ghost function Completion(ss: Session, n: Net, pick: Net -> Turn): (rest: seq<Turn>)
    requires Dials(ss) && 1 <= ss.capacity && SessionInv(ss, n)
    ensures BothStopped(From(ss, n, rest))
    decreases Left(ss, n)
  {
    if BothStopped(n) then []
    else
      EffectiveDescends(ss, n, pick(n));
      var turn := Effective(ss, n, pick(n));
      [turn] + Completion(ss, Advance(ss, n, turn), pick)
  }

  /** Whatever has happened, and whoever schedules the rest, both sides return. */
  lemma EverySessionEnds(ss: Session, done: seq<Turn>, pick: Net -> Turn) returns (rest: seq<Turn>)
    requires Dials(ss) && 1 <= ss.capacity
    ensures BothStopped(Converse(ss, done + rest))
    ensures SessionInv(ss, Converse(ss, done)) && rest == Completion(ss, Converse(ss, done), pick)
  {
    hide Dials, SessionInv;
    EverySession(ss, done);
    rest := Completion(ss, Converse(ss, done), pick);
    FromIsConverse(ss, done, rest);
  }
}
