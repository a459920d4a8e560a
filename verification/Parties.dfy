/**
 * ServeConn and DialClient as the source writes them: one call after another
 * on a connection (internal/daemon/server.go, client.go, session.go, auth.go,
 * protocol.go), up to where the connection is handed to Sender or Receiver.
 * Each call is proved to be a run of the corresponding state machine.
 */
module Parties {
  import opened Prelude
  import opened Receiver
  import opened Daemon

  /** One side's end of the connection: what it has still to read, and what it has written. */
  class Conn {
    var inbox: seq<Item>
    var outbox: seq<Item>

    method WriteLine(line: string)
      modifies this`outbox
      ensures outbox == old(outbox) + [Text(line)]
    {
      outbox := outbox + [Text(line)];
    }

    /** A line; anything else, or nothing, is an error. What is there is consumed. */
    method ReadLine() returns (line: Option<string>)
      modifies this`inbox
      ensures old(inbox) == [] ==> line == None && inbox == []
      ensures old(inbox) != [] ==> inbox == old(inbox)[1..] && line == (if old(inbox)[0].Text? then Some(old(inbox)[0].line) else None)
    {
      if inbox == [] {
        return None;
      }
      line := if inbox[0].Text? then Some(inbox[0].line) else None;
      inbox := inbox[1..];
    }
  }

  // ---- The machines on a fixed inbox ----

  datatype Played<P> = Played(pc: P, rest: seq<Item>, wrote: seq<Item>)

  /** n steps of the server's machine; an empty inbox is a lost connection. */
  function ServerPlays(ss: Session, s: ServerPc, inbox: seq<Item>, n: nat): Played<ServerPc> {
    if n == 0 then Played(s, inbox, [])
    else
      var before := ServerPlays(ss, s, inbox, n - 1);
      match ServerKind(ss, before.pc)
      case Writes(item) => Played(ServerNext(ss, before.pc), before.rest, before.wrote + [item])
      case Works => before.(pc := ServerNext(ss, before.pc))
      case Rests => before
      case _ =>
        if before.rest == [] then before.(pc := FAILED)
        else before.(pc := ServerGot(ss, before.pc, before.rest[0]), rest := before.rest[1..])
  }

  function ClientPlays(ss: Session, c: ClientPc, inbox: seq<Item>, n: nat): Played<ClientPc> {
    if n == 0 then Played(c, inbox, [])
    else
      var before := ClientPlays(ss, c, inbox, n - 1);
      match ClientKind(ss, before.pc)
      case Writes(item) => Played(ClientNext(ss, before.pc), before.rest, before.wrote + [item])
      case Works => before.(pc := ClientNext(ss, before.pc))
      case Rests => before
      case _ =>
        if before.rest == [] then before.(pc := GAVE_UP)
        else before.(pc := ClientGot(ss, before.pc, before.rest[0]), rest := before.rest[1..])
  }

  lemma {:induction false} ServerPlaysOn(ss: Session, s: ServerPc, inbox: seq<Item>, n: nat, m: nat)
    ensures var first := ServerPlays(ss, s, inbox, n);
      var second := ServerPlays(ss, first.pc, first.rest, m);
      ServerPlays(ss, s, inbox, n + m) == Played(second.pc, second.rest, first.wrote + second.wrote)
  {
    hide ServerKind, ServerNext, ServerGot;
    var first := ServerPlays(ss, s, inbox, n);
    if m == 0 {
      assert first.wrote + [] == first.wrote;
    } else {
      ServerPlaysOn(ss, s, inbox, n, m - 1);
      assert n + m - 1 == n + (m - 1);
    }
  }

  lemma {:induction false} ClientPlaysOn(ss: Session, c: ClientPc, inbox: seq<Item>, n: nat, m: nat)
    ensures var first := ClientPlays(ss, c, inbox, n);
      var second := ClientPlays(ss, first.pc, first.rest, m);
      ClientPlays(ss, c, inbox, n + m) == Played(second.pc, second.rest, first.wrote + second.wrote)
  {
    hide ClientKind, ClientNext, ClientGot;
    var first := ClientPlays(ss, c, inbox, n);
    if m == 0 {
      assert first.wrote + [] == first.wrote;
    } else {
      ClientPlaysOn(ss, c, inbox, n, m - 1);
      assert n + m - 1 == n + (m - 1);
    }
  }

  /** The machine went from s to `to` on this inbox and left the connection as it now is. */
  ghost predicate ServerDid(ss: Session, s: ServerPc, to: ServerPc, inbox: seq<Item>, rest: seq<Item>, before: seq<Item>, after: seq<Item>, n: nat) {
    var played := ServerPlays(ss, s, inbox, n);
    played.pc == to && played.rest == rest && after == before + played.wrote
  }

  ghost predicate ClientDid(ss: Session, c: ClientPc, to: ClientPc, inbox: seq<Item>, rest: seq<Item>, before: seq<Item>, after: seq<Item>, n: nat) {
    var played := ClientPlays(ss, c, inbox, n);
    played.pc == to && played.rest == rest && after == before + played.wrote
  }

  // ---- The server ----

  /** How ServeGreeting and ServeAuth come back. */
  datatype Step<T> = Next(value: T) | Ended(ok: bool)

  lemma ServerJoins(ss: Session, s: ServerPc, mid: ServerPc, to: ServerPc, i0: seq<Item>, i1: seq<Item>, i2: seq<Item>,
                    o0: seq<Item>, o1: seq<Item>, o2: seq<Item>, n: nat, m: nat)
    requires ServerDid(ss, s, mid, i0, i1, o0, o1, n) && ServerDid(ss, mid, to, i1, i2, o1, o2, m)
    ensures ServerDid(ss, s, to, i0, i2, o0, o2, n + m)
  {
    hide ServerPlays;
    ServerPlaysOn(ss, s, i0, n, m);
  }

  lemma ClientJoins(ss: Session, c: ClientPc, mid: ClientPc, to: ClientPc, i0: seq<Item>, i1: seq<Item>, i2: seq<Item>,
                    o0: seq<Item>, o1: seq<Item>, o2: seq<Item>, n: nat, m: nat)
    requires ClientDid(ss, c, mid, i0, i1, o0, o1, n) && ClientDid(ss, mid, to, i1, i2, o1, o2, m)
    ensures ClientDid(ss, c, to, i0, i2, o0, o2, n + m)
  {
    hide ClientPlays;
    ClientPlaysOn(ss, c, i0, n, m);
  }

  lemma ServerWrote(ss: Session, s: ServerPc, inbox: seq<Item>, before: seq<Item>)
    requires ServerKind(ss, s).Writes?
    ensures ServerDid(ss, s, ServerNext(ss, s), inbox, inbox, before, before + [ServerKind(ss, s).item], 1)
  {
    hide ServerKind, ServerNext, ServerGot;
    assert ServerPlays(ss, s, inbox, 0) == Played(s, inbox, []);
  }

  lemma ServerRead(ss: Session, s: ServerPc, inbox: seq<Item>, before: seq<Item>)
    requires ServerKind(ss, s) == ReadsLine
    ensures var to := if inbox == [] || inbox[0].Packet? then FAILED else ServerOnLine(ss, s, inbox[0].line);
      ServerDid(ss, s, to, inbox, if inbox == [] then [] else inbox[1..], before, before, 1)
  {
    hide ServerKind, ServerNext, ServerOnLine;
    assert ServerPlays(ss, s, inbox, 0) == Played(s, inbox, []);
  }

  lemma ServerRested(ss: Session, s: ServerPc, inbox: seq<Item>, before: seq<Item>)
    ensures ServerDid(ss, s, s, inbox, inbox, before, before, 0)
  {
  }

  /** The machine on this connection, step by step beside the code. */
  ghost predicate ServerAt(ss: Session, s: ServerPc, now: ServerPc, i0: seq<Item>, o0: seq<Item>, conn: Conn, n: nat)
    reads conn
  {
    ServerDid(ss, s, now, i0, conn.inbox, o0, conn.outbox, n)
  }

  method Write(ss: Session, conn: Conn, ghost s: ServerPc, ghost now: ServerPc, ghost i0: seq<Item>, ghost o0: seq<Item>, ghost n: nat, line: string)
    requires ServerAt(ss, s, now, i0, o0, conn, n) && ServerKind(ss, now) == Writes(Text(line))
    modifies conn
    ensures ServerAt(ss, s, ServerNext(ss, now), i0, o0, conn, n + 1)
  {
    hide ServerDid, ServerKind, ServerNext;
    ServerWrote(ss, now, conn.inbox, conn.outbox);
    ServerJoins(ss, s, now, ServerNext(ss, now), i0, conn.inbox, conn.inbox, o0, conn.outbox, conn.outbox + [Text(line)], n, 1);
    conn.WriteLine(line);
  }

  method Read(ss: Session, conn: Conn, ghost s: ServerPc, ghost now: ServerPc, ghost i0: seq<Item>, ghost o0: seq<Item>, ghost n: nat) returns (line: Option<string>)
    requires ServerAt(ss, s, now, i0, o0, conn, n) && ServerKind(ss, now) == ReadsLine
    modifies conn
    ensures ServerAt(ss, s, if line.None? then FAILED else ServerOnLine(ss, now, line.value), i0, o0, conn, n + 1)
  {
    hide ServerDid, ServerKind, ServerOnLine;
    ghost var inbox := conn.inbox;
    ServerRead(ss, now, inbox, conn.outbox);
    line := conn.ReadLine();
    ServerJoins(ss, s, now, if line.None? then FAILED else ServerOnLine(ss, now, line.value), i0, inbox, conn.inbox, o0, conn.outbox, conn.outbox, n, 1);
  }

  method ServeGreeting(ss: Session, conn: Conn) returns (r: Step<Module>, ghost n: nat)
    modifies conn
    ensures ServerAt(ss, Greet, if r.Next? then StartAuth(r.value) else ServerStopped(r.ok, None), old(conn.inbox), old(conn.outbox), conn, n)
  {
    hide ServerDid, ParseGreeting;
    ghost var i0, o0 := conn.inbox, conn.outbox;
    ServerRested(ss, Greet, i0, o0);
    Write(ss, conn, Greet, Greet, i0, o0, 0, GREETING);
    var greeting := Read(ss, conn, Greet, WantGreeting, i0, o0, 1);
    if greeting.None? || ParseGreeting(greeting.value).None? {
      return Ended(false), 2;
    }
    var request := Read(ss, conn, Greet, WantModule, i0, o0, 2);
    n := 3;
    if request.None? {
      return Ended(false), n;
    }
    if request.value == LIST {
      for i := 0 to |ss.listing|
        invariant ServerAt(ss, Greet, Listing(ss.listing[i..]), i0, o0, conn, n)
      {
        assert ss.listing[i..][1..] == ss.listing[i + 1..];
        Write(ss, conn, Greet, Listing(ss.listing[i..]), i0, o0, n, ss.listing[i]);
        n := n + 1;
      }
      assert ss.listing[|ss.listing|..] == [];
      Write(ss, conn, Greet, Listing([]), i0, o0, n, EXIT);
      return Ended(true), n + 1;
    }
    if request.value !in ss.modules {
      var line := "@ERROR: Unknown module " + ss.quote(request.value);
      Write(ss, conn, Greet, Refuse(line), i0, o0, n, line);
      return Ended(false), n + 1;
    }
    return Next(ss.modules[request.value]), n;
  }

  method ServeAuth(ss: Session, conn: Conn, m: Module) returns (r: Step<Option<string>>, ghost n: nat)
    modifies conn
    ensures ServerAt(ss, StartAuth(m), if r.Next? then WantDirection(m, r.value) else ServerStopped(r.ok, None), old(conn.inbox), old(conn.outbox), conn, n)
    ensures r.Next? ==> Cleared(ss, m, r.value)
  {
    hide ServerDid, CheckAuth;
    ghost var i0, o0 := conn.inbox, conn.outbox;
    ServerRested(ss, StartAuth(m), i0, o0);
    if !m.AuthRequired() {
      Write(ss, conn, StartAuth(m), StartAuth(m), i0, o0, 0, OK);
      return Next(None), 1;
    }
    Write(ss, conn, StartAuth(m), StartAuth(m), i0, o0, 0, AUTHREQD + ss.challenge);
    var line := Read(ss, conn, StartAuth(m), WantResponse(m), i0, o0, 1);
    if line.None? {
      return Ended(false), 2;
    }
    if CheckAuth(ss, m, line.value).None? {
      var refusal := "@ERROR: auth failed on module " + m.name;
      Write(ss, conn, StartAuth(m), Refuse(refusal), i0, o0, 2, refusal);
      return Ended(false), 3;
    }
    Write(ss, conn, StartAuth(m), Accept(m, line), i0, o0, 2, OK);
    return Next(line), 3;
  }

  /** ServeModule up to the transfer: the direction, and whether it is to be dry. */
  method ServeModule(ss: Session, conn: Conn, m: Module, answer: Option<string>) returns (r: Step<(Direction, bool)>, ghost n: nat)
    modifies conn
    ensures ServerAt(ss, WantDirection(m, answer), AfterDirection(m, answer, r), old(conn.inbox), old(conn.outbox), conn, n)
    ensures r.Next? && r.value.0 == Put ==> !m.readOnly
  {
    hide ServerDid, Fields;
    ghost var s, i0, o0 := WantDirection(m, answer), conn.inbox, conn.outbox;
    ServerRested(ss, s, i0, o0);
    var line := Read(ss, conn, s, s, i0, o0, 0);
    if line.None? {
      return Ended(false), 1;
    }
    var fields := Fields(line.value);
    if fields == [] {
      var refusal := "@ERROR: invalid direction " + ss.quote(line.value);
      Write(ss, conn, s, Refuse(refusal), i0, o0, 1, refusal);
      return Ended(false), 2;
    }
    var dry := fields[0] == "put" && |fields| > 1 && fields[1] == DRY_RUN;
    if fields[0] == "put" && m.readOnly {
      Write(ss, conn, s, Refuse("@ERROR: module is read only"), i0, o0, 1, "@ERROR: module is read only");
      return Ended(false), 2;
    }
    if fields[0] != "get" && fields[0] != "put" {
      var refusal := "@ERROR: invalid direction " + ss.quote(line.value);
      Write(ss, conn, s, Refuse(refusal), i0, o0, 1, refusal);
      return Ended(false), 2;
    }
    var direction := if fields[0] == "get" then Get else Put;
    Write(ss, conn, s, Acknowledge(m, answer, direction, dry), i0, o0, 1, OK);
    return Next((direction, dry)), 2;
  }

  function AfterDirection(m: Module, answer: Option<string>, r: Step<(Direction, bool)>): ServerPc {
    match r
    case Next((direction, dry)) => if direction == Get then Serving(m, answer, SendList) else Storing(m, answer, dry, WantList)
    case Ended(ok) => ServerStopped(ok, None)
  }

  /** What ServeConn knows when it hands the connection over. */
  datatype Handover = Handover(m: Module, answer: Option<string>, direction: Direction, dry: bool)

  /** ServeConn up to the transfer. It gets there only past authentication, and never with a read-only module to Receiver. */
  method ServeConn(ss: Session, conn: Conn) returns (r: Step<Handover>, ghost n: nat)
    modifies conn
    ensures ServerAt(ss, Greet, if r.Next? then AfterDirection(r.value.m, r.value.answer, Next((r.value.direction, r.value.dry))) else ServerStopped(r.ok, None),
                     old(conn.inbox), old(conn.outbox), conn, n)
    ensures r.Next? ==> Cleared(ss, r.value.m, r.value.answer) && (r.value.direction == Put ==> !r.value.m.readOnly)
  {
    hide ServerDid, Cleared;
    ghost var i0, o0 := conn.inbox, conn.outbox;
    var greeted, k := ServeGreeting(ss, conn);
    n := k;
    if greeted.Ended? {
      return Ended(greeted.ok), n;
    }
    var m := greeted.value;
    ghost var i1, o1 := conn.inbox, conn.outbox;
    var authenticated;
    authenticated, k := ServeAuth(ss, conn, m);
    ghost var to := if authenticated.Next? then WantDirection(m, authenticated.value) else ServerStopped(authenticated.ok, None);
    ServerJoins(ss, Greet, StartAuth(m), to, i0, i1, conn.inbox, o0, o1, conn.outbox, n, k);
    n := n + k;
    if authenticated.Ended? {
      return Ended(authenticated.ok), n;
    }
    i1, o1 := conn.inbox, conn.outbox;
    var chosen;
    chosen, k := ServeModule(ss, conn, m, authenticated.value);
    ServerJoins(ss, Greet, to, AfterDirection(m, authenticated.value, chosen), i0, i1, conn.inbox, o0, o1, conn.outbox, n, k);
    n := n + k;
    if chosen.Ended? {
      return Ended(chosen.ok), n;
    }
    return Next(Handover(m, authenticated.value, chosen.value.0, chosen.value.1)), n;
  }

  // ---- The client ----

  ghost predicate ClientAt(ss: Session, c: ClientPc, now: ClientPc, i0: seq<Item>, o0: seq<Item>, conn: Conn, n: nat)
    reads conn
  {
    ClientDid(ss, c, now, i0, conn.inbox, o0, conn.outbox, n)
  }

  lemma ClientWrote(ss: Session, c: ClientPc, inbox: seq<Item>, before: seq<Item>)
    requires ClientKind(ss, c).Writes?
    ensures ClientDid(ss, c, ClientNext(ss, c), inbox, inbox, before, before + [ClientKind(ss, c).item], 1)
  {
    hide ClientKind, ClientNext, ClientGot;
    assert ClientPlays(ss, c, inbox, 0) == Played(c, inbox, []);
  }

  lemma ClientRead(ss: Session, c: ClientPc, inbox: seq<Item>, before: seq<Item>)
    requires ClientKind(ss, c) == ReadsLine
    ensures var to := if inbox == [] || inbox[0].Packet? then GAVE_UP else ClientOnLine(ss, c, inbox[0].line);
      ClientDid(ss, c, to, inbox, if inbox == [] then [] else inbox[1..], before, before, 1)
  {
    hide ClientKind, ClientNext, ClientOnLine;
    assert ClientPlays(ss, c, inbox, 0) == Played(c, inbox, []);
  }

  method Tell(ss: Session, conn: Conn, ghost c: ClientPc, ghost now: ClientPc, ghost i0: seq<Item>, ghost o0: seq<Item>, ghost n: nat, line: string)
    requires ClientAt(ss, c, now, i0, o0, conn, n) && ClientKind(ss, now) == Writes(Text(line))
    modifies conn
    ensures ClientAt(ss, c, ClientNext(ss, now), i0, o0, conn, n + 1) && conn.inbox == old(conn.inbox)
  {
    hide ClientDid, ClientKind, ClientNext;
    ClientWrote(ss, now, conn.inbox, conn.outbox);
    ClientJoins(ss, c, now, ClientNext(ss, now), i0, conn.inbox, conn.inbox, o0, conn.outbox, conn.outbox + [Text(line)], n, 1);
    conn.WriteLine(line);
  }

  method Hear(ss: Session, conn: Conn, ghost c: ClientPc, ghost now: ClientPc, ghost i0: seq<Item>, ghost o0: seq<Item>, ghost n: nat) returns (line: Option<string>)
    requires ClientAt(ss, c, now, i0, o0, conn, n) && ClientKind(ss, now) == ReadsLine
    modifies conn
    ensures ClientAt(ss, c, if line.None? then GAVE_UP else ClientOnLine(ss, now, line.value), i0, o0, conn, n + 1)
    ensures line.Some? ==> |conn.inbox| < |old(conn.inbox)|
  {
    hide ClientDid, ClientKind, ClientOnLine;
    ghost var inbox := conn.inbox;
    ClientRead(ss, now, inbox, conn.outbox);
    line := conn.ReadLine();
    ClientJoins(ss, c, now, if line.None? then GAVE_UP else ClientOnLine(ss, now, line.value), i0, inbox, conn.inbox, o0, conn.outbox, conn.outbox, n, 1);
  }

  /** DialAuth: answers challenges until the server says OK. */
  method DialAuth(ss: Session, conn: Conn, ghost c: ClientPc, ghost i0: seq<Item>, ghost o0: seq<Item>, ghost start: nat) returns (ok: bool, ghost n: nat)
    requires ClientAt(ss, c, AwaitAuth, i0, o0, conn, start)
    modifies conn
    ensures ClientAt(ss, c, if ok then SayDirection else GAVE_UP, i0, o0, conn, n)
  {
    hide ClientDid;
    n := start;
    while true
      invariant ClientAt(ss, c, AwaitAuth, i0, o0, conn, n)
      decreases |conn.inbox|
    {
      var line := Hear(ss, conn, c, AwaitAuth, i0, o0, n);
      n := n + 1;
      if line.None? {
        return false, n;
      }
      if AUTHREQD <= line.value {
        var challenge := line.value[|AUTHREQD|..];
        var user := if ss.user == "" then "nobody" else ss.user;
        if ss.password.None? {
          return false, n;
        }
        var response := user + " " + ss.hash(ss.password.value, challenge);
        Tell(ss, conn, c, Respond(response), i0, o0, n, response);
        n := n + 1;
        continue;
      }
      return line.value == OK, n;
    }
  }

  /** DialClient up to the transfer, in the direction the session asks for. */
  method DialClient(ss: Session, conn: Conn) returns (ok: bool, ghost n: nat)
    modifies conn
    ensures ss.name == "" ==> !ok && conn.inbox == old(conn.inbox) && conn.outbox == old(conn.outbox)
    ensures ss.name != "" ==>
      ClientAt(ss, AwaitGreeting, if !ok then GAVE_UP else if ss.direction == Get then Downloading(WantList) else Uploading(SendList),
               old(conn.inbox), old(conn.outbox), conn, n)
  {
    hide ClientDid, ParseGreeting, DirectionLine;
    if ss.name == "" {
      return false, 0;
    }
    ghost var c, i0, o0 := AwaitGreeting, conn.inbox, conn.outbox;
    assert ClientAt(ss, c, AwaitGreeting, i0, o0, conn, 0) by {
      ClientRested(ss, c, i0, o0);
    }
    var greeting := Hear(ss, conn, c, AwaitGreeting, i0, o0, 0);
    if greeting.None? || ParseGreeting(greeting.value).None? {
      return false, 1;
    }
    Tell(ss, conn, c, GreetBack, i0, o0, 1, GREETING);
    Tell(ss, conn, c, Select, i0, o0, 2, ss.name);
    ok, n := DialAuth(ss, conn, c, i0, o0, 3);
    if !ok {
      return false, n;
    }
    Tell(ss, conn, c, SayDirection, i0, o0, n, DirectionLine(ss));
    var ack := Hear(ss, conn, c, AwaitAck, i0, o0, n + 1);
    n := n + 2;
    return ack == Some(OK), n;
  }

  lemma ClientRested(ss: Session, c: ClientPc, inbox: seq<Item>, before: seq<Item>)
    ensures ClientDid(ss, c, c, inbox, inbox, before, before, 0)
  {
  }
}
