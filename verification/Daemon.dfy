/**
 * The daemon protocol (internal/daemon): greeting, authentication, direction,
 * acknowledgement, transfer and done line, as two state machines that share
 * one connection. Each step is at most one read or write of a line or frame.
 */
module Daemon {
  import opened Prelude
  import opened Entries
  import opened Receiver
  import opened SyncRun
  import opened LocalSync
  import opened Lockstep

  // ---- Text ----

  predicate Blank(c: char) {
    c == ' ' || c == '\t' || c == '\n' || c == '\r' || c as int == 11 || c as int == 12
  }

  function FirstWord(s: string): (w: string)
    ensures |w| <= |s|
  {
    if s == "" || Blank(s[0]) then "" else [s[0]] + FirstWord(s[1..])
  }

  /** strings.Fields on ASCII white space. */
  function Fields(s: string): seq<string>
    decreases |s|
  {
    if s == "" then []
    else if Blank(s[0]) then Fields(s[1..])
    else [FirstWord(s)] + Fields(s[|FirstWord(s)|..])
  }

  /** strings.Cut at the first space. */
  function CutAtSpace(s: string): Option<(string, string)> {
    if s == "" then None
    else if s[0] == ' ' then Some(("", s[1..]))
    else
      match CutAtSpace(s[1..])
      case None => None
      case Some((front, back)) => Some(([s[0]] + front, back))
  }

  predicate Digit(c: char) {
    '0' <= c <= '9'
  }

  function DigitsValue(s: string): nat {
    if s == "" then 0 else DigitsValue(s[..|s| - 1]) * 10 + if Digit(s[|s| - 1]) then s[|s| - 1] as int - '0' as int else 0
  }

  const MAX_INT := 0x7fff_ffff_ffff_ffff

  predicate AllDigits(s: string) {
    forall i :: 0 <= i < |s| ==> Digit(s[i])
  }

  /** strconv.Atoi. */
  function Atoi(s: string): Option<int> {
    var negative := s != "" && s[0] == '-';
    var digits := if s != "" && (s[0] == '-' || s[0] == '+') then s[1..] else s;
    if digits == "" || !AllDigits(digits) then None
    else if DigitsValue(digits) > (if negative then MAX_INT + 1 else MAX_INT) then None
    else
      var value: int := DigitsValue(digits);
      Some(if negative then -value else value)
  }

  /** The part of s before the first dot, and what follows the dot if there is one. */
  function CutAtDot(s: string): (string, Option<string>) {
    if s == "" then ("", None)
    else if s[0] == '.' then ("", Some(s[1..]))
    else
      var (front, back) := CutAtDot(s[1..]);
      ([s[0]] + front, back)
  }

  const GREETING_PREFIX := "@RSYNCD: "

  /** readGreeting: version and subprotocol. */
  function ParseGreeting(line: string): Option<(int, int)> {
    if !(GREETING_PREFIX <= line) then None
    else
      var fields := Fields(line[|GREETING_PREFIX|..]);
      if fields == [] then None
      else
        var (front, back) := CutAtDot(fields[0]);
        match Atoi(front)
        case None => None
        case Some(version) =>
          if back.None? then Some((version, 0))
          else
            match Atoi(back.value)
            case None => None
            case Some(sub) => Some((version, sub))
  }

  const VERSION := "31"
  const SUB_VERSION := "0"

  lemma {:induction false} WordAlone(w: string)
    requires w != "" && forall i :: 0 <= i < |w| ==> !Blank(w[i])
    ensures FirstWord(w) == w && Fields(w) == [w]
  {
    WordThen(w, "");
    assert w + "" == w;
    assert Fields("") == [];
  }

  /** A word followed by nothing or by white space. */
  lemma {:induction false} WordThen(w: string, rest: string)
    requires forall i :: 0 <= i < |w| ==> !Blank(w[i])
    requires rest == "" || Blank(rest[0])
    ensures FirstWord(w + rest) == w
    ensures w != "" ==> Fields(w + rest) == [w] + Fields(rest)
  {
    if w == "" {
      assert w + rest == rest;
    } else {
      WordThen(w[1..], rest);
      assert (w + rest)[1..] == w[1..] + rest && w == [w[0]] + w[1..];
      assert (w + rest)[|w|..] == rest;
    }
  }

  lemma {:induction false} CutOfDotted(a: string, b: string)
    requires '.' !in a
    ensures CutAtDot(a + "." + b) == (a, Some(b))
  {
    if a == "" {
      assert (a + "." + b)[1..] == b;
    } else {
      CutOfDotted(a[1..], b);
      assert (a + "." + b)[1..] == a[1..] + "." + b && a == [a[0]] + a[1..];
    }
  }

  /** Our own greeting is one we accept. */
  lemma OwnGreetingIsAccepted()
    ensures ParseGreeting(GREETING) == Some((31, 0))
  {
    var versions := VERSION + "." + SUB_VERSION;
    assert GREETING == GREETING_PREFIX + versions;
    assert GREETING[|GREETING_PREFIX|..] == versions;
    WordAlone(versions);
    CutOfDotted(VERSION, SUB_VERSION);
    assert VERSION[..1] == "3" && "3"[..0] == "" && SUB_VERSION[..0] == "";
    assert DigitsValue("3") == 3 && DigitsValue(VERSION) == 31 && DigitsValue(SUB_VERSION) == 0;
  }

  // ---- Modules, and who may use them ----

  /** secrets is what readSecretsFile makes of the secrets file; rulesOk whether the exclude rules compile. */
  datatype Module = Module(name: string, readOnly: bool, authUsers: seq<string>, secrets: Option<map<string, string>>, rulesOk: bool)
  {
    predicate AuthRequired() {
      authUsers != []
    }
  }

  datatype Direction = Get | Put

  /**
   * One session: the server's modules, hash and challenge, what it prints of a
   * bad request; the client's wishes; the transfer itself; and how many lines
   * or frames the connection buffers in each direction.
   */
  datatype Session = Session(
    modules: map<string, Module>, hash: (string, string) -> string, challenge: string, quote: string -> string, listing: seq<string>,
    name: string, user: string, password: Option<string>, direction: Direction, dryRun: bool,
    setup: Setup, capacity: nat)

  const GREETING := "@RSYNCD: 31.0"
  const OK := "@RSYNCD: OK"
  const AUTHREQD := "@RSYNCD: AUTHREQD "
  const EXIT := "@RSYNCD: EXIT"
  const ERROR := "@ERROR"
  const DONE := "@GRSYNC: DONE"
  const LIST := "#list"
  const DRY_RUN := "--dry-run"

  function DirectionName(d: Direction): string {
    match d
    case Get => "get"
    case Put => "put"
  }

  /** The user whose secret the response line proves, if any. */
  function CheckAuth(ss: Session, m: Module, line: string): Option<string> {
    match CutAtSpace(line)
    case None => None
    case Some((user, response)) =>
      if user in m.authUsers && m.secrets.Some? && user in m.secrets.value && response == ss.hash(m.secrets.value[user], ss.challenge)
      then Some(user) else None
  }

  lemma {:induction false} CutIsFirstSpace(s: string)
    ensures CutAtSpace(s).None? <==> ' ' !in s
    ensures CutAtSpace(s).Some? ==> s == CutAtSpace(s).value.0 + " " + CutAtSpace(s).value.1 && ' ' !in CutAtSpace(s).value.0
  {
    if s != "" && s[0] != ' ' {
      CutIsFirstSpace(s[1..]);
      assert s == [s[0]] + s[1..];
    }
  }

  lemma {:induction false} CutOfJoin(a: string, b: string)
    requires ' ' !in a
    ensures CutAtSpace(a + " " + b) == Some((a, b))
  {
    if a == "" {
      assert (a + " " + b)[1..] == b;
    } else {
      CutOfJoin(a[1..], b);
      assert (a + " " + b)[1..] == a[1..] + " " + b;
      assert [a[0]] + a[1..] == a;
    }
  }

  /** A response is accepted exactly when it is an allowed user's name, a space, and the hash of that user's secret. */
  lemma AuthIffSecretIsKnown(ss: Session, m: Module, line: string, user: string)
    ensures CheckAuth(ss, m, line) == Some(user) <==>
      && ' ' !in user && user in m.authUsers && m.secrets.Some? && user in m.secrets.value
      && line == user + " " + ss.hash(m.secrets.value[user], ss.challenge)
  {
    CutIsFirstSpace(line);
    if ' ' !in user && user in m.authUsers && m.secrets.Some? && user in m.secrets.value {
      CutOfJoin(user, ss.hash(m.secrets.value[user], ss.challenge));
    }
  }

  // ---- The transfer as each side takes part in it ----

  datatype Item = Text(line: string) | Packet(msg: Message)

  /** What a side does next: write something, read a line or a frame, or work without the connection. */
  datatype Kind = Writes(item: Item) | ReadsLine | ReadsFrame | Works | Rests

  /** Sent: the last delta has been written. */
  datatype Outgoing = SendList | Look(i: nat) | WantSignature(i: nat) | SendDelta(i: nat, reply: Message) | Sent

  datatype Incoming =
    | WantList
    | Handling(k: nat, st: State)
    | SendSignature(k: nat, st: State, plan: Plan)
    | WantDelta(k: nat, st: State, plan: Plan)
    | Received(st: State)

  function OutgoingKind(t: Setup, x: Outgoing): Kind {
    match x
    case SendList => Writes(Packet(FileListMsg(t.job.list)))
    case Look(_) => Works
    case WantSignature(_) => ReadsFrame
    case SendDelta(_, reply) => Writes(Packet(reply))
    case Sent => Rests
  }

  /** After its write or its own work. */
  function OutgoingNext(t: Setup, x: Outgoing): Outgoing {
    match x
    case SendList => Look(0)
    case Look(i) =>
      if i >= N(t) then Sent else if Transfers(t.job.list, Entry(t.job, i)) then WantSignature(i) else Look(i + 1)
    case SendDelta(i, _) => Look(i + 1)
    case _ => x
  }

  /** None: Sender returns an error. */
  function OutgoingGot(t: Setup, x: Outgoing, msg: Message): Option<Outgoing> {
    if !x.WantSignature? || x.i >= N(t) then None
    else
      match Reply(t.job.cfg, t.job.src, Entry(t.job, x.i), msg)
      case Err(_) => None
      case Ok(reply) => Some(SendDelta(x.i, reply))
  }

  function IncomingKind(t: Setup, x: Incoming): Kind {
    match x
    case WantList => ReadsFrame
    case Handling(_, _) => Works
    case SendSignature(k, _, plan) => if k < N(t) then Writes(Packet(SignatureFor(Entry(t.job, k), plan))) else Rests
    case WantDelta(_, _, _) => ReadsFrame
    case Received(_) => Rests
  }

  /** None: Receiver returns an error. */
  function IncomingNext(t: Setup, x: Incoming): Option<Incoming> {
    match x
    case Handling(k, st) =>
      if k >= N(t) then
        (match Passes(t.job.cfg, t.job.list, st.fs)
         case Err(_) => None
         case Ok(done) => Some(Received(st.(fs := done))))
      else if Transfers(t.job.list, Entry(t.job, k)) then
        (match Prepare(t.job.cfg, Entry(t.job, k), st.fs)
         case Err(_) => None
         case Ok(plan) => Some(SendSignature(k, st, plan)))
      else
        (match ReceiveLocal(t.job.cfg, Entry(t.job, k), st)
         case Err(_) => None
         case Ok(after) => Some(Handling(k + 1, after)))
    case SendSignature(k, st, plan) =>
      if k < N(t) then Some(WantDelta(k, CountSent(t.job.cfg, SignatureFor(Entry(t.job, k), plan), st), plan)) else None
    case _ => None
  }

  function IncomingGot(t: Setup, x: Incoming, msg: Message): Option<Incoming> {
    match x
    case WantList =>
      if msg == FileListMsg(t.job.list) then Some(Handling(0, CountReceived(t.job.cfg, msg, State(t.start, NO_STATS, [])))) else None
    case WantDelta(k, st, plan) =>
      if k >= N(t) then None
      else
        (match TakeDelta(t.job.cfg, Entry(t.job, k), plan, msg, st)
         case Err(_) => None
         case Ok(after) => Some(Handling(k + 1, after)))
    case _ => None
  }

  /** What a module preserves, whatever the client asks for. */
  const MODULE_ATTRS := AttrOptions(true, true, true, true, true)

  /** What the server receives into, given the dry-run token it read: no other option is set. */
  function ForServer(ss: Session, dry: bool): Setup {
    var ropts := ReceiverOptions(dry, false, false, false, None, false, false);
    ss.setup.(job := ss.setup.job.(cfg := ss.setup.job.cfg.(ropts := ropts, attrs := MODULE_ATTRS)))
  }

  // ---- The server (ServeConn) ----

  /** answer is the line that authenticated the client, where one was needed. */
  datatype ServerPc =
    | Greet
    | WantGreeting
    | WantModule
    | Listing(rest: seq<string>)
    | Refuse(line: string)
    | StartAuth(m: Module)
    | WantResponse(m: Module)
    | Accept(m: Module, answer: Option<string>)
    | WantDirection(m: Module, answer: Option<string>)
    | Acknowledge(m: Module, answer: Option<string>, dir: Direction, dry: bool)
    | Serving(m: Module, answer: Option<string>, out: Outgoing)
    | WantDone(m: Module, answer: Option<string>)
    | Storing(m: Module, answer: Option<string>, dry: bool, into: Incoming)
    | SayDone(m: Module, answer: Option<string>, dry: bool, st: State)
    | ServerStopped(ok: bool, stored: Option<State>)

  const FAILED := ServerStopped(false, None)

  function ServerKind(ss: Session, s: ServerPc): Kind {
    match s
    case Greet => Writes(Text(GREETING))
    case WantGreeting => ReadsLine
    case WantModule => ReadsLine
    case Listing(rest) => Writes(Text(if rest == [] then EXIT else rest[0]))
    case Refuse(line) => Writes(Text(line))
    case StartAuth(m) => Writes(Text(if m.AuthRequired() then AUTHREQD + ss.challenge else OK))
    case WantResponse(_) => ReadsLine
    case Accept(_, _) => Writes(Text(OK))
    case WantDirection(_, _) => ReadsLine
    case Acknowledge(_, _, _, _) => Writes(Text(OK))
    case Serving(m, _, out) => if m.rulesOk && !out.Sent? then OutgoingKind(ss.setup, out) else Works
    case WantDone(_, _) => ReadsLine
    case Storing(_, _, dry, into) => if into.Received? then Works else IncomingKind(ForServer(ss, dry), into)
    case SayDone(_, _, _, _) => Writes(Text(DONE))
    case ServerStopped(_, _) => Rests
  }

  /** After a write, or after work of its own. */
  function ServerNext(ss: Session, s: ServerPc): ServerPc {
    match s
    case Greet => WantGreeting
    case Listing(rest) => if rest == [] then ServerStopped(true, None) else Listing(rest[1..])
    case Refuse(_) => FAILED
    case StartAuth(m) => if m.AuthRequired() then WantResponse(m) else WantDirection(m, None)
    case Accept(m, answer) => WantDirection(m, answer)
    case Acknowledge(m, answer, dir, dry) => if dir == Get then Serving(m, answer, SendList) else Storing(m, answer, dry, WantList)
    case Serving(m, answer, out) =>
      if !m.rulesOk then FAILED else if out.Sent? then WantDone(m, answer) else Serving(m, answer, OutgoingNext(ss.setup, out))
    case Storing(m, answer, dry, into) =>
      if into.Received? then SayDone(m, answer, dry, into.st)
      else
        (match IncomingNext(ForServer(ss, dry), into)
         case None => FAILED
         case Some(next) => Storing(m, answer, dry, next))
    case SayDone(_, _, _, st) => ServerStopped(true, Some(st))
    case _ => s
  }

  function ServerOnLine(ss: Session, s: ServerPc, line: string): ServerPc {
    match s
    case WantGreeting => if ParseGreeting(line).Some? then WantModule else FAILED
    case WantModule =>
      if line == LIST then Listing(ss.listing)
      else if line in ss.modules then StartAuth(ss.modules[line])
      else Refuse("@ERROR: Unknown module " + ss.quote(line))
    case WantResponse(m) =>
      if CheckAuth(ss, m, line).Some? then Accept(m, Some(line)) else Refuse("@ERROR: auth failed on module " + m.name)
    case WantDirection(m, answer) =>
      var fields := Fields(line);
      if fields == [] then Refuse("@ERROR: invalid direction " + ss.quote(line))
      else if fields[0] == "put" && m.readOnly then Refuse("@ERROR: module is read only")
      else if fields[0] == "get" then Acknowledge(m, answer, Get, false)
      else if fields[0] == "put" then Acknowledge(m, answer, Put, |fields| > 1 && fields[1] == DRY_RUN)
      else Refuse("@ERROR: invalid direction " + ss.quote(line))
    case WantDone(_, _) => if line == DONE then ServerStopped(true, None) else FAILED
    case _ => FAILED
  }

  function ServerOnFrame(ss: Session, s: ServerPc, msg: Message): ServerPc {
    match s
    case Serving(m, answer, out) =>
      (match OutgoingGot(ss.setup, out, msg)
       case None => FAILED
       case Some(next) => Serving(m, answer, next))
    case Storing(m, answer, dry, into) =>
      (match IncomingGot(ForServer(ss, dry), into, msg)
       case None => FAILED
       case Some(next) => Storing(m, answer, dry, next))
    case _ => FAILED
  }

  /** Any other kind of item than the one being read is an error. */
  function ServerGot(ss: Session, s: ServerPc, item: Item): ServerPc {
    match item
    case Text(line) => if ServerKind(ss, s) == ReadsLine then ServerOnLine(ss, s, line) else FAILED
    case Packet(msg) => if ServerKind(ss, s) == ReadsFrame then ServerOnFrame(ss, s, msg) else FAILED
  }

  // ---- The client (DialClient) ----

  datatype ClientPc =
    | AwaitGreeting
    | GreetBack
    | Select
    | AwaitAuth
    | Respond(line: string)
    | SayDirection
    | AwaitAck
    | Uploading(out: Outgoing)
    | AwaitDone
    | Downloading(into: Incoming)
    | ConfirmDone(st: State)
    | ClientStopped(ok: bool, loaded: Option<State>)

  const GAVE_UP := ClientStopped(false, None)

  /** The transfer an honest client and the server agree on. */
  function Agreed(ss: Session): Setup {
    if ss.direction == Put then ForServer(ss, ss.dryRun) else ss.setup
  }

  function DirectionLine(ss: Session): string {
    if ss.direction == Put && ss.dryRun then "put" + " " + DRY_RUN else DirectionName(ss.direction)
  }

  function ClientKind(ss: Session, c: ClientPc): Kind {
    match c
    case AwaitGreeting => ReadsLine
    case GreetBack => Writes(Text(GREETING))
    case Select => Writes(Text(ss.name))
    case AwaitAuth => ReadsLine
    case Respond(line) => Writes(Text(line))
    case SayDirection => Writes(Text(DirectionLine(ss)))
    case AwaitAck => ReadsLine
    case Uploading(out) => if out.Sent? then Works else OutgoingKind(Agreed(ss), out)
    case AwaitDone => ReadsLine
    case Downloading(into) => if into.Received? then Works else IncomingKind(Agreed(ss), into)
    case ConfirmDone(_) => Writes(Text(DONE))
    case ClientStopped(_, _) => Rests
  }

  function ClientNext(ss: Session, c: ClientPc): ClientPc {
    match c
    case GreetBack => Select
    case Select => AwaitAuth
    case Respond(_) => AwaitAuth
    case SayDirection => AwaitAck
    case Uploading(out) => if out.Sent? then AwaitDone else Uploading(OutgoingNext(Agreed(ss), out))
    case Downloading(into) =>
      if into.Received? then ConfirmDone(into.st)
      else
        (match IncomingNext(Agreed(ss), into)
         case None => GAVE_UP
         case Some(next) => Downloading(next))
    case ConfirmDone(st) => ClientStopped(true, Some(st))
    case _ => c
  }

  function ClientOnLine(ss: Session, c: ClientPc, line: string): ClientPc {
    match c
    case AwaitGreeting => if ParseGreeting(line).Some? then GreetBack else GAVE_UP
    case AwaitAuth =>
      if AUTHREQD <= line then
        if ss.password.None? then GAVE_UP
        else Respond((if ss.user == "" then "nobody" else ss.user) + " " + ss.hash(ss.password.value, line[|AUTHREQD|..]))
      else if line == OK then SayDirection
      else GAVE_UP
    case AwaitAck => if line != OK then GAVE_UP else if ss.direction == Get then Downloading(WantList) else Uploading(SendList)
    case AwaitDone => if line == DONE then ClientStopped(true, None) else GAVE_UP
    case _ => GAVE_UP
  }

  function ClientOnFrame(ss: Session, c: ClientPc, msg: Message): ClientPc {
    match c
    case Uploading(out) =>
      (match OutgoingGot(Agreed(ss), out, msg)
       case None => GAVE_UP
       case Some(next) => Uploading(next))
    case Downloading(into) =>
      (match IncomingGot(Agreed(ss), into, msg)
       case None => GAVE_UP
       case Some(next) => Downloading(next))
    case _ => GAVE_UP
  }

  function ClientGot(ss: Session, c: ClientPc, item: Item): ClientPc {
    match item
    case Text(line) => if ClientKind(ss, c) == ReadsLine then ClientOnLine(ss, c, line) else GAVE_UP
    case Packet(msg) => if ClientKind(ss, c) == ReadsFrame then ClientOnFrame(ss, c, msg) else GAVE_UP
  }

  // ---- The connection ----

  /** toServer and toClient hold what has been written and not yet read. */
  datatype Net = Net(c: ClientPc, s: ServerPc, toServer: seq<Item>, toClient: seq<Item>)

  function Dialled(): Net {
    Net(AwaitGreeting, Greet, [], [])
  }

  /** None while blocked: the buffer is full, or there is nothing to read yet. A side that returned has closed the connection. */
  function ClientStep(ss: Session, n: Net): Option<Net> {
    match ClientKind(ss, n.c)
    case Writes(item) =>
      if n.s.ServerStopped? then Some(n.(c := GAVE_UP))
      else if |n.toServer| < ss.capacity then Some(n.(c := ClientNext(ss, n.c), toServer := n.toServer + [item]))
      else None
    case Works => Some(n.(c := ClientNext(ss, n.c)))
    case Rests => None
    case _ =>
      if n.toClient != [] then Some(n.(c := ClientGot(ss, n.c, n.toClient[0]), toClient := n.toClient[1..]))
      else if n.s.ServerStopped? then Some(n.(c := GAVE_UP))
      else None
  }

  function ServerStep(ss: Session, n: Net): Option<Net> {
    match ServerKind(ss, n.s)
    case Writes(item) =>
      if n.c.ClientStopped? then Some(n.(s := FAILED))
      else if |n.toClient| < ss.capacity then Some(n.(s := ServerNext(ss, n.s), toClient := n.toClient + [item]))
      else None
    case Works => Some(n.(s := ServerNext(ss, n.s)))
    case Rests => None
    case _ =>
      if n.toServer != [] then Some(n.(s := ServerGot(ss, n.s, n.toServer[0]), toServer := n.toServer[1..]))
      else if n.c.ClientStopped? then Some(n.(s := FAILED))
      else None
  }

  /** BreakClient and BreakServer: that side fails for a reason of its own. */
  datatype Turn = RunClient | RunServer | BreakClient | BreakServer

  function Advance(ss: Session, n: Net, turn: Turn): Net {
    match turn
    case RunClient => (match ClientStep(ss, n) case Some(next) => next case None => n)
    case RunServer => (match ServerStep(ss, n) case Some(next) => next case None => n)
    case BreakClient => if n.c.ClientStopped? then n else n.(c := GAVE_UP)
    case BreakServer => if n.s.ServerStopped? then n else n.(s := FAILED)
  }

  function Converse(ss: Session, turns: seq<Turn>): Net {
    if turns == [] then Dialled() else Advance(ss, Converse(ss, turns[..|turns| - 1]), turns[|turns| - 1])
  }

  // ---- The server against any client whatever ----

  /** One thing that can happen to a server: its write goes out, it reads something, or the connection fails. */
  datatype Event = WentOn | Read(item: Item) | Lost

  function ServerReacts(ss: Session, s: ServerPc, event: Event): ServerPc {
    match event
    case WentOn =>
      (match ServerKind(ss, s)
       case Writes(_) => ServerNext(ss, s)
       case Works => ServerNext(ss, s)
       case _ => s)
    case Read(item) => if ServerKind(ss, s).ReadsLine? || ServerKind(ss, s).ReadsFrame? then ServerGot(ss, s, item) else s
    case Lost => if s.ServerStopped? then s else FAILED
  }

  function ServerAfter(ss: Session, events: seq<Event>): ServerPc {
    if events == [] then Greet else ServerReacts(ss, ServerAfter(ss, events[..|events| - 1]), events[|events| - 1])
  }

  /** The module asks for no password, or the client has answered the challenge with an allowed user's secret. */
  predicate Cleared(ss: Session, m: Module, answer: Option<string>) {
    !m.AuthRequired() || (answer.Some? && CheckAuth(ss, m, answer.value).Some?)
  }

  predicate Configured(ss: Session, m: Module) {
    exists name :: name in ss.modules && ss.modules[name] == m
  }

  ghost predicate Guarded(ss: Session, s: ServerPc) {
    match s
    case StartAuth(m) => Configured(ss, m)
    case WantResponse(m) => Configured(ss, m)
    case Accept(m, answer) => Configured(ss, m) && Cleared(ss, m, answer)
    case WantDirection(m, answer) => Configured(ss, m) && Cleared(ss, m, answer)
    case Acknowledge(m, answer, dir, _) => Configured(ss, m) && Cleared(ss, m, answer) && (dir == Put ==> !m.readOnly)
    case Serving(m, answer, _) => Configured(ss, m) && Cleared(ss, m, answer)
    case WantDone(m, answer) => Configured(ss, m) && Cleared(ss, m, answer)
    case Storing(m, answer, _, _) => Configured(ss, m) && Cleared(ss, m, answer) && !m.readOnly
    case SayDone(m, answer, _, _) => Configured(ss, m) && Cleared(ss, m, answer) && !m.readOnly
    case _ => true
  }

  lemma ReactionIsGuarded(ss: Session, s: ServerPc, event: Event)
    requires Guarded(ss, s)
    ensures Guarded(ss, ServerReacts(ss, s, event))
  {
    hide CheckAuth, Fields, OutgoingGot, OutgoingNext, IncomingGot, IncomingNext, OutgoingKind, IncomingKind;
  }

  /** The answer that authenticated the client, in the states that follow it. */
  function AnswerIn(s: ServerPc): Option<string> {
    match s
    case Accept(_, answer) => answer
    case WantDirection(_, answer) => answer
    case Acknowledge(_, answer, _, _) => answer
    case Serving(_, answer, _) => answer
    case WantDone(_, answer) => answer
    case Storing(_, answer, _, _) => answer
    case SayDone(_, answer, _, _) => answer
    case _ => None
  }

  /** The server wrote m's challenge as event u, and as event t, later, read a line that proves an allowed user's secret. */
  predicate Challenged(ss: Session, events: seq<Event>, m: Module, u: nat, t: nat) {
    && u < t < |events| && m.AuthRequired()
    && events[u] == WentOn && ServerAfter(ss, events[..u]) == StartAuth(m)
    && ServerAfter(ss, events[..t]) == WantResponse(m)
    && events[t].Read? && events[t].item.Text? && CheckAuth(ss, m, events[t].item.line).Some?
  }

  lemma WaitsAfterChallenge(ss: Session, s: ServerPc, event: Event)
    ensures ServerReacts(ss, s, event).WantResponse? && s != ServerReacts(ss, s, event) ==>
      event == WentOn && s == StartAuth(ServerReacts(ss, s, event).m) && s.m.AuthRequired()
    ensures var next := ServerReacts(ss, s, event);
      AnswerIn(next).Some? && AnswerIn(next) != AnswerIn(s) ==>
        s.WantResponse? && event == Read(Text(AnswerIn(next).value)) && next == Accept(s.m, AnswerIn(next)) && CheckAuth(ss, s.m, AnswerIn(next).value).Some?
    ensures var next := ServerReacts(ss, s, event);
      AnswerIn(next).Some? && AnswerIn(next) == AnswerIn(s) ==> next == s || next.m == s.m
  {
    hide CheckAuth, Fields, OutgoingGot, OutgoingNext, IncomingGot, IncomingNext, OutgoingKind, IncomingKind, ParseGreeting, ForServer;
  }

  lemma {:induction false} ChallengeWasWritten(ss: Session, events: seq<Event>) returns (u: nat)
    requires ServerAfter(ss, events).WantResponse?
    ensures u < |events| && events[u] == WentOn && ServerAfter(ss, events[..u]) == StartAuth(ServerAfter(ss, events).m)
    ensures ServerAfter(ss, events).m.AuthRequired()
  {
    hide ServerReacts;
    var before := events[..|events| - 1];
    WaitsAfterChallenge(ss, ServerAfter(ss, before), events[|events| - 1]);
    u := |events| - 1;
    if ServerAfter(ss, before) == ServerAfter(ss, events) {
      u := ChallengeWasWritten(ss, before);
      assert before[..u] == events[..u];
    }
  }

  /** An answer the server goes by is a line it read after writing the challenge. */
  lemma {:induction false} AnswerWasRead(ss: Session, events: seq<Event>) returns (u: nat, t: nat)
    requires AnswerIn(ServerAfter(ss, events)).Some?
    ensures Challenged(ss, events, ServerAfter(ss, events).m, u, t) && events[t] == Read(Text(AnswerIn(ServerAfter(ss, events)).value))
  {
    hide ServerReacts, CheckAuth;
    var before := events[..|events| - 1];
    WaitsAfterChallenge(ss, ServerAfter(ss, before), events[|events| - 1]);
    if AnswerIn(ServerAfter(ss, before)) == AnswerIn(ServerAfter(ss, events)) {
      u, t := AnswerWasRead(ss, before);
      assert before[..u] == events[..u] && before[..t] == events[..t];
    } else {
      t := |events| - 1;
      u := ChallengeWasWritten(ss, before);
      assert before[..u] == events[..u];
    }
  }

  /**
   * Whatever a client sends, in whatever order, and wherever the connection
   * fails: a transfer runs only for a configured module that asks for no
   * password or whose challenge was written and then answered, by a line the
   * server read, with an allowed user's secret; and a read-only module never
   * runs Receiver.
   */
  lemma ServerIsGuarded(ss: Session, events: seq<Event>)
    ensures var s := ServerAfter(ss, events);
      s.Serving? || s.Storing? ==>
        Configured(ss, s.m) && (!s.m.AuthRequired() || exists u, t :: Challenged(ss, events, s.m, u, t))
    ensures ServerAfter(ss, events).Storing? ==> !ServerAfter(ss, events).m.readOnly
  {
    var s := ServerAfter(ss, events);
    EverythingIsGuarded(ss, events);
    hide ServerAfter, Challenged, CheckAuth;
    if (s.Serving? || s.Storing?) && s.m.AuthRequired() {
      var u, t := AnswerWasRead(ss, events);
    }
  }

  lemma {:induction false} EverythingIsGuarded(ss: Session, events: seq<Event>)
    ensures Guarded(ss, ServerAfter(ss, events))
  {
    if events != [] {
      EverythingIsGuarded(ss, events[..|events| - 1]);
      hide ServerReacts;
      ReactionIsGuarded(ss, ServerAfter(ss, events[..|events| - 1]), events[|events| - 1]);
    }
  }
}
