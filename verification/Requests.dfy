/** What a server goes by: the greetings it accepts, and the lines that named the module and the direction it serves. */
module Requests {
  import opened Prelude
  import opened Daemon
  import opened Parties

  // ---- Numbers and greetings ----

  function Decimal(n: nat): string {
    var last := [('0' as int + n % 10) as char];
    if n < 10 then last else Decimal(n / 10) + last
  }

  lemma {:induction false} DecimalIsDigits(n: nat)
    ensures Decimal(n) != "" && DigitsValue(Decimal(n)) == n
    ensures forall i :: 0 <= i < |Decimal(n)| ==> Digit(Decimal(n)[i])
  {
    var last := [('0' as int + n % 10) as char];
    if n < 10 {
      assert last[..0] == "" && DigitsValue("") == 0;
    } else {
      DecimalIsDigits(n / 10);
      assert (Decimal(n / 10) + last)[..|Decimal(n / 10)|] == Decimal(n / 10);
    }
  }

  /** strconv.Atoi reads every 64-bit number back from its decimal form. */
  lemma DecimalIsRead(n: nat)
    ensures n <= MAX_INT ==> Atoi(Decimal(n)) == Some(n)
    ensures n <= MAX_INT + 1 ==> Atoi("-" + Decimal(n)).Some? && Atoi("-" + Decimal(n)).value + n == 0
    ensures n > MAX_INT ==> Atoi(Decimal(n)) == None
  {
    DecimalIsDigits(n);
    assert Digit(Decimal(n)[0]);
    assert ("-" + Decimal(n))[1..] == Decimal(n);
    hide DigitsValue, Decimal;
  }

  lemma {:induction false} CutsAtFirstDot(s: string)
    ensures var (front, back) := CutAtDot(s); '.' !in front && s == front + if back.Some? then "." + back.value else ""
  {
    if s != "" && s[0] != '.' {
      CutsAtFirstDot(s[1..]);
      assert s == [s[0]] + s[1..];
    }
  }

  lemma {:induction false} CutOfUndotted(s: string)
    requires '.' !in s
    ensures CutAtDot(s) == (s, None)
  {
    if s != "" {
      CutOfUndotted(s[1..]);
      assert s == [s[0]] + s[1..];
    }
  }

  /** What the version's text is read as. */
  function VersionOf(word: string): Option<(int, int)> {
    var (front, back) := CutAtDot(word);
    match Atoi(front)
    case None => None
    case Some(version) =>
      if back.None? then Some((version, 0)) else match Atoi(back.value) case None => None case Some(sub) => Some((version, sub))
  }

  /** The first word after the prefix decides. */
  lemma FirstWordDecides(word: string, rest: string)
    requires word != "" && (rest == "" || Blank(rest[0])) && forall i :: 0 <= i < |word| ==> !Blank(word[i])
    ensures ParseGreeting(GREETING_PREFIX + (word + rest)) == VersionOf(word)
  {
    hide FirstWord, CutAtDot, Atoi;
    WordThen(word, rest);
    FieldsDecide(word + rest);
    hide Fields, ParseGreeting, VersionOf;
    assert ([word] + Fields(rest))[0] == word;
  }

  lemma FieldsDecide(s: string)
    ensures ParseGreeting(GREETING_PREFIX + s) == if Fields(s) == [] then None else VersionOf(Fields(s)[0])
  {
    assert (GREETING_PREFIX + s)[|GREETING_PREFIX|..] == s;
    hide Fields, CutAtDot, Atoi;
  }

  /** Any version and subprotocol, with or without further words, is read back; a version alone has subprotocol 0. */
  lemma GreetingIsRead(version: nat, sub: nat, rest: string)
    requires version <= MAX_INT && sub <= MAX_INT && (rest == "" || Blank(rest[0]))
    ensures ParseGreeting("@RSYNCD: " + (Decimal(version) + "." + Decimal(sub) + rest)) == Some((version, sub))
    ensures ParseGreeting("@RSYNCD: " + (Decimal(version) + rest)) == Some((version, 0))
  {
    hide ParseGreeting, CutAtDot, Atoi, DigitsValue;
    var a, b := Decimal(version), Decimal(sub);
    DecimalIsDigits(version);
    DecimalIsDigits(sub);
    DecimalIsRead(version);
    DecimalIsRead(sub);
    DigitsAreNoDots(a);
    DigitsAreNoDots(b);
    CutOfDotted(a, b);
    CutOfUndotted(a);
    hide Decimal;
    FirstWordDecides(a + "." + b, rest);
    FirstWordDecides(a, rest);
  }

  lemma DigitsAreNoDots(s: string)
    requires forall i :: 0 <= i < |s| ==> Digit(s[i])
    ensures '.' !in s && forall i :: 0 <= i < |s| ==> !Blank(s[i])
  {
  }

  predicate Numeric(c: char) {
    Digit(c) || c == '+' || c == '-'
  }

  lemma AtoiIsNumeric(s: string)
    requires Atoi(s).Some?
    ensures s != "" && forall i :: 0 <= i < |s| ==> Numeric(s[i])
  {
    var signed := s != "" && (s[0] == '-' || s[0] == '+');
    var digits := if signed then s[1..] else s;
    assert AllDigits(digits);
    forall i | 0 <= i < |s| ensures Numeric(s[i]) {
      if signed && i > 0 {
        assert s[i] == digits[i - 1];
      }
    }
  }

  /** A greeting is refused that does not start as one, names no version, or has anything but numbers and dots for it. */
  lemma GreetingIsRefused(line: string)
    requires ParseGreeting(line).Some?
    ensures "@RSYNCD: " <= line && Fields(line[9..]) != [] && Fields(line[9..])[0] != ""
    ensures forall i :: 0 <= i < |Fields(line[9..])[0]| ==> Numeric(Fields(line[9..])[0][i]) || Fields(line[9..])[0][i] == '.'
  {
    var word := Fields(line[9..])[0];
    var (front, back) := CutAtDot(word);
    CutsAtFirstDot(word);
    hide Fields, CutAtDot;
    AtoiIsNumeric(front);
    if back.Some? {
      AtoiIsNumeric(back.value);
    }
  }

  // ---- The module and the direction ----

  function ModuleIn(s: ServerPc): Option<Module> {
    match s
    case StartAuth(m) => Some(m)
    case WantResponse(m) => Some(m)
    case Accept(m, _) => Some(m)
    case WantDirection(m, _) => Some(m)
    case Acknowledge(m, _, _, _) => Some(m)
    case Serving(m, _, _) => Some(m)
    case WantDone(m, _) => Some(m)
    case Storing(m, _, _, _) => Some(m)
    case SayDone(m, _, _, _) => Some(m)
    case _ => None
  }

  /** What is being done for the client, and whether dry. */
  function DoingIn(s: ServerPc): Option<(Direction, bool)> {
    match s
    case Acknowledge(_, _, direction, dry) => Some((direction, direction == Put && dry))
    case Serving(_, _, _) => Some((Get, false))
    case WantDone(_, _) => Some((Get, false))
    case Storing(_, _, dry, _) => Some((Put, dry))
    case SayDone(_, _, dry, _) => Some((Put, dry))
    case _ => None
  }

  /** The words of the line ask for this: "get", or "put", dry exactly when the next word says so. */
  predicate AsksFor(line: string, direction: Direction, dry: bool) {
    var words := Fields(line);
    && words != []
    && match direction
       case Get => words[0] == "get" && !dry
       case Put => words[0] == "put" && (dry <==> |words| > 1 && words[1] == "--dry-run")
  }

  lemma StepsGoByLines(ss: Session, s: ServerPc, event: Event)
    ensures var next := ServerReacts(ss, s, event);
      ModuleIn(next).Some? && ModuleIn(next) != ModuleIn(s) ==>
        s.WantModule? && event.Read? && event.item.Text? && event.item.line in ss.modules && ModuleIn(next).value == ss.modules[event.item.line]
    ensures var next := ServerReacts(ss, s, event);
      DoingIn(next).Some? && DoingIn(next) != DoingIn(s) ==>
        s.WantDirection? && event.Read? && event.item.Text? && AsksFor(event.item.line, DoingIn(next).value.0, DoingIn(next).value.1)
        && (DoingIn(next).value.0 == Put ==> !s.m.readOnly)
  {
    hide CheckAuth, Fields, OutgoingGot, OutgoingNext, IncomingGot, IncomingNext, OutgoingKind, IncomingKind, ParseGreeting, ForServer;
    AcknowledgedOnce(ss, s);
  }

  /** A direction acknowledged is the one then carried out. */
  lemma AcknowledgedOnce(ss: Session, s: ServerPc)
    ensures s.Acknowledge? && s.dir == Get ==> ServerNext(ss, s) == Serving(s.m, s.answer, SendList)
    ensures s.Acknowledge? && s.dir == Put ==> ServerNext(ss, s) == Storing(s.m, s.answer, s.dry, WantList)
  {
  }

  /** The module in use is the one named by a line the server read. */
  lemma {:induction false} ModuleWasNamed(ss: Session, events: seq<Event>) returns (t: nat)
    requires ModuleIn(ServerAfter(ss, events)).Some?
    ensures t < |events| && ServerAfter(ss, events[..t]).WantModule? && events[t].Read? && events[t].item.Text?
    ensures events[t].item.line in ss.modules && ModuleIn(ServerAfter(ss, events)) == Some(ss.modules[events[t].item.line])
  {
    hide ServerReacts;
    var before := events[..|events| - 1];
    StepsGoByLines(ss, ServerAfter(ss, before), events[|events| - 1]);
    if ModuleIn(ServerAfter(ss, before)) == ModuleIn(ServerAfter(ss, events)) {
      t := ModuleWasNamed(ss, before);
      assert before[..t] == events[..t];
    } else {
      t := |events| - 1;
    }
  }

  /** And the direction is the one asked for by a line it read later; a read-only module is never put to. */
  lemma {:induction false} DirectionWasAsked(ss: Session, events: seq<Event>) returns (t: nat)
    requires DoingIn(ServerAfter(ss, events)).Some?
    ensures t < |events| && ServerAfter(ss, events[..t]).WantDirection? && events[t].Read? && events[t].item.Text?
    ensures AsksFor(events[t].item.line, DoingIn(ServerAfter(ss, events)).value.0, DoingIn(ServerAfter(ss, events)).value.1)
    ensures DoingIn(ServerAfter(ss, events)).value.0 == Put ==> !ServerAfter(ss, events[..t]).m.readOnly
  {
    hide ServerReacts, AsksFor;
    var before := events[..|events| - 1];
    StepsGoByLines(ss, ServerAfter(ss, before), events[|events| - 1]);
    if DoingIn(ServerAfter(ss, before)) == DoingIn(ServerAfter(ss, events)) {
      t := DirectionWasAsked(ss, before);
      assert before[..t] == events[..t];
    } else {
      t := |events| - 1;
    }
  }

  // ---- The listing ----

  function Lines(texts: seq<string>): seq<Item> {
    seq(|texts|, i requires 0 <= i < |texts| => Text(texts[i]))
  }

  lemma {:induction false} ListingSoFar(ss: Session, rest: seq<string>, inbox: seq<Item>, k: nat)
    requires k <= |rest|
    ensures ServerPlays(ss, Listing(rest), inbox, k) == Played(Listing(rest[k..]), inbox, Lines(rest[..k]))
  {
    if k == 0 {
      assert rest[0..] == rest;
    } else {
      ListingSoFar(ss, rest, inbox, k - 1);
      assert rest[k - 1..][0] == rest[k - 1] && rest[k - 1..][1..] == rest[k..];
      assert Lines(rest[..k]) == Lines(rest[..k - 1]) + [Text(rest[k - 1])];
    }
  }

  /** Asked for a list, the server writes its greeting, every line of the listing in order, and the end, and is done. */
  lemma ListingIsServed(ss: Session, greeting: string, inbox: seq<Item>)
    requires ParseGreeting(greeting).Some?
    ensures ServerPlays(ss, Greet, [Text(greeting), Text("#list")] + inbox, 3 + |ss.listing| + 1)
         == Played(ServerStopped(true, None), inbox, [Text(GREETING)] + Lines(ss.listing) + [Text("@RSYNCD: EXIT")])
  {
    hide ParseGreeting;
    var all := [Text(greeting), Text("#list")] + inbox;
    assert ServerPlays(ss, Greet, all, 0) == Played(Greet, all, []);
    assert ServerPlays(ss, Greet, all, 1) == Played(WantGreeting, all, [Text(GREETING)]);
    assert all[1..] == [Text("#list")] + inbox && all[1..][1..] == inbox;
    assert ServerPlays(ss, Greet, all, 2) == Played(WantModule, all[1..], [Text(GREETING)]);
    assert ServerPlays(ss, Greet, all, 3) == Played(Listing(ss.listing), inbox, [Text(GREETING)]);
    hide ServerKind, ServerNext, ServerGot;
    ListingIsEnded(ss, inbox);
    ServerPlaysOn(ss, Greet, all, 3, |ss.listing| + 1);
  }

  lemma ListingIsEnded(ss: Session, inbox: seq<Item>)
    ensures ServerPlays(ss, Listing(ss.listing), inbox, |ss.listing| + 1) == Played(ServerStopped(true, None), inbox, Lines(ss.listing) + [Text("@RSYNCD: EXIT")])
  {
    ListingSoFar(ss, ss.listing, inbox, |ss.listing|);
    assert ss.listing[|ss.listing|..] == [] && ss.listing[..|ss.listing|] == ss.listing;
  }
}
