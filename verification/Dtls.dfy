/**
 One session's DTLS handshake (src/orchestrator/dtls.rs). The role is fixed by whichever
 comes first, a ClientHello or the answer. The engine is OpenSSL and stays opaque: what it
 does is a function of its role and of the datagrams it was fed.
 */
module Dtls {
  import opened Words
  import opened Wrappers
  import opened Records
  import T = Tables

  const MAX_BIO_READ: nat := 16384

  datatype DtlsRole = Server | Client

  /** A certificate fingerprint; 0 stands for the all-zero one. */
  type Fingerprint = nat
  type Datagram = seq<byte>
  type Flight = seq<Datagram>

  /** `None` is an engine error, or output that is not whole records. */
  datatype Engine = Engine(
    start: DtlsRole -> Option<Flight>,
    reply: (DtlsRole, seq<Datagram>) -> Option<Flight>,
    timeout: (DtlsRole, seq<Datagram>) -> Option<Flight>,
    done: (DtlsRole, seq<Datagram>) -> bool,
    peer: (DtlsRole, seq<Datagram>) -> Option<Fingerprint>)

  /** Nothing is established without input, and what is established stays, with the same peer. */
  ghost predicate Lawful(e: Engine) {
    && (forall r :: !e.done(r, []))
    && (forall r, h, d :: e.done(r, h) ==> e.done(r, h + [d]) && e.peer(r, h + [d]) == e.peer(r, h))
  }

  datatype Session = Session(role: DtlsRole, input: seq<Datagram>)

  /** The fields of a handshake, and how often its engine was started and completion reported. */
  datatype Handshake = Handshake(
    engine: Option<Session>,
    role: Option<DtlsRole>,
    pinned: Option<Fingerprint>,
    addressSelected: bool,
    state: T.DtlsState,
    starts: nat,
    completions: nat)

  const NEW := Handshake(None, None, None, false, T.Running, 0, 0)

  datatype HandshakeError =
    | InvalidDatagram | RoleConflict | ZeroFingerprint | FingerprintMismatch | EngineFailed | AlreadyFailed

  datatype Outcome = Progress(datagrams: Flight, completed: bool) | Err(error: HandshakeError)

  const NOTHING := Progress([], false)

  // ── What each call does ──────────────────────────────────────────

  function Fail(h: Handshake): Handshake {
    h.(state := T.Failed, engine := None)
  }

  /** `h` with its engine started in `role`, or failing to. */
  function Started(e: Engine, h: Handshake, role: DtlsRole): Handshake {
    h.(starts := h.starts + 1, engine := if e.start(role).Some? then Some(Session(role, [])) else None)
  }

  /** Complete once the engine is done and its peer has the pinned fingerprint (`check_completion`). */
  function Checked(e: Engine, h: Handshake, datagrams: Flight): (Handshake, Outcome) {
    if h.engine.None? || h.state != T.Running || !e.done(h.engine.value.role, h.engine.value.input) || h.pinned.None?
    then (h, Progress(datagrams, false))
    else if e.peer(h.engine.value.role, h.engine.value.input) != h.pinned then (Fail(h), Err(FingerprintMismatch))
    else (h.(state := T.Complete, completions := h.completions + 1), Progress(datagrams, true))
  }

  function AfterAnswer(e: Engine, h: Handshake, role: DtlsRole, fingerprint: Fingerprint): (Handshake, Outcome) {
    if h.state == T.Failed then (h, Err(AlreadyFailed))
    else if fingerprint == 0 then (Fail(h), Err(ZeroFingerprint))
    else if h.pinned.Some? && h.pinned.value != fingerprint then (Fail(h), Err(FingerprintMismatch))
    else if h.role.Some? && h.role.value != role then (Fail(h.(pinned := Some(fingerprint))), Err(RoleConflict))
    else
      var a := h.(pinned := Some(fingerprint), role := Some(role));
      if a.state == T.Running && a.engine.None? && (role == Server || a.addressSelected) then
        match e.start(role)
        case None => (Fail(Started(e, a, role)), Err(EngineFailed))
        case Some(flight) => Checked(e, Started(e, a, role), if role == Server then [] else flight)
      else Checked(e, a, [])
  }

  function AfterAddress(e: Engine, h: Handshake): (Handshake, Outcome) {
    if h.state == T.Failed then (h, Err(AlreadyFailed))
    else
      var a := h.(addressSelected := true);
      if a.state == T.Running && a.engine.None? && a.role == Some(Client) then
        match e.start(Client)
        case None => (Fail(Started(e, a, Client)), Err(EngineFailed))
        case Some(flight) => (Started(e, a, Client), Progress(flight, false))
      else (a, NOTHING)
  }

  function AfterFeed(e: Engine, h: Handshake, datagram: Datagram): (Handshake, Outcome)
    requires h.engine.Some?
  {
    var s := Session(h.engine.value.role, h.engine.value.input + [datagram]);
    match e.reply(s.role, s.input)
    case None => (Fail(h), Err(EngineFailed))
    case Some(output) => Checked(e, h.(engine := Some(s)), output)
  }

  function AfterDatagram(e: Engine, h: Handshake, datagram: Datagram): (Handshake, Outcome) {
    if datagram == [] || |datagram| > MAX_BIO_READ then (h, Err(InvalidDatagram))
    else if h.state == T.Failed then (h, Err(AlreadyFailed))
    else if h.state == T.Freed then (h, NOTHING)
    else if h.engine.Some? then AfterFeed(e, h, datagram)
    else if h.role == Some(Client) || !IsClientHello(datagram) then (h, NOTHING)
    else
      var a := Started(e, h.(role := Some(Server)), Server);
      if a.engine.None? then (Fail(a), Err(EngineFailed)) else AfterFeed(e, a, datagram)
  }

  function AfterTimeout(e: Engine, h: Handshake): (Handshake, Outcome) {
    if h.state == T.Failed then (h, Err(AlreadyFailed))
    else if h.engine.None? || h.state != T.Running then (h, NOTHING)
    else
      match e.timeout(h.engine.value.role, h.engine.value.input)
      case None => (Fail(h), Err(EngineFailed))
      case Some(output) => (h, Progress(output, false))
  }

  function AfterFree(h: Handshake): Handshake {
    if h.state != T.Complete then h else h.(engine := None, state := T.Freed)
  }

  datatype Call = Answer(role: DtlsRole,
                         fingerprint: Fingerprint) | Address | Receive(datagram: Datagram) | Timeout | Free

  function Step(e: Engine, h: Handshake, c: Call): (Handshake, Outcome) {
    match c
    case Answer(role, fingerprint) => AfterAnswer(e, h, role, fingerprint)
    case Address => AfterAddress(e, h)
    case Receive(datagram) => AfterDatagram(e, h, datagram)
    case Timeout => AfterTimeout(e, h)
    case Free => (AfterFree(h), NOTHING)
  }

  function Run(e: Engine, h: Handshake, calls: seq<Call>): Handshake
    decreases |calls|
  {
    if calls == [] then h else Run(e, Step(e, h, calls[0]).0, calls[1..])
  }

  /** How many of the calls reported completion. */
  function Reports(e: Engine, h: Handshake, calls: seq<Call>): nat
    decreases |calls|
  {
    if calls == [] then 0
    else
      var (a, outcome) := Step(e, h, calls[0]);
      (if outcome.Progress? && outcome.completed then 1 else 0) + Reports(e, a, calls[1..])
  }

  // ── Exactly once ─────────────────────────────────────────────────

  /** What holds of a handshake after any calls. */
  ghost predicate Good(e: Engine, h: Handshake) {
    && h.starts <= 1 && h.completions <= 1
    && (h.state == T.Running ==> h.completions == 0 && (h.starts == 0 <==> h.engine.None?))
    && (h.state == T.Complete || h.state == T.Freed ==> h.completions == 1 && h.starts == 1 && h.pinned.Some?)
    && (h.state == T.Failed || h.state == T.Freed ==> h.engine.None?)
    && (h.pinned.Some? ==> h.pinned.value != 0)
    && (h.engine.Some? ==> h.role == Some(h.engine.value.role))
    && (h.state == T.Complete ==> h.engine.Some? && Verified(e, h))
  }

  /** The engine is done, with a peer of the pinned fingerprint. */
  predicate Verified(e: Engine, h: Handshake) {
    && h.engine.Some? && h.pinned.Some? && h.pinned.value != 0
    && e.done(h.engine.value.role, h.engine.value.input)
       && e.peer(h.engine.value.role, h.engine.value.input) == h.pinned
  }

  /**
   Every call keeps a handshake good. Completion is reported only by the call that gets
   there, and only for a verified peer; a failed handshake stays as it is and a freed one
   never gets another engine.
   */
  lemma StepKeepsGood(e: Engine, h: Handshake, c: Call)
    requires Lawful(e) && Good(e, h)
    ensures
      var (a, outcome) := Step(e, h, c);
      var completed := outcome.Progress? && outcome.completed;
      && Good(e, a)
      && a.completions == h.completions + (if completed then 1 else 0) && (completed ==> Verified(e, a))
      && (!c.Free? ==> T.DtlsMoves(h.state, a.state, completed))
      && (outcome.Err? && outcome.error != InvalidDatagram ==> a.state == T.Failed)
      && (a.state == T.Failed && h.state != T.Failed ==> outcome.Err?)
      && (h.state == T.Failed ==> a == h)
      && (h.state == T.Freed ==> a.engine.None? && a.starts == h.starts && (a.state == T.Freed || a.state == T.Failed))
  {
    if h.engine.Some? {
      assert c.Receive? && e.done(h.engine.value.role, h.engine.value.input) ==>
        e.done(h.engine.value.role, h.engine.value.input + [c.datagram]);
    }
  }

  /** What the orchestrator relies on: a call that fails ends the handshake, one that completes does so once. */
  lemma StepIsAllowed(e: Engine, h: Handshake, c: Call)
    requires Lawful(e) && Good(e, h) && !c.Free?
    ensures
      var (a, outcome) := Step(e, h, c);
      var failed := outcome.Err? && outcome.error != InvalidDatagram;
      T.DtlsStepped(h.state, a.state, failed, outcome.Progress? && outcome.completed)
  {
    StepKeepsGood(e, h, c);
  }

  lemma {:induction false} RunKeepsGood(e: Engine, h: Handshake, calls: seq<Call>)
    requires Lawful(e) && Good(e, h)
    ensures Good(e, Run(e, h, calls)) && Run(e, h, calls).completions == h.completions + Reports(e, h, calls)
    ensures h.state == T.Failed ==> Run(e, h, calls) == h
    decreases |calls|
  {
    if calls != [] {
      StepKeepsGood(e, h, calls[0]);
      RunKeepsGood(e, Step(e, h, calls[0]).0, calls[1..]);
    }
  }

  /** Over every sequence of calls the engine starts at most once and completion is reported at most once. */
  lemma ExactlyOnce(e: Engine, calls: seq<Call>)
    requires Lawful(e)
    ensures
      var h := Run(e, NEW, calls);
      && h.starts <= 1 && Reports(e, NEW, calls) <= 1
      && (Reports(e, NEW, calls) == 1 ==> h.starts == 1)
      && (h.state == T.Complete ==> Reports(e, NEW, calls) == 1 && Verified(e, h))
  {
    RunKeepsGood(e, NEW, calls);
    ReportedWasStarted(e, NEW, calls);
  }

  lemma {:induction false} ReportedWasStarted(e: Engine, h: Handshake, calls: seq<Call>)
    requires Lawful(e) && Good(e, h)
    ensures h.starts <= Run(e, h, calls).starts && (Reports(e, h, calls) > 0 ==> Run(e, h, calls).starts == 1)
    decreases |calls|
  {
    if calls != [] {
      StepKeepsGood(e, h, calls[0]);
      RunKeepsGood(e, h, calls);
      ReportedWasStarted(e, Step(e, h, calls[0]).0, calls[1..]);
    }
  }

  // ── In any order ─────────────────────────────────────────────────

  function Received(ds: seq<Datagram>): (r: seq<Call>)
    ensures |r| == |ds| && forall i :: 0 <= i < |ds| ==> r[i] == Receive(ds[i])
  {
    seq(|ds|, i requires 0 <= i < |ds| => Receive(ds[i]))
  }

  /** The peer's datagrams, with the answer before the one at `i`. */
  function AnsweredAt(ds: seq<Datagram>, i: nat, fingerprint: Fingerprint): seq<Call>
    requires i <= |ds|
  {
    Received(ds[..i]) + [Answer(Server, fingerprint)] + Received(ds[i..])
  }

  /** Datagrams an engine takes, the first one a ClientHello, on which the engine does not fail. */
  ghost predicate Smooth(e: Engine, ds: seq<Datagram>) {
    && ds != [] && IsClientHello(ds[0]) && e.start(Server).Some?
    && (forall i :: 0 <= i < |ds| ==> ds[i] != [] && |ds[i]| <= MAX_BIO_READ)
    && (forall i :: 0 < i <= |ds| ==> e.reply(Server, ds[..i]).Some?)
  }

  /** Where the answer and the datagrams lead, whatever their order. */
  function Final(e: Engine, ds: seq<Datagram>, fingerprint: Fingerprint): Handshake {
    if !e.done(Server, ds)
      then Handshake(Some(Session(Server, ds)), Some(Server), Some(fingerprint), false, T.Running, 1, 0)
    else if e.peer(Server, ds) == Some(fingerprint)
    then Handshake(Some(Session(Server, ds)), Some(Server), Some(fingerprint), false, T.Complete, 1, 1)
    else Handshake(None, Some(Server), Some(fingerprint), false, T.Failed, 1, 0)
  }

  lemma {:induction false} RunAppend(e: Engine, h: Handshake, xs: seq<Call>, ys: seq<Call>)
    ensures Run(e, h, xs + ys) == Run(e, Run(e, h, xs), ys)
    decreases |xs|
  {
    if xs == [] {
      assert xs + ys == ys;
    } else {
      assert (xs + ys)[1..] == xs[1..] + ys;
      RunAppend(e, Step(e, h, xs[0]).0, xs[1..], ys);
    }
  }

  /** Before the answer the engine runs as server, on what arrived. */
  lemma {:induction false} BeforeAnswer(e: Engine, ds: seq<Datagram>, i: nat)
    requires Lawful(e) && Smooth(e, ds) && i <= |ds|
    ensures Run(e, NEW, Received(ds[..i])) ==
      if i == 0 then NEW else Handshake(Some(Session(Server, ds[..i])), Some(Server), None, false, T.Running, 1, 0)
    decreases i
  {
    if i > 0 {
      BeforeAnswer(e, ds, i - 1);
      assert ds[..i] == ds[..i - 1] + [ds[i - 1]];
      assert Received(ds[..i]) == Received(ds[..i - 1]) + [Receive(ds[i - 1])];
      RunAppend(e, NEW, Received(ds[..i - 1]), [Receive(ds[i - 1])]);
      RunOne(e, Run(e, NEW, Received(ds[..i - 1])), Receive(ds[i - 1]));
      assert [] + [ds[i - 1]] == [ds[i - 1]];
    } else {
      assert ds[..0] == [] && Received([]) == [];
    }
  }

  lemma RunOne(e: Engine, h: Handshake, c: Call)
    ensures Run(e, h, [c]) == Step(e, h, c).0
  {
    assert [c][1..] == [];
  }

  /** After the answer each datagram leads from one final state to the next. */
  lemma {:induction false} AfterTheAnswer(e: Engine, ds: seq<Datagram>, i: nat, fingerprint: Fingerprint)
    requires Lawful(e) && Smooth(e, ds) && i <= |ds| && fingerprint != 0
    ensures Run(e, Final(e, ds[..i], fingerprint), Received(ds[i..])) == Final(e, ds, fingerprint)
    decreases |ds| - i
  {
    if i == |ds| {
      assert ds[..i] == ds && Received(ds[i..]) == [];
    } else {
      var rest := Received(ds[i..]);
      assert rest[0] == Receive(ds[i]) && rest[1..] == Received(ds[i + 1..]);
      assert ds[..i + 1] == ds[..i] + [ds[i]];
      assert e.done(Server, ds[..i]) ==>
        e.done(Server, ds[..i] + [ds[i]]) && e.peer(Server, ds[..i] + [ds[i]]) == e.peer(Server, ds[..i]);
      AfterTheAnswer(e, ds, i + 1, fingerprint);
    }
  }

  /**
   Order independence: wherever the answer falls among the peer's datagrams, the final
   role, pinned fingerprint, engine and state are the same.
   */
  lemma OrderDoesNotMatter(e: Engine, ds: seq<Datagram>, i: nat, fingerprint: Fingerprint)
    requires Lawful(e) && Smooth(e, ds) && i <= |ds| && fingerprint != 0
    ensures Run(e, NEW, AnsweredAt(ds, i, fingerprint)) == Final(e, ds, fingerprint)
  {
    var (before, answer, after) := (Received(ds[..i]), Answer(Server, fingerprint), Received(ds[i..]));
    RunAppend(e, NEW, before + [answer], after);
    RunAppend(e, NEW, before, [answer]);
    BeforeAnswer(e, ds, i);
    var h := Run(e, NEW, before);
    RunOne(e, h, answer);
    if i == 0 {
      assert ds[..0] == [];
    }
    assert Step(e, h, answer).0 == Final(e, ds[..i], fingerprint);
    AfterTheAnswer(e, ds, i, fingerprint);
  }

  /**
   The all-zero fingerprint is the one exception, and the only one: it fails the handshake
   wherever it comes, but before the role is fixed when it comes first, and after when not.
   */
  lemma OnlyZeroIsOrdered(e: Engine, ds: seq<Datagram>, fingerprint: Fingerprint)
    requires Lawful(e) && Smooth(e, ds)
    ensures fingerprint != 0 <==>
      forall i :: 0 <= i <= |ds| ==>
        Run(e, NEW, AnsweredAt(ds, i, fingerprint)) == Run(e, NEW, AnsweredAt(ds, 0, fingerprint))
    ensures fingerprint == 0 ==> forall i :: 0 <= i <= |ds| ==> Run(e, NEW, AnsweredAt(ds, i, 0)).state == T.Failed
  {
    if fingerprint != 0 {
      OrderDoesNotMatter(e, ds, 0, fingerprint);
      forall i | 0 <= i <= |ds|
        ensures Run(e, NEW, AnsweredAt(ds, i, fingerprint)) == Run(e, NEW, AnsweredAt(ds, 0, fingerprint))
      {
        OrderDoesNotMatter(e, ds, i, fingerprint);
      }
    } else {
      forall i | 0 <= i <= |ds| ensures Run(e, NEW, AnsweredAt(ds, i, 0)).state == T.Failed {
        ZeroFails(e, ds, i);
      }
      ZeroFails(e, ds, 0);
      ZeroFails(e, ds, 1);
      assert Run(e, NEW, AnsweredAt(ds, 1, 0)) != Run(e, NEW, AnsweredAt(ds, 0, 0));
    }
  }

  lemma ZeroFails(e: Engine, ds: seq<Datagram>, i: nat)
    requires Lawful(e) && Smooth(e, ds) && i <= |ds|
    ensures
      var h := Run(e, NEW, AnsweredAt(ds, i, 0));
      h.state == T.Failed && h.role == if i == 0 then None else Some(Server)
  {
    var (before, answer, after) := (Received(ds[..i]), Answer(Server, 0), Received(ds[i..]));
    RunAppend(e, NEW, before + [answer], after);
    RunAppend(e, NEW, before, [answer]);
    BeforeAnswer(e, ds, i);
    var h := Run(e, NEW, before);
    RunOne(e, h, answer);
    RunKeepsGood(e, NEW, before);
    StepKeepsGood(e, h, answer);
    RunKeepsGood(e, Step(e, h, answer).0, after);
  }

  // ── As client ────────────────────────────────────────────────────

  /** Neither the answer nor the address. */
  predicate Idle(calls: seq<Call>) {
    forall i :: 0 <= i < |calls| ==> !calls[i].Answer? && !calls[i].Address?
  }

  /** One of the datagrams is a ClientHello. */
  predicate HasHello(calls: seq<Call>) {
    exists i ::
      0 <= i < |calls| && calls[i].Receive? && |calls[i].datagram| <= MAX_BIO_READ && IsClientHello(calls[i].datagram)
  }

  /** The engine started as client, on no input yet; or it failed to. */
  function ClientStarted(e: Engine, fingerprint: Fingerprint): Handshake {
    if e.start(Client).Some?
    then Handshake(Some(Session(Client, [])), Some(Client), Some(fingerprint), true, T.Running, 1, 0)
    else Handshake(None, Some(Client), Some(fingerprint), true, T.Failed, 1, 0)
  }

  /** Waiting as client, or for the role with no ClientHello, nothing happens. */
  lemma {:induction false} Waits(e: Engine, h: Handshake, calls: seq<Call>)
    requires Idle(calls) && h.engine.None? && h.state == T.Running
    requires h.role == Some(Client) || (h.role.None? && !HasHello(calls))
    ensures Run(e, h, calls) == h
    decreases |calls|
  {
    if calls != [] {
      assert Step(e, h, calls[0]).0 == h;
      forall i | 0 <= i < |calls[1..]| ensures calls[1..][i] == calls[i + 1] {
      }
      Waits(e, h, calls[1..]);
    }
  }

  lemma {:induction false} RoleStays(e: Engine, h: Handshake, calls: seq<Call>)
    requires h.role.Some?
    ensures Run(e, h, calls).role == h.role
    decreases |calls|
  {
    if calls != [] {
      var next := Step(e, h, calls[0]).0;
      assert h.role == Some(h.role.value) && (h.role.value == Client || h.role.value == Server);
      RoleStays(e, next, calls[1..]);
    }
  }

  /** A ClientHello makes it the server, for good. */
  lemma {:induction false} HelloDecides(e: Engine, h: Handshake, calls: seq<Call>)
    requires Idle(calls) && HasHello(calls) && h.engine.None? && h.state == T.Running && h.role.None?
    ensures Run(e, h, calls).role == Some(Server)
    decreases |calls|
  {
    var (next, rest) := (Step(e, h, calls[0]).0, calls[1..]);
    if next.role.Some? {
      RoleStays(e, next, rest);
    } else {
      assert next == h && !HasHello(calls[..1]);
      var i :| 0 <= i < |calls| && calls[i].Receive? && |calls[i].datagram| <= MAX_BIO_READ
        && IsClientHello(calls[i].datagram);
      assert i > 0 && rest[i - 1] == calls[i];
      forall j | 0 <= j < |rest| ensures rest[j] == calls[j + 1] {
      }
      HelloDecides(e, h, rest);
    }
  }

  /**
   As client, the answer and the selected address start one engine and send its ClientHello
   once, in either order and with timeouts and datagrams before and between them, if and only
   if no ClientHello of the peer's comes before the answer.
   */
  lemma ClientOrder(e: Engine, fingerprint: Fingerprint, before: seq<Call>, between: seq<Call>)
    requires Lawful(e) && fingerprint != 0 && Idle(before) && Idle(between)
    ensures
      var (answer, started) := (Answer(Client, fingerprint), ClientStarted(e, fingerprint));
      && (Run(e, NEW, before + [answer] + between + [Address]) == started <==> !HasHello(before))
      && (Run(e, NEW, before + [Address] + between + [answer]) == started <==> !HasHello(before) && !HasHello(between))
      && (!HasHello(before) ==> Step(e, Run(e, NEW, before + [answer] + between), Address).1 == Flown(e))
      && (!HasHello(before) && !HasHello(between) ==>
           Step(e, Run(e, NEW, before + [Address] + between), answer).1 == Flown(e))
  {
    AnswerFirst(e, fingerprint, before, between);
    AddressFirst(e, fingerprint, before, between);
  }

  /** What starting as client sends, or the failure to. */
  function Flown(e: Engine): Outcome {
    if e.start(Client).Some? then Progress(e.start(Client).value, false) else Err(EngineFailed)
  }

  lemma AnswerFirst(e: Engine, fingerprint: Fingerprint, before: seq<Call>, between: seq<Call>)
    requires Lawful(e) && fingerprint != 0 && Idle(before) && Idle(between)
    ensures
      var (answer, started) := (Answer(Client, fingerprint), ClientStarted(e, fingerprint));
      && (Run(e, NEW, before + [answer] + between + [Address]) == started <==> !HasHello(before))
      && (!HasHello(before) ==> Step(e, Run(e, NEW, before + [answer] + between), Address).1 == Flown(e))
  {
    RunFour(e, before, Answer(Client, fingerprint), between, Address);
    if HasHello(before) {
      HelloDecides(e, NEW, before);
      RoleStays(e, Run(e, NEW, before), [Answer(Client, fingerprint)] + between + [Address]);
    } else {
      Waits(e, NEW, before);
      Waits(e, Step(e, NEW, Answer(Client, fingerprint)).0, between);
    }
  }

  lemma AddressFirst(e: Engine, fingerprint: Fingerprint, before: seq<Call>, between: seq<Call>)
    requires Lawful(e) && fingerprint != 0 && Idle(before) && Idle(between)
    ensures
      var (answer, started) := (Answer(Client, fingerprint), ClientStarted(e, fingerprint));
      && (Run(e, NEW, before + [Address] + between + [answer]) == started <==> !HasHello(before) && !HasHello(between))
      && (!HasHello(before) && !HasHello(between) ==>
           Step(e, Run(e, NEW, before + [Address] + between), answer).1 == Flown(e))
  {
    var answer := Answer(Client, fingerprint);
    RunFour(e, before, Address, between, answer);
    if HasHello(before) {
      HelloDecides(e, NEW, before);
      RoleStays(e, Run(e, NEW, before), [Address] + between + [answer]);
    } else {
      Waits(e, NEW, before);
      var h := Step(e, NEW, Address).0;
      if HasHello(between) {
        HelloDecides(e, h, between);
        RoleStays(e, Run(e, h, between), [answer]);
        RunOne(e, Run(e, h, between), answer);
      } else {
        Waits(e, h, between);
      }
    }
  }

  lemma RunFour(e: Engine, before: seq<Call>, x: Call, between: seq<Call>, y: Call)
    ensures
      var h := Run(e, NEW, before);
      var k := Run(e, Step(e, h, x).0, between);
      && Run(e, NEW, before + [x] + between) == k && Run(e, NEW, before + [x] + between + [y]) == Step(e, k, y).0
      && Run(e, h, [x] + between + [y]) == Step(e, k, y).0
  {
    RunAppend(e, NEW, before + [x] + between, [y]);
    RunAppend(e, NEW, before + [x], between);
    RunAppend(e, NEW, before, [x]);
    RunOne(e, Run(e, NEW, before), x);
    RunOne(e, Run(e, NEW, before + [x] + between), y);
    assert before + [x] + between + [y] == before + ([x] + between + [y]);
    RunAppend(e, NEW, before, [x] + between + [y]);
  }

  // ── The handshake ────────────────────────────────────────────────

  class DtlsHandshake {
    const e: Engine
    var engine: Option<Session>
    var role: Option<DtlsRole>
    var remoteFingerprint: Option<Fingerprint>
    var addressSelected: bool
    var state: T.DtlsState
    ghost var starts: nat
    ghost var completions: nat

    ghost function View(): Handshake
      reads this
    {
      Handshake(engine, role, remoteFingerprint, addressSelected, state, starts, completions)
    }

    ghost predicate Valid()
      reads this
    {
      Lawful(e) && Good(e, View())
    }

    constructor (e: Engine)
      requires Lawful(e)
      ensures this.e == e && View() == NEW && Valid()
    {
      this.e := e;
      engine, role, remoteFingerprint, addressSelected, state := None, None, None, false, T.Running;
      starts, completions := 0, 0;
    }

    method OnAnswer(answerRole: DtlsRole, fingerprint: Fingerprint) returns (r: Outcome)
      requires Valid()
      modifies this
      ensures Valid() && (View(), r) == AfterAnswer(e, old(View()), answerRole, fingerprint)
    {
      StepKeepsGood(e, View(), Answer(answerRole, fingerprint));
      if state == T.Failed {
        return Err(AlreadyFailed);
      }
      r := ApplyAnswer(answerRole, fingerprint);
    }

    method ApplyAnswer(answerRole: DtlsRole, fingerprint: Fingerprint) returns (r: Outcome)
      requires state != T.Failed
      modifies this
      ensures (View(), r) == AfterAnswer(e, old(View()), answerRole, fingerprint)
    {
      if fingerprint == 0 {
        r := FailOn(ZeroFingerprint);
        return;
      }
      if remoteFingerprint.Some? && remoteFingerprint.value != fingerprint {
        r := FailOn(FingerprintMismatch);
        return;
      }
      remoteFingerprint := Some(fingerprint);
      if role.Some? && role.value != answerRole {
        r := FailOn(RoleConflict);
        return;
      }
      role := Some(answerRole);
      var datagrams := [];
      if state == T.Running && engine.None? {
        if answerRole == Server {
          var flight := StartEngine(Server);
          if flight.None? {
            r := FailOn(EngineFailed);
            return;
          }
        } else if addressSelected {
          var flight := StartEngine(Client);
          if flight.None? {
            r := FailOn(EngineFailed);
            return;
          }
          datagrams := flight.value;
        }
      }
      r := CheckCompletion(datagrams);
    }

    method OnAddressSelected() returns (r: Outcome)
      requires Valid()
      modifies this
      ensures Valid() && (View(), r) == AfterAddress(e, old(View()))
    {
      StepKeepsGood(e, View(), Address);
      if state == T.Failed {
        return Err(AlreadyFailed);
      }
      addressSelected := true;
      if state == T.Running && engine.None? && role == Some(Client) {
        var flight := StartEngine(Client);
        if flight.None? {
          r := FailOn(EngineFailed);
          return;
        }
        return Progress(flight.value, false);
      }
      return NOTHING;
    }

    method Process(datagram: Datagram) returns (r: Outcome)
      requires Valid()
      modifies this
      ensures Valid() && (View(), r) == AfterDatagram(e, old(View()), datagram)
    {
      StepKeepsGood(e, View(), Receive(datagram));
      if datagram == [] || |datagram| > MAX_BIO_READ {
        return Err(InvalidDatagram);
      }
      if state == T.Failed {
        return Err(AlreadyFailed);
      }
      if state == T.Freed {
        return NOTHING;
      }
      if engine.None? {
        if role == Some(Client) || !IsClientHello(datagram) {
          return NOTHING;
        }
        role := Some(Server);
        var flight := StartEngine(Server);
        if flight.None? {
          r := FailOn(EngineFailed);
          return;
        }
      }
      r := Feed(datagram);
    }

    method Feed(datagram: Datagram) returns (r: Outcome)
      requires engine.Some?
      modifies this
      ensures (View(), r) == AfterFeed(e, old(View()), datagram)
    {
      var s := Session(engine.value.role, engine.value.input + [datagram]);
      var output := e.reply(s.role, s.input);
      if output.None? {
        r := FailOn(EngineFailed);
        return;
      }
      engine := Some(s);
      r := CheckCompletion(output.value);
    }

    method HandleTimeout() returns (r: Outcome)
      requires Valid()
      modifies this
      ensures Valid() && (View(), r) == AfterTimeout(e, old(View()))
    {
      StepKeepsGood(e, View(), Timeout);
      if state == T.Failed {
        return Err(AlreadyFailed);
      }
      if engine.None? || state != T.Running {
        return NOTHING;
      }
      var output := e.timeout(engine.value.role, engine.value.input);
      if output.None? {
        r := FailOn(EngineFailed);
        return;
      }
      return Progress(output.value, false);
    }

    method FreeSsl() returns (freed: bool)
      requires Valid()
      modifies this
      ensures Valid() && View() == AfterFree(old(View())) && freed == (old(state) == T.Complete)
    {
      StepKeepsGood(e, View(), Free);
      if state != T.Complete {
        return false;
      }
      engine, state := None, T.Freed;
      return true;
    }

    /** The source's assert that the engine starts once is the precondition. */
    method StartEngine(engineRole: DtlsRole) returns (r: Option<Flight>)
      requires engine.None?
      modifies this
      ensures View() == Started(e, old(View()), engineRole) && r == e.start(engineRole)
    {
      starts := starts + 1;
      r := e.start(engineRole);
      if r.Some? {
        engine := Some(Session(engineRole, []));
      }
    }

    method CheckCompletion(datagrams: Flight) returns (r: Outcome)
      modifies this
      ensures (View(), r) == Checked(e, old(View()), datagrams)
    {
      if engine.None? || state != T.Running || !e.done(engine.value.role, engine.value.input)
        || remoteFingerprint.None? {
        return Progress(datagrams, false);
      }
      if e.peer(engine.value.role, engine.value.input) != remoteFingerprint {
        r := FailOn(FingerprintMismatch);
        return;
      }
      state := T.Complete;
      completions := completions + 1;
      return Progress(datagrams, true);
    }

    method FailOn(error: HandshakeError) returns (r: Outcome)
      modifies this
      ensures View() == Fail(old(View())) && r == Err(error)
    {
      state, engine := T.Failed, None;
      return Err(error);
    }
  }
}
