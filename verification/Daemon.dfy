/**
 The session daemon: one warm database connection behind a mutex, any number of
 clients. Each event is one step of one client's task; between two steps of a
 client any other client may move.
 */
module Daemon {
  import opened Prelude

  /** The warm connection: open transactions and references to the advisory lock. */
  datatype Conn = Conn(tx: nat, locks: nat)

  const CLEAN := Conn(0, 0)

  /** One request line; `refused` when the endpoint it declares is not the daemon's. */
  datatype Line = Eof | TooLong | Malformed | Auth(valid: bool) | Stats | Rpc(refused: bool)

  /** `Waiting` for the mutex, `Ready` to dispatch with the mutex held. */
  datatype Stage = Reading | Waiting | Ready | Closing | Gone

  /** `authAt` and `refusedAt` say how long the log was when it happened. */
  datatype Client = Client(stage: Stage, holding: bool, authAt: Option<nat>, refusedAt: Option<nat>)

  /** A request that ran, with the connection as it left it (`None` when it timed out), or a cleanup. */
  datatype Entry = Dispatched(client: nat, left: Option<Conn>) | Cleaned(client: nat)

  datatype State = State(
    needToken: bool,
    warm: Option<Conn>,
    owner: Option<nat>,
    clients: seq<Client>,
    log: seq<Entry>,
    /** The daemon reported a missing database session. */
    missing: bool)

  datatype Event =
    | Connect
    | Receive(i: nat, line: Line, written: bool)
    | Lock(i: nat, connected: bool)
    | Dispatch(i: nat, becomes: Conn, timedOut: bool, written: bool)
    | Finish(i: nat, rolledBack: bool, released: bool)

  /** The daemon connects before it listens. */
  function Start(needToken: bool): State {
    State(needToken, Some(CLEAN), None, [], [], false)
  }

  /** What a client's task does with the line it read. */
  function Handle(c: Client, line: Line, written: bool, now: nat): Client {
    match line
    case Eof => c.(stage := Closing)
    case TooLong => c.(stage := Closing)
    case Malformed => c.(stage := if written then Reading else Closing)
    case Auth(valid) =>
      if !valid then c.(stage := Closing)
      else c.(stage := if written then Reading else Closing, authAt := if c.authAt.Some? then c.authAt else Some(now))
    case Stats => c.(stage := if c.authAt.Some? && written then Reading else Closing)
    case Rpc(refused) =>
      if c.authAt.None? then c.(stage := Closing)
      else if refused then c.(stage := Closing, refusedAt := Some(now))
      else c.(stage := if c.holding then Ready else Waiting)
  }

  /** ROLLBACK if a transaction is open, then release one reference to the lock; any failure discards the connection. */
  function CleanedUp(warm: Option<Conn>, rolledBack: bool, released: bool): Option<Conn> {
    if warm.None? || !rolledBack || !released then None
    else Some(Conn(0, if warm.value.locks > 0 then warm.value.locks - 1 else 0))
  }

  function SetClient(s: State, i: nat, c: Client): State
    requires i < |s.clients|
  {
    s.(clients := s.clients[i := c])
  }

  /** An event that cannot happen now changes nothing. */
  function Next(s: State, e: Event): State {
    match e
    case Connect =>
      s.(clients := s.clients + [Client(Reading, false, if s.needToken then None else Some(|s.log|), None)])
    case Receive(i, line, written) =>
      if i >= |s.clients| || !s.clients[i].stage.Reading? then s
      else SetClient(s, i, Handle(s.clients[i], line, written, |s.log|))
    case Lock(i, connected) =>
      if i >= |s.clients| || !s.clients[i].stage.Waiting? || s.owner.Some? then s
      else if s.warm.None? && !connected then SetClient(s, i, s.clients[i].(stage := Closing))
      else
        SetClient(s, i, s.clients[i].(stage := Ready, holding := true))
        .(owner := Some(i), warm := if s.warm.None? then Some(CLEAN) else s.warm)
    case Dispatch(i, becomes, timedOut, written) =>
      if i >= |s.clients| || !s.clients[i].stage.Ready? then s
      else if s.warm.None? then SetClient(s, i, s.clients[i].(stage := Closing)).(missing := true)
      else
        SetClient(s, i, s.clients[i].(stage := if timedOut || !written then Closing else Reading))
        .(warm := if timedOut then None else Some(becomes),
          log := s.log + [Dispatched(i, if timedOut then None else Some(becomes))])
    case Finish(i, rolledBack, released) =>
      if i >= |s.clients| || !s.clients[i].stage.Closing? then s
      else if !s.clients[i].holding then SetClient(s, i, s.clients[i].(stage := Gone))
      else
        SetClient(s, i, s.clients[i].(stage := Gone, holding := false))
        .(owner := None, warm := CleanedUp(s.warm, rolledBack, released), log := s.log + [Cleaned(i)])
  }

  function Play(s: State, events: seq<Event>): State {
    if events == [] then s else Next(Play(s, events[..|events| - 1]), events[|events| - 1])
  }

  /** The client whose requests have run since the last cleanup. */
  function Session(log: seq<Entry>): Option<nat> {
    if log == [] || log[|log| - 1].Cleaned? then None else Some(log[|log| - 1].client)
  }

  /** The requests of one client run up to its cleanup before those of another. */
  ghost predicate Bracketed(log: seq<Entry>) {
    forall k :: 0 < k < |log| && log[k - 1].Dispatched? ==> log[k].client == log[k - 1].client
  }

  /** Nothing ran for client `i` before it authenticated or after it was refused. */
  ghost predicate Admitted(log: seq<Entry>, i: nat, c: Client) {
    forall k :: 0 <= k < |log| && log[k].Dispatched? && log[k].client == i ==>
      && c.authAt.Some? && c.authAt.value <= k
      && (c.refusedAt.Some? ==> k < c.refusedAt.value)
  }

  ghost predicate ClientFits(s: State, i: nat)
    requires i < |s.clients|
  {
    var c := s.clients[i];
    && (c.holding <==> s.owner == Some(i))
    && (c.stage.Ready? ==> c.holding) && (c.holding && (c.stage.Ready? || c.stage.Reading?) ==> s.warm.Some?)
    && (c.stage.Gone? || c.stage.Waiting? ==> !c.holding)
    && (c.holding && !c.stage.Ready? ==> s.log != [] && s.log[|s.log| - 1] == Dispatched(i, s.warm))
    && (c.stage.Ready? || c.stage.Waiting? ==> c.authAt.Some?)
    && (c.authAt.Some? ==> c.authAt.value <= |s.log|)
    && (c.refusedAt.Some? ==> (c.stage.Closing? || c.stage.Gone?) && c.refusedAt.value <= |s.log|)
    && Admitted(s.log, i, c)
  }

  ghost predicate Inv(s: State) {
    && (forall i :: 0 <= i < |s.clients| ==> ClientFits(s, i))
    && (s.owner.Some? ==> s.owner.value < |s.clients|)
    && (forall k :: 0 <= k < |s.log| ==> s.log[k].client < |s.clients|)
    && Bracketed(s.log) && (Session(s.log).Some? ==> s.owner == Session(s.log))
    && !s.missing
    && (s.owner.None? && s.warm.Some? ==>
          if s.log == [] then s.warm == Some(CLEAN)
          else MetByCleanup(s.log).Some? && s.warm == CleanedUp(MetByCleanup(s.log), true, true))
  }

  /** The connection the last cleanup met: as the request before it left it. */
  function MetByCleanup(log: seq<Entry>): Option<Conn> {
    if |log| >= 2 && log[|log| - 1].Cleaned? && log[|log| - 2].Dispatched? then log[|log| - 2].left else None
  }

  lemma {:induction false} LogGrows(s: State, t: State, i: nat, e: Entry)
    requires Bracketed(s.log) && t.log == s.log + [e] && (Session(s.log).Some? ==> Session(s.log) == Some(e.client))
    ensures Bracketed(t.log) && Session(t.log) == if e.Cleaned? then None else Some(e.client)
  {
  }

  /** A client that does not move still fits. */
  lemma {:induction false} OthersFit(s: State, t: State, i: nat, j: nat)
    requires i < |s.clients| == |t.clients| && j < |s.clients| && j != i && t.clients[j] == s.clients[j]
    requires ClientFits(s, j) && (t.owner == Some(j) <==> s.owner == Some(j)) && (s.owner == Some(j) ==> t.warm == s.warm && t.log == s.log)
    requires t.log == s.log || (exists e :: t.log == s.log + [e] && e.client == i)
    ensures ClientFits(t, j)
  {
  }

  lemma {:induction false} NextKeeps(s: State, e: Event)
    requires Inv(s)
    ensures Inv(Next(s, e))
  {
    var t := Next(s, e);
    if t != s {
      match e
      case Connect => ConnectKeeps(s);
      case _ => StepKeeps(s, e);
    }
  }

  lemma {:induction false} ConnectKeeps(s: State)
    requires Inv(s)
    ensures Inv(Next(s, Connect))
  {
    var t := Next(s, Connect);
    forall j | 0 <= j < |t.clients|
      ensures ClientFits(t, j)
    {
      if j < |s.clients| {
        assert t.clients[j] == s.clients[j] && ClientFits(s, j);
      }
    }
  }

  lemma {:induction false} StepKeeps(s: State, e: Event)
    requires Inv(s) && !e.Connect? && Next(s, e) != s
    ensures Inv(Next(s, e))
  {
    var t, i := Next(s, e), e.i;
    assert ClientFits(s, i);
    if e.Dispatch? {
      LogGrows(s, t, i, t.log[|s.log|]);
    }
    if e.Finish? && s.clients[i].holding {
      LogGrows(s, t, i, Cleaned(i));
    }
    forall j | 0 <= j < |t.clients|
      ensures ClientFits(t, j)
    {
      if j != i {
        assert ClientFits(s, j);
        OthersFit(s, t, i, j);
      } else {
        MoverFits(s, e);
      }
    }
  }

  lemma {:induction false} AdmittedStill(log: seq<Entry>, e: Entry, i: nat, c: Client)
    requires Admitted(log, i, c)
    requires e.Dispatched? && e.client == i ==> c.authAt.Some? && c.authAt.value <= |log| && c.refusedAt.None?
    ensures Admitted(log + [e], i, c)
  {
  }

  lemma {:induction false} ReceiveFits(s: State, e: Event)
    requires Inv(s) && e.Receive? && e.i < |s.clients| && Next(s, e) != s
    ensures e.i < |Next(s, e).clients| && ClientFits(Next(s, e), e.i)
  {
    assert ClientFits(s, e.i);
  }

  lemma {:induction false} LockFits(s: State, e: Event)
    requires Inv(s) && e.Lock? && e.i < |s.clients| && Next(s, e) != s
    ensures e.i < |Next(s, e).clients| && ClientFits(Next(s, e), e.i)
  {
    assert ClientFits(s, e.i);
  }

  lemma {:induction false} DispatchFits(s: State, e: Event)
    requires Inv(s) && e.Dispatch? && e.i < |s.clients| && Next(s, e) != s
    ensures e.i < |Next(s, e).clients| && ClientFits(Next(s, e), e.i)
  {
    assert ClientFits(s, e.i);
    AdmittedStill(s.log, Next(s, e).log[|s.log|], e.i, Next(s, e).clients[e.i]);
  }

  lemma {:induction false} FinishFits(s: State, e: Event)
    requires Inv(s) && e.Finish? && e.i < |s.clients| && Next(s, e) != s
    ensures e.i < |Next(s, e).clients| && ClientFits(Next(s, e), e.i)
  {
    assert ClientFits(s, e.i);
    AdmittedStill(s.log, Cleaned(e.i), e.i, Next(s, e).clients[e.i]);
  }

  lemma {:induction false} MoverFits(s: State, e: Event)
    requires Inv(s) && !e.Connect? && e.i < |s.clients| && Next(s, e) != s
    ensures e.i < |Next(s, e).clients| && ClientFits(Next(s, e), e.i)
  {
    match e
    case Receive(_, _, _) => ReceiveFits(s, e);
    case Lock(_, _) => LockFits(s, e);
    case Dispatch(_, _, _, _) => DispatchFits(s, e);
    case Finish(_, _, _) => FinishFits(s, e);
  }

  lemma {:induction false} PlayKeeps(s: State, events: seq<Event>)
    requires Inv(s)
    ensures Inv(Play(s, events))
  {
    if events != [] {
      var n := |events| - 1;
      PlayKeeps(s, events[..n]);
      NextKeeps(Play(s, events[..n]), events[n]);
    }
  }

  /**
   Isolation over every run. Whenever the mutex is free and the connection present,
   it has no open transaction, and it is clean if and only if no request has run yet
   or the last cleanup met at most one reference to the advisory lock; the requests
   of one client run up to its cleanup before those of any other; nothing runs for a
   client before it authenticated or after its endpoint was refused; and a missing
   session is never reported.
   */
  lemma {:induction false} RunsAreIsolated(needToken: bool, events: seq<Event>)
    ensures var s := Play(Start(needToken), events);
            && (s.owner.None? && s.warm.Some? ==>
                  && s.warm.value.tx == 0 && (s.log != [] ==> MetByCleanup(s.log).Some?)
                  && (s.warm.value == CLEAN <==> s.log == [] || MetByCleanup(s.log).value.locks <= 1))
            && Bracketed(s.log) && !s.missing
            && forall i :: 0 <= i < |s.clients| ==> Admitted(s.log, i, s.clients[i])
  {
    PlayKeeps(Start(needToken), events);
    var s := Play(Start(needToken), events);
    forall i | 0 <= i < |s.clients|
      ensures Admitted(s.log, i, s.clients[i])
    {
      assert ClientFits(s, i);
    }
  }

  // ---- Who is served, read off the events alone ----

  /** Event `m` is client `i` reading this line. */
  ghost predicate Reads(needToken: bool, events: seq<Event>, m: nat, i: nat, line: Line) {
    && m < |events| && events[m].Receive? && events[m].i == i && events[m].line == line
    && var s := Play(Start(needToken), events[..m]); i < |s.clients| && s.clients[i].stage.Reading?
  }

  /** After such a line nothing more is read from the client: it left, broke the size limit, sent a wrong token or another server's endpoint. */
  predicate HangsUp(line: Line) {
    line == Eof || line == TooLong || line == Auth(false) || line == Rpc(true)
  }

  lemma {:induction false} ReadsStill(needToken: bool, events: seq<Event>, n: nat, m: nat, i: nat, line: Line)
    requires m < n <= |events|
    ensures Reads(needToken, events, m, i, line) <==> Reads(needToken, events[..n], m, i, line)
  {
    assert events[..n][..m] == events[..m];
  }

  predicate Closed(s: State, i: nat) {
    i < |s.clients| && (s.clients[i].stage.Closing? || s.clients[i].stage.Gone?)
  }

  predicate Pending(s: State, i: nat) {
    i < |s.clients| && (s.clients[i].stage.Waiting? || s.clients[i].stage.Ready?)
  }

  lemma {:induction false} StaysClosed(s: State, e: Event, i: nat)
    requires Closed(s, i)
    ensures Closed(Next(s, e), i)
  {
  }

  lemma {:induction false} BecomesClosed(s: State, i: nat, line: Line, written: bool)
    requires i < |s.clients| && s.clients[i].stage.Reading? && HangsUp(line)
    ensures Closed(Next(s, Receive(i, line, written)), i)
  {
  }

  lemma {:induction false} BecomesPending(s: State, e: Event, i: nat)
    requires Pending(Next(s, e), i) && !Pending(s, i)
    ensures e.Receive? && e.i == i && e.line == Rpc(false) && i < |s.clients| && s.clients[i].stage.Reading?
    ensures Next(s, e).clients[i].authAt.Some?
  {
  }

  lemma {:induction false} BecomesAuthenticated(s: State, e: Event, i: nat)
    requires s.needToken && i < |Next(s, e).clients| && Next(s, e).clients[i].authAt.Some? && !(i < |s.clients| && s.clients[i].authAt.Some?)
    ensures e.Receive? && e.i == i && e.line == Auth(true) && i < |s.clients| && s.clients[i].stage.Reading?
  {
  }

  lemma {:induction false} StaysAuthenticated(s: State, e: Event, i: nat)
    requires i < |s.clients| && s.clients[i].authAt.Some?
    ensures i < |Next(s, e).clients| && Next(s, e).clients[i].authAt.Some?
  {
  }

  /** A client counts as authenticated only if it has sent the right token. */
  lemma {:induction false} AuthenticatedByToken(events: seq<Event>, i: nat)
    requires var s := Play(Start(true), events); i < |s.clients| && s.clients[i].authAt.Some?
    ensures exists m :: 0 <= m < |events| && Reads(true, events, m, i, Auth(true))
  {
    var n := |events| - 1;
    var before := Play(Start(true), events[..n]);
    TokenNeeded(true, events[..n]);
    if i < |before.clients| && before.clients[i].authAt.Some? {
      AuthenticatedByToken(events[..n], i);
      var m :| 0 <= m < n && Reads(true, events[..n], m, i, Auth(true));
      ReadsStill(true, events, n, m, i, Auth(true));
    } else {
      BecomesAuthenticated(before, events[n], i);
      assert Reads(true, events, n, i, Auth(true));
    }
  }

  lemma {:induction false} TokenNeeded(needToken: bool, events: seq<Event>)
    ensures Play(Start(needToken), events).needToken == needToken
  {
    if events != [] {
      TokenNeeded(needToken, events[..|events| - 1]);
    }
  }

  lemma {:induction false} HungUp(needToken: bool, events: seq<Event>, m: nat, i: nat, line: Line)
    requires Reads(needToken, events, m, i, line) && HangsUp(line)
    ensures Closed(Play(Start(needToken), events), i)
  {
    var n := |events| - 1;
    if m < n {
      ReadsStill(needToken, events, n, m, i, line);
      HungUp(needToken, events[..n], m, i, line);
      StaysClosed(Play(Start(needToken), events[..n]), events[n], i);
    } else {
      BecomesClosed(Play(Start(needToken), events[..n]), i, line, events[n].written);
    }
  }

  /** A client waits for the mutex, or is about to dispatch, only after a request for the daemon's own server that it sent when authenticated. */
  lemma {:induction false} AskedFor(needToken: bool, events: seq<Event>, i: nat)
    requires Pending(Play(Start(needToken), events), i)
    ensures Play(Start(needToken), events).clients[i].authAt.Some?
    ensures exists m :: 0 <= m < |events| && Reads(needToken, events, m, i, Rpc(false))
  {
    var n := |events| - 1;
    var before := Play(Start(needToken), events[..n]);
    if Pending(before, i) {
      AskedFor(needToken, events[..n], i);
      StaysAuthenticated(before, events[n], i);
      var m :| 0 <= m < n && Reads(needToken, events[..n], m, i, Rpc(false));
      ReadsStill(needToken, events, n, m, i, Rpc(false));
    } else {
      BecomesPending(before, events[n], i);
      assert Reads(needToken, events, n, i, Rpc(false));
    }
  }

  /**
   Whatever reached the warm connection: the client had asked for it, had sent the
   right token before if one is required, and had never sent a wrong token, an
   over-long line or a request for another server.
   */
  lemma {:induction false} ServedOnlyIfAdmitted(needToken: bool, events: seq<Event>, n: nat, i: nat)
    requires n < |events| && events[n].Dispatch? && events[n].i == i
    requires Play(Start(needToken), events[..n + 1]).log != Play(Start(needToken), events[..n]).log
    ensures exists m :: 0 <= m < n && Reads(needToken, events, m, i, Rpc(false))
    ensures needToken ==> exists m :: 0 <= m < n && Reads(needToken, events, m, i, Auth(true))
    ensures forall m, line :: 0 <= m < n && HangsUp(line) ==> !Reads(needToken, events, m, i, line)
  {
    var early := events[..n];
    assert events[..n + 1][..n] == early;
    assert Pending(Play(Start(needToken), early), i);
    AskedFor(needToken, early, i);
    var a :| 0 <= a < n && Reads(needToken, early, a, i, Rpc(false));
    ReadsStill(needToken, events, n, a, i, Rpc(false));
    if needToken {
      AuthenticatedByToken(early, i);
      var b :| 0 <= b < n && Reads(needToken, early, b, i, Auth(true));
      ReadsStill(needToken, events, n, b, i, Auth(true));
    }
    forall m, line | 0 <= m < n && HangsUp(line)
      ensures !Reads(needToken, events, m, i, line)
    {
      ReadsStill(needToken, events, n, m, i, line);
      if Reads(needToken, early, m, i, line) {
        HungUp(needToken, early, m, i, line);
      }
    }
  }

  /** A client with the right token is not turned away: it stays, authenticated, and its next request waits for the mutex. */
  lemma {:induction false} RightTokenAdmits(s: State, i: nat)
    requires i < |s.clients| && s.clients[i].stage.Reading? && !s.clients[i].holding
    ensures var t := Play(s, [Receive(i, Auth(true), true), Receive(i, Rpc(false), true)]);
            i < |t.clients| && t.clients[i].stage.Waiting? && t.clients[i].authAt.Some?
  {
    var first, second := Receive(i, Auth(true), true), Receive(i, Rpc(false), true);
    assert [first, second] == [first] + [second];
    PlayAppend(s, [first], [second]);
    PlaySingle(s, first);
    PlaySingle(Next(s, first), second);
  }

  /** The request leaves at most one reference to the advisory lock: rmig acquires it once per run. */
  predicate LocksOnce(e: Event) {
    e.Dispatch? ==> e.becomes.locks <= 1
  }

  lemma {:induction false} LogOfLocksOnce(needToken: bool, events: seq<Event>)
    requires forall e :: e in events ==> LocksOnce(e)
    ensures forall x :: x in Play(Start(needToken), events).log && x.Dispatched? && x.left.Some? ==> x.left.value.locks <= 1
  {
    if events != [] {
      var n := |events| - 1;
      LogOfLocksOnce(needToken, events[..n]);
      assert LocksOnce(events[n]);
    }
  }

  /** Clients that never hold a second reference leave the idle connection clean. */
  lemma {:induction false} LockedOnceIsClean(needToken: bool, events: seq<Event>)
    requires forall e :: e in events ==> LocksOnce(e)
    ensures var s := Play(Start(needToken), events); s.owner.None? && s.warm.Some? ==> s.warm.value == CLEAN
  {
    RunsAreIsolated(needToken, events);
    LogOfLocksOnce(needToken, events);
    var s := Play(Start(needToken), events);
    if s.owner.None? && s.warm.Some? && s.log != [] {
      assert s.log[|s.log| - 2] in s.log;
    }
  }

  lemma {:induction false} PlayOneMore(s: State, events: seq<Event>, e: Event)
    ensures Play(s, events + [e]) == Next(Play(s, events), e)
  {
  }

  lemma {:induction false} SameToken(s: State, e: Event)
    ensures Next(s, e).needToken == s.needToken
  {
  }

  lemma {:induction false} PlaySingle(s: State, e: Event)
    ensures Play(s, [e]) == Next(s, e)
  {
  }

  lemma {:induction false} PlayAppend(s: State, xs: seq<Event>, ys: seq<Event>)
    ensures Play(s, xs + ys) == Play(Play(s, xs), ys)
    decreases |ys|
  {
    if ys == [] {
      assert xs + ys == xs;
    } else {
      var n := |ys| - 1;
      LastOfAppend(xs, ys);
      PlayAppend(s, xs, ys[..n]);
    }
  }

  /**
   Any connection a client leaves with two or more references to the lock: the lock
   stays held on the idle connection, although every step of the cleanup succeeds.
   */
  lemma {:induction false} SecondReferenceStays(becomes: Conn) returns (events: seq<Event>)
    requires becomes.locks >= 2
    ensures var s := Play(Start(false), events);
            s.owner.None? && s.warm == Some(Conn(0, becomes.locks - 1)) && s.warm.value != CLEAN
  {
    var s0 := Start(false);
    var opening := [Connect, Receive(0, Rpc(false), true), Lock(0, true)];
    var closing := [Dispatch(0, becomes, false, true), Receive(0, Eof, true), Finish(0, true, true)];
    PlayThree(s0, opening[0], opening[1], opening[2]);
    var locked := State(false, Some(CLEAN), Some(0), [Client(Ready, true, Some(0), None)], [], false);
    assert Play(s0, opening) == locked;
    PlayThree(locked, closing[0], closing[1], closing[2]);
    PlayAppend(s0, opening, closing);
    events := opening + closing;
  }

  lemma {:induction false} PlayThree(s: State, a: Event, b: Event, c: Event)
    ensures Play(s, [a, b, c]) == Next(Next(Next(s, a), b), c)
  {
    assert [a, b, c] == [a, b] + [c] && [a, b] == [a] + [b];
    PlayAppend(s, [a, b], [c]);
    PlayAppend(s, [a], [b]);
    PlaySingle(s, a);
    PlaySingle(Next(s, a), b);
    PlaySingle(Next(Next(s, a), b), c);
  }

  /** The event is a step of client `i`. */
  predicate StepOf(e: Event, i: nat) {
    !e.Connect? && e.i == i
  }

  /** What other clients do neither moves client `i` nor, while it holds the mutex, touches the connection. */
  lemma {:induction false} OthersLeaveAlone(s: State, events: seq<Event>, i: nat)
    requires Inv(s) && i < |s.clients| && forall e :: e in events ==> !StepOf(e, i)
    ensures var t := Play(s, events);
            && i < |t.clients| && t.clients[i] == s.clients[i]
            && (t.owner == Some(i) <==> s.owner == Some(i)) && (s.owner == Some(i) ==> t.warm == s.warm)
  {
    if events != [] {
      var n := |events| - 1;
      assert events[n] in events && forall e :: e in events[..n] ==> e in events;
      OthersLeaveAlone(s, events[..n], i);
      PlayKeeps(s, events[..n]);
      OneOtherLeavesAlone(Play(s, events[..n]), events[n], i);
    }
  }

  lemma {:induction false} OneOtherLeavesAlone(s: State, e: Event, i: nat)
    requires Inv(s) && i < |s.clients| && !StepOf(e, i)
    ensures var t := Next(s, e);
            && i < |t.clients| && t.clients[i] == s.clients[i]
            && (t.owner == Some(i) <==> s.owner == Some(i)) && (s.owner == Some(i) ==> t.warm == s.warm)
  {
    assert ClientFits(s, i);
    if !e.Connect? && e.i < |s.clients| {
      assert ClientFits(s, e.i);
    }
  }

  /**
   One input of a client's task: what the other clients do before it is read and
   while the client waits for the mutex, the line, and how its own steps turn out.
   */
  datatype Input = Input(before: seq<Event>, line: Line, written: bool, waiting: seq<Event>, connected: bool, becomes: Conn, timedOut: bool)

  /** The interludes are steps of others. */
  ghost predicate Foreign(input: Input, i: nat) {
    (forall e :: e in input.before ==> !StepOf(e, i)) && (forall e :: e in input.waiting ==> !StepOf(e, i))
  }

  /** The daemon: the connection, the mutex and what every client's task knows. */
  class Rmigd {
    const needToken: bool
    var warm: Option<Conn>
    var owner: Option<nat>
    var clients: seq<Client>
    var log: seq<Entry>
    var missing: bool

    constructor (needToken: bool)
      ensures View() == Start(needToken)
    {
      this.needToken, warm, owner := needToken, Some(CLEAN), None;
      clients, log, missing := [], [], false;
    }

    function View(): State
      reads this
    {
      State(needToken, warm, owner, clients, log, missing)
    }

    /** Other clients move. */
    method Interlude(events: seq<Event>)
      modifies this
      ensures View() == Play(old(View()), events)
    {
      for k := 0 to |events|
        invariant View() == Play(old(View()), events[..k])
      {
        TakeOneMore(events, k);
        PlayOneMore(old(View()), events[..k], events[k]);
        var s := Next(View(), events[k]);
        SameToken(View(), events[k]);
        warm, owner, clients, log, missing := s.warm, s.owner, s.clients, s.log, s.missing;
      }
      assert events[..|events|] == events;
    }

    /** Takes the free mutex and reconnects when there is no connection; on failure the mutex is dropped again. */
    method AcquireSession(i: nat, connected: bool) returns (ok: bool)
      requires i < |clients| && clients[i].stage.Waiting? && !clients[i].holding && owner.None?
      modifies this
      ensures View() == Play(old(View()), [Lock(i, connected)])
      ensures ok <==> connected || old(warm).Some?
      ensures |clients| == old(|clients|) && clients[i] == old(clients[i]).(stage := if ok then Ready else Closing, holding := ok)
      ensures owner == (if ok then Some(i) else None) && warm == if ok && old(warm).None? then Some(CLEAN) else old(warm)
    {
      PlaySingle(View(), Lock(i, connected));
      if warm.None? && !connected {
        clients := clients[i := clients[i].(stage := Closing)];
        return false;
      }
      owner := Some(i);
      if warm.None? {
        warm := Some(CLEAN);
      }
      clients := clients[i := clients[i].(stage := Ready, holding := true)];
      return true;
    }

    /** Runs one request; a request that times out costs the connection. The result says whether to go on reading. */
    method DispatchRequest(i: nat, input: Input) returns (goOn: bool)
      requires i < |clients| && clients[i].stage.Ready?
      modifies this
      ensures View() == Play(old(View()), [Dispatch(i, input.becomes, input.timedOut, input.written)])
      ensures |clients| == old(|clients|) && clients[i] == old(clients[i]).(stage := if goOn then Reading else Closing)
      ensures owner == old(owner)
      ensures old(warm).Some? ==> goOn == (!input.timedOut && input.written) && (input.timedOut ==> warm.None?)
    {
      PlaySingle(View(), Dispatch(i, input.becomes, input.timedOut, input.written));
      if warm.None? {
        missing := true;
        clients := clients[i := clients[i].(stage := Closing)];
        return false;
      }
      if input.timedOut {
        log := log + [Dispatched(i, None)];
        warm := None;
        clients := clients[i := clients[i].(stage := Closing)];
        return false;
      }
      log := log + [Dispatched(i, Some(input.becomes))];
      warm := Some(input.becomes);
      clients := clients[i := clients[i].(stage := if input.written then Reading else Closing)];
      return input.written;
    }

    /** Cleans the connection or discards it, and lets go of the mutex. */
    method Cleanup(i: nat, session: bool, rolledBack: bool, released: bool)
      requires i < |clients| && clients[i].stage.Closing? && clients[i].holding == session
      modifies this
      ensures View() == Play(old(View()), [Finish(i, rolledBack, released)])
      ensures |clients| == old(|clients|) && clients[i].stage.Gone? && !clients[i].holding
      ensures if session then owner.None? && (!rolledBack || !released ==> warm.None?) && (warm.Some? ==> warm.value.tx == 0)
              else owner == old(owner) && warm == old(warm)
    {
      PlaySingle(View(), Finish(i, rolledBack, released));
      if session {
        if warm.Some? {
          if !rolledBack || !released {
            warm := None;
          } else {
            warm := Some(Conn(0, if warm.value.locks > 0 then warm.value.locks - 1 else 0));
          }
        }
        owner := None;
        log := log + [Cleaned(i)];
      }
      clients := clients[i := clients[i].(stage := Gone, holding := false)];
    }

    /** Client `i` reads, and its variables agree with what is recorded about it. */
    ghost predicate Serving(i: nat, authenticated: bool, session: bool)
      reads this
    {
      && i < |clients| && clients[i].stage.Reading?
      && (authenticated <==> clients[i].authAt.Some?) && (session <==> clients[i].holding)
    }

    /** Authentication, daemon-level requests and refusals; `rpc` when the request is to be dispatched. */
    method Admit(i: nat, input: Input, wasAuthenticated: bool, session: bool) returns (authenticated: bool, goOn: bool, rpc: bool)
      requires Serving(i, wasAuthenticated, session)
      modifies this`clients
      ensures View() == Play(old(View()), [Receive(i, input.line, input.written)])
      ensures |clients| == old(|clients|) && (authenticated <==> clients[i].authAt.Some?)
      ensures if rpc then clients[i].stage == (if session then Ready else Waiting)
              else goOn == clients[i].stage.Reading? && (!goOn ==> clients[i].stage.Closing?)
      ensures clients[i].holding == session
      ensures authenticated == (wasAuthenticated || input.line == Auth(true)) && rpc == (wasAuthenticated && input.line == Rpc(false))
      ensures !rpc ==> goOn == (input.written && (input.line.Malformed? || input.line == Auth(true) || (input.line.Stats? && wasAuthenticated)))
    {
      PlaySingle(View(), Receive(i, input.line, input.written));
      clients := clients[i := Handle(clients[i], input.line, input.written, |log|)];
      authenticated, rpc := wasAuthenticated, false;
      match input.line
      case Eof => goOn := false;
      case TooLong => goOn := false;
      case Malformed => goOn := input.written;
      case Auth(valid) =>
        if valid {
          authenticated := true;
        }
        goOn := valid && input.written;
      case Stats => goOn := authenticated && input.written;
      case Rpc(refused) =>
        if !authenticated {
          return authenticated, false, false;
        }
        if refused {
          return authenticated, false, false;
        }
        goOn, rpc := true, true;
    }

    /** Waits while others move, then takes the mutex if it is free by then. */
    method AwaitSession(i: nat, input: Input) returns (session: bool, ghost events: seq<Event>)
      requires Inv(View()) && i < |clients| && clients[i].stage.Waiting? && !clients[i].holding && Foreign(input, i)
      modifies this
      ensures View() == Play(old(View()), events) && Inv(View()) && i < |clients|
      ensures clients[i] == old(clients[i]).(stage := clients[i].stage, holding := session)
      ensures if session then clients[i].stage.Ready? else clients[i].stage.Waiting? || clients[i].stage.Closing?
    {
      PlayKeeps(View(), input.waiting);
      OthersLeaveAlone(View(), input.waiting, i);
      Interlude(input.waiting);
      events := input.waiting;
      if owner.Some? {
        return false, events;
      }
      ghost var free := View();
      session := AcquireSession(i, input.connected);
      PlayAppend(old(View()), events, [Lock(i, input.connected)]);
      PlayKeeps(free, [Lock(i, input.connected)]);
      events := events + [Lock(i, input.connected)];
    }

    /** An admitted request: the session is awaited if the client does not hold it yet, then the request runs. */
    method RunRpc(i: nat, input: Input, hadSession: bool) returns (session: bool, goOn: bool, ghost events: seq<Event>)
      requires Inv(View()) && i < |clients| && clients[i].holding == hadSession && Foreign(input, i)
      requires clients[i].stage == if hadSession then Ready else Waiting
      modifies this
      ensures View() == Play(old(View()), events) && Inv(View()) && i < |clients|
      ensures clients[i] == old(clients[i]).(stage := clients[i].stage, holding := session)
      ensures if goOn then clients[i].stage.Reading? else clients[i].stage.Closing? || clients[i].stage.Waiting?
    {
      session, events := hadSession, [];
      if !session {
        session, events := AwaitSession(i, input);
        if !session {
          return session, false, events;
        }
      }
      ghost var ready := View();
      goOn := DispatchRequest(i, input);
      ghost var dispatch := [Dispatch(i, input.becomes, input.timedOut, input.written)];
      PlayAppend(old(View()), events, dispatch);
      PlayKeeps(ready, dispatch);
      events := events + dispatch;
    }

    /** One turn of the request loop: others move, a line is read, and the request it holds runs. */
    method ServeOne(i: nat, input: Input, wasAuthenticated: bool, hadSession: bool)
      returns (authenticated: bool, session: bool, goOn: bool, ghost events: seq<Event>)
      requires Inv(View()) && Serving(i, wasAuthenticated, hadSession) && Foreign(input, i)
      modifies this
      ensures View() == Play(old(View()), events) && Inv(View()) && i < |clients| && clients[i].holding == session
      ensures if goOn then Serving(i, authenticated, session) else clients[i].stage.Closing? || clients[i].stage.Waiting?
    {
      session := hadSession;
      PlayKeeps(View(), input.before);
      OthersLeaveAlone(View(), input.before, i);
      Interlude(input.before);
      ghost var reading := View();
      var rpc;
      authenticated, goOn, rpc := Admit(i, input, wasAuthenticated, hadSession);
      ghost var line := [Receive(i, input.line, input.written)];
      PlayAppend(old(View()), input.before, line);
      PlayKeeps(reading, line);
      events := input.before + line;
      if rpc {
        ghost var more;
        session, goOn, more := RunRpc(i, input, hadSession);
        PlayAppend(old(View()), events, more);
        events := events + more;
      }
    }

    /** The request loop; without a further line the client is taken to have hung up. */
    method ServeLoop(i: nat, inputs: seq<Input>) returns (session: bool, ghost trace: seq<Event>)
      requires Inv(View()) && Serving(i, !needToken, false) && forall input :: input in inputs ==> Foreign(input, i)
      modifies this
      ensures View() == Play(old(View()), trace) && Inv(View()) && i < |clients| && clients[i].holding == session
      ensures clients[i].stage.Closing? || clients[i].stage.Waiting?
    {
      var authenticated, goOn, k := !needToken, true, 0;
      session, trace := false, [];
      while goOn && k < |inputs|
        invariant 0 <= k <= |inputs| && View() == Play(old(View()), trace) && Inv(View())
        invariant i < |clients| && clients[i].holding == session
        invariant if goOn then Serving(i, authenticated, session) else clients[i].stage.Closing? || clients[i].stage.Waiting?
        decreases |inputs| - k
      {
        ghost var events;
        authenticated, session, goOn, events := ServeOne(i, inputs[k], authenticated, session);
        PlayAppend(old(View()), trace, events);
        trace := trace + events;
        k := k + 1;
      }
      if goOn {
        ghost var eof := [Receive(i, Eof, true)];
        PlaySingle(View(), eof[0]);
        PlayKeeps(View(), eof);
        clients := clients[i := Handle(clients[i], Eof, true, |log|)];
        PlayAppend(old(View()), trace, eof);
        trace := trace + eof;
      }
    }

    /**
     A whole client among any others: its handling, with everything the others do
     in between, is a run of the daemon. Unless it is still waiting for the mutex it
     ends gone, with the mutex not in its hands.
     */
    method Serve(i: nat, inputs: seq<Input>, rolledBack: bool, released: bool) returns (ghost trace: seq<Event>)
      requires Inv(View()) && Serving(i, !needToken, false) && forall input :: input in inputs ==> Foreign(input, i)
      modifies this
      ensures View() == Play(old(View()), trace) && Inv(View())
      ensures i < |clients| && !clients[i].holding && owner != Some(i) && (clients[i].stage.Gone? || clients[i].stage.Waiting?)
    {
      var session;
      session, trace := ServeLoop(i, inputs);
      if clients[i].stage.Closing? {
        ghost var closing := View();
        Cleanup(i, session, rolledBack, released);
        ghost var finish := [Finish(i, rolledBack, released)];
        PlayAppend(old(View()), trace, finish);
        PlayKeeps(closing, finish);
        trace := trace + finish;
      }
      assert ClientFits(View(), i);
    }
  }
}
