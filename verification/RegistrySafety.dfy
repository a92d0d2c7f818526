/** What every reachable state of the daemon keeps. */
module RegistrySafety {
  import opened Wrappers
  import opened Links
  import opened Registry

  /** Registered children have pairwise distinct stream ids. */
  predicate DistinctIds(cs: seq<ChildState>) {
    forall i, j | 0 <= i < j < |cs| :: cs[i].sid != cs[j].sid
  }

  /** Their clients are pairwise distinct and registered. */
  predicate DistinctClients(cs: seq<ChildState>) {
    forall i, j | 0 <= i < j < |cs| :: cs[i].client.Some? ==> cs[i].client != cs[j].client
  }

  predicate ClientsRegistered(cs: seq<ChildState>, clients: map<Address, ClientKind>) {
    forall i | 0 <= i < |cs| :: cs[i].client.Some? ==> IsPipe(clients, cs[i].client.value)
  }

  /** No command was written to a client that was not registered. */
  predicate AllLive(log: seq<Entry>) {
    forall i | 0 <= i < |log| :: log[i].Commanded? ==> log[i].live
  }

  predicate Keeps(e: Entry, sid: string) {
    (e.Started? || e.Served?) && e.sid == sid
  }

  /** A child's time stamp is no older than its creation and its last served request. */
  predicate Stamped(s: State) {
    && (forall i | 0 <= i < |s.log| :: s.log[i].at <= s.now)
    && (forall k | 0 <= k < |s.children| :: s.children[k].lastUpdate <= s.now)
    && forall i, k | 0 <= i < |s.log| && 0 <= k < |s.children| ::
         Keeps(s.log[i], s.children[k].sid) ==> s.log[i].at <= s.children[k].lastUpdate
  }

  /** The timer never stopped a stream within its lifetime of being created or of serving a request. */
  predicate NeverEarly(ttl: nat, log: seq<Entry>) {
    forall i, j | 0 <= i < j < |log| ::
      log[j].Commanded? && log[j].byTimer && Keeps(log[i], log[j].sid) ==> log[j].at - log[i].at > ttl * 1000
  }

  predicate Registered(s: State) {
    DistinctIds(s.children) && DistinctClients(s.children) && ClientsRegistered(s.children, s.clients)
  }

  predicate Inv(ttl: nat, s: State) {
    Registered(s) && AllLive(s.log) && Stamped(s) && NeverEarly(ttl, s.log)
  }

  lemma QuietEntry(ttl: nat, log: seq<Entry>, e: Entry)
    requires AllLive(log) && NeverEarly(ttl, log) && !e.Commanded?
    ensures AllLive(log + [e]) && NeverEarly(ttl, log + [e])
  {
    hide Keeps;
  }

  lemma CreateRegistered(s: State, sid: string, o: Outcome)
    requires Registered(s) && Possible(s, o)
    ensures Registered(Create(s, sid, o))
  {
  }

  lemma CreateStamped(s: State, sid: string, o: Outcome)
    requires Stamped(s)
    ensures Stamped(Create(s, sid, o))
  {
  }

  lemma InvCreate(ttl: nat, s: State, sid: string, o: Outcome)
    requires Inv(ttl, s) && Possible(s, o)
    ensures Inv(ttl, Create(s, sid, o))
  {
    hide Registered, AllLive, Stamped, NeverEarly, Possible;
    CreateRegistered(s, sid, o);
    CreateStamped(s, sid, o);
    QuietEntry(ttl, s.log, Started(sid, s.now));
  }

  lemma InvSend(ttl: nat, s: State, i: nat, command: Command, byTimer: bool)
    requires Inv(ttl, s) && i < |s.children| && (byTimer ==> Overdue(ttl, s, i))
    ensures Inv(ttl, Send(s, i, command, byTimer)) && |Send(s, i, command, byTimer).children| == |s.children|
  {
  }

  lemma {:induction false} InvStopFrom(ttl: nat, s: State, i: nat)
    requires Inv(ttl, s) && i <= |s.children|
    ensures Inv(ttl, StopFrom(s, i))
    decreases |s.children| - i
  {
    hide Inv, Send;
    if i < |s.children| {
      InvSend(ttl, s, i, StopCommand, false);
      InvStopFrom(ttl, Send(s, i, StopCommand, false), i + 1);
    }
  }

  lemma TouchStamped(s: State, sid: string)
    requires Registered(s) && Stamped(s)
    ensures Registered(Touch(s, sid)) && Stamped(Touch(s, sid))
  {
    hide IsPipe;
  }

  lemma InvTouch(ttl: nat, s: State, sid: string)
    requires Inv(ttl, s)
    ensures Inv(ttl, Touch(s, sid))
  {
    hide Registered, AllLive, Stamped, NeverEarly;
    TouchStamped(s, sid);
    QuietEntry(ttl, s.log, Served(sid, s.now));
  }

  lemma InvExit(ttl: nat, s: State, i: nat)
    requires Inv(ttl, s) && i < |s.children|
    ensures Inv(ttl, Exit(s, i))
  {
  }

  lemma LoseRegistered(s: State, a: Address)
    requires Registered(s)
    ensures Registered(Lose(s, a))
  {
  }

  lemma LoseStamped(s: State, a: Address)
    requires Stamped(s)
    ensures Stamped(Lose(s, a))
  {
    hide Keeps, IsPipe;
  }

  lemma InvLose(ttl: nat, s: State, a: Address)
    requires Inv(ttl, s)
    ensures Inv(ttl, Lose(s, a))
  {
    hide Registered, AllLive, Stamped, NeverEarly, Forget;
    LoseRegistered(s, a);
    LoseStamped(s, a);
  }

  lemma InvCheckOne(ttl: nat, s: State, sid: string)
    requires Inv(ttl, s)
    ensures Inv(ttl, CheckOne(ttl, s, sid))
  {
    hide Inv, Send, Overdue;
    var i := FindChild(s.children, sid);
    if i < |s.children| && Overdue(ttl, s, i) {
      InvSend(ttl, s, i, StopCommand, true);
    }
  }

  lemma {:induction false} InvCheckAll(ttl: nat, s: State, cods: map<Root, Config>, order: seq<Root>)
    requires Inv(ttl, s) && forall root | root in order :: root in cods
    ensures Inv(ttl, CheckAll(ttl, s, cods, order))
    decreases order
  {
    hide Inv, CheckOne;
    if order != [] {
      InvCheckOne(ttl, s, cods[order[0]].sid);
      InvCheckAll(ttl, CheckOne(ttl, s, cods[order[0]].sid), cods, order[1..]);
    }
  }

  /** What has no part in the invariant may change, time may pass, and a daemon client may connect. */
  lemma InvFrame(ttl: nat, s: State, t: State)
    requires Inv(ttl, s) && t.children == s.children && t.log == s.log && s.now <= t.now
    requires forall a :: IsPipe(s.clients, a) ==> IsPipe(t.clients, a)
    ensures Inv(ttl, t)
  {
  }

  lemma InvRunOne(ttl: nat, s: State, c: Closure, o: Outcome)
    requires Inv(ttl, s) && Possible(s, o)
    ensures Inv(ttl, RunOne(s, c, o))
  {
    hide Inv, Create, Touch;
    InvCreate(ttl, s, c.config.sid, o);
    if c.CodClosure? {
      InvTouch(ttl, if c.isM3u8 then Create(s, c.config.sid, o) else s, c.config.sid);
    }
  }

  lemma InvStep(ttl: nat, s: State, e: Event)
    requires Inv(ttl, s) && Step(ttl, s, e).Some?
    ensures Inv(ttl, Step(ttl, s, e).value)
  {
    hide Inv, Create, Send, Touch, RunOne, Exit, Lose, CheckAll, StopFrom, Queued, Apply, SyncOperations;
    var t := Step(ttl, s, e).value;
    match e
    case RunClosure(o) =>
      var popped := s.(queue := s.queue[1..]);
      InvFrame(ttl, s, popped);
      InvRunOne(ttl, popped, s.queue[0], o);
    case StartRequest(config, o) => InvCreate(ttl, s, config.sid, o);
    case StopRequest(sid) =>
      if FindChild(s.children, sid) < |s.children| {
        InvSend(ttl, s, FindChild(s.children, sid), StopCommand, false);
      }
    case RestartRequest(sid) =>
      if FindChild(s.children, sid) < |s.children| {
        InvSend(ttl, s, FindChild(s.children, sid), RestartCommand, false);
      }
    case StopService =>
      InvStopFrom(ttl, s, 0);
      if !s.stopping {
        InvFrame(ttl, StopFrom(s, 0), t);
      }
    case ChildExited(sid) => InvExit(ttl, s, FindChild(s.children, sid));
    case ClientLost(a) => InvLose(ttl, s, a);
    case CheckTick(order) => InvCheckAll(ttl, s, s.tables.cods, order);
    case _ => InvFrame(ttl, s, t);
  }

  /** In every interleaving of the loop with any number of http threads: ids and clients stay distinct, clients stay
      registered, commands go to registered clients only, and the timer spares streams in use. */
  lemma {:induction false} RegistrySafe(ttl: nat, s: State, evs: seq<Event>)
    requires Inv(ttl, s) && Run(ttl, s, evs).Some?
    ensures Inv(ttl, Run(ttl, s, evs).value)
    decreases evs
  {
    hide Inv, Step;
    if evs != [] {
      InvStep(ttl, s, evs[0]);
      RegistrySafe(ttl, Step(ttl, s, evs[0]).value, evs[1..]);
    }
  }

  /** The same, from the start of the daemon. */
  lemma EveryReachableState(ttl: nat, now: nat, evs: seq<Event>)
    requires Run(ttl, Initial(now), evs).Some?
    ensures var r := Run(ttl, Initial(now), evs).value;
            && DistinctIds(r.children) && DistinctClients(r.children) && ClientsRegistered(r.children, r.clients)
            && AllLive(r.log) && NeverEarly(ttl, r.log)
  {
    assert Inv(ttl, Initial(now));
    hide Run, DistinctIds, DistinctClients, ClientsRegistered, AllLive, NeverEarly, Stamped;
    RegistrySafe(ttl, Initial(now), evs);
  }

  // The idle timer reaches every idle stream

  predicate Linked(s: State, sid: string) {
    exists root | root in s.tables.cods :: s.tables.cods[root].sid == sid
  }

  /** Registered with a client, last touched at the given time, and linked whenever the loop can look. */
  predicate IdleSince(s: State, sid: string, since: nat) {
    var i := FindChild(s.children, sid);
    && i < |s.children| && s.children[i].client.Some? && s.children[i].lastUpdate == since
    && (Idle(s) ==> Linked(s, sid))
  }

  predicate StaysIdle(ttl: nat, s: State, evs: seq<Event>, sid: string, since: nat)
    requires Run(ttl, s, evs).Some?
    decreases evs
  {
    IdleSince(s, sid, since) && (evs == [] || StaysIdle(ttl, Step(ttl, s, evs[0]).value, evs[1..], sid, since))
  }

  /** The timer looks at least every g milliseconds; its last look was at the given time. */
  predicate Paced(ttl: nat, s: State, evs: seq<Event>, g: nat, look: nat)
    requires Run(ttl, s, evs).Some?
    decreases evs
  {
    && s.now <= look + g
    && (evs == [] ||
        Paced(ttl, Step(ttl, s, evs[0]).value, evs[1..], g, if evs[0].CheckTick? then s.now else look))
  }

  /** The timer has sent Stop to the stream when it was idle for more than its lifetime, but not more than g longer. */
  ghost predicate StoppedInTime(log: seq<Entry>, ttl: nat, sid: string, since: nat, g: nat) {
    exists i | 0 <= i < |log| ::
      && log[i].Commanded? && log[i].byTimer && log[i].command == StopCommand && log[i].sid == sid
      && ttl * 1000 < log[i].at - since <= ttl * 1000 + g
  }

  lemma StoppedStays(a: seq<Entry>, b: seq<Entry>, ttl: nat, sid: string, since: nat, g: nat)
    requires a <= b && StoppedInTime(a, ttl, sid, since, g)
    ensures StoppedInTime(b, ttl, sid, since, g)
  {
  }

  lemma {:induction false} LogGrowsStopFrom(s: State, i: nat)
    requires i <= |s.children|
    ensures s.log <= StopFrom(s, i).log
    decreases |s.children| - i
  {
    if i < |s.children| {
      LogGrowsStopFrom(Send(s, i, StopCommand, false), i + 1);
    }
  }

  lemma LogGrowsCheckOne(ttl: nat, s: State, sid: string)
    ensures s.log <= CheckOne(ttl, s, sid).log
  {
  }

  lemma {:induction false} LogGrowsCheckAll(ttl: nat, s: State, cods: map<Root, Config>, order: seq<Root>)
    requires forall root | root in order :: root in cods
    ensures s.log <= CheckAll(ttl, s, cods, order).log
    decreases order
  {
    hide CheckOne;
    if order != [] {
      LogGrowsCheckOne(ttl, s, cods[order[0]].sid);
      LogGrowsCheckAll(ttl, CheckOne(ttl, s, cods[order[0]].sid), cods, order[1..]);
    }
  }

  lemma LogGrowsStep(ttl: nat, s: State, e: Event)
    requires Step(ttl, s, e).Some?
    ensures s.log <= Step(ttl, s, e).value.log
  {
    hide CheckAll, StopFrom, Queued, Apply, SyncOperations;
    match e
    case StopService => LogGrowsStopFrom(s, 0);
    case CheckTick(order) => LogGrowsCheckAll(ttl, s, s.tables.cods, order);
    case _ =>
  }

  /** A round for another stream leaves this one idle; a round for this one stops it. */
  lemma CheckOneEffect(ttl: nat, s: State, sid: string, other: string, since: nat)
    requires IdleSince(s, sid, since)
    ensures var t := CheckOne(ttl, s, other);
            && IdleSince(t, sid, since) && t.now == s.now && t.tables == s.tables && t.pending == s.pending
            && (other == sid && s.now - since > ttl * 1000 ==>
                  t.log != [] && var e := t.log[|t.log| - 1];
                  e.Commanded? && e.byTimer && e.command == StopCommand && e.sid == sid && e.at == s.now)
  {
    hide FindChild;
    var t := CheckOne(ttl, s, other);
    FindChildSame(s.children, t.children, sid);
  }

  lemma {:induction false} FindChildSame(a: seq<ChildState>, b: seq<ChildState>, sid: string)
    requires |a| == |b| && forall i | 0 <= i < |a| :: a[i].sid == b[i].sid
    ensures FindChild(a, sid) == FindChild(b, sid)
  {
    hide FindChild;
  }

  lemma {:induction false} CheckAllStops(ttl: nat, s: State, cods: map<Root, Config>, order: seq<Root>, sid: string,
                                         since: nat, g: nat)
    requires forall root | root in order :: root in cods
    requires IdleSince(s, sid, since) && ttl * 1000 < s.now - since <= ttl * 1000 + g
    requires exists root | root in order :: cods[root].sid == sid
    ensures StoppedInTime(CheckAll(ttl, s, cods, order).log, ttl, sid, since, g)
    decreases order
  {
    hide CheckOne, IdleSince;
    var t := CheckOne(ttl, s, cods[order[0]].sid);
    CheckOneEffect(ttl, s, sid, cods[order[0]].sid, since);
    if cods[order[0]].sid == sid {
      assert StoppedInTime(t.log, ttl, sid, since, g) by { assert t.log[|t.log| - 1].at == s.now; }
      LogGrowsCheckAll(ttl, t, cods, order[1..]);
      StoppedStays(t.log, CheckAll(ttl, t, cods, order[1..]).log, ttl, sid, since, g);
    } else {
      assert order == [order[0]] + order[1..];
      CheckAllStops(ttl, t, cods, order[1..], sid, since, g);
    }
  }

  /** With looks at most g apart, a linked stream with a client that stays idle for more than its lifetime plus g has
      been sent Stop by then. */
  lemma {:induction false} IdleIsStopped(ttl: nat, s: State, evs: seq<Event>, g: nat, look: nat, sid: string, since: nat)
    requires Run(ttl, s, evs).Some?
    requires StaysIdle(ttl, s, evs, sid, since) && Paced(ttl, s, evs, g, look)
    requires look <= since + ttl * 1000 || StoppedInTime(s.log, ttl, sid, since, g)
    ensures var r := Run(ttl, s, evs).value;
            r.now - since > ttl * 1000 + g ==> StoppedInTime(r.log, ttl, sid, since, g)
    decreases evs
  {
    hide Step, IdleSince, StoppedInTime;
    if evs != [] {
      var e := evs[0];
      var t := Step(ttl, s, e).value;
      if StoppedInTime(s.log, ttl, sid, since, g) {
        LogGrowsStep(ttl, s, e);
        StoppedStays(s.log, t.log, ttl, sid, since, g);
      } else if e.CheckTick? && s.now - since > ttl * 1000 {
        TickStops(ttl, s, e.order, g, sid, since);
      }
      IdleIsStopped(ttl, t, evs[1..], g, if e.CheckTick? then s.now else look, sid, since);
    }
  }

  lemma TickStops(ttl: nat, s: State, order: seq<Root>, g: nat, sid: string, since: nat)
    requires Step(ttl, s, CheckTick(order)).Some?
    requires IdleSince(s, sid, since) && ttl * 1000 < s.now - since <= ttl * 1000 + g
    ensures StoppedInTime(Step(ttl, s, CheckTick(order)).value.log, ttl, sid, since, g)
  {
    hide CheckAll, StoppedInTime;
    assert Linked(s, sid);
    CheckAllStops(ttl, s, s.tables.cods, order, sid, since, g);
  }

  // A sync always ends in the tables it asked for

  lemma {:induction false} SyncConverges(ttl: nat, s: State, evs: seq<Event>)
    requires Run(ttl, s, evs).Some? && forall e | e in evs :: !e.SyncBegin?
    ensures var r := Run(ttl, s, evs).value; ApplyAll(r.tables, r.pending) == ApplyAll(s.tables, s.pending)
    decreases evs
  {
    hide Step;
    if evs != [] {
      var t := Step(ttl, s, evs[0]).value;
      assert evs[0] in evs;
      SyncStepKeepsTarget(ttl, s, evs[0]);
      SyncConverges(ttl, t, evs[1..]);
    }
  }

  lemma {:induction false} TablesOfFolds(ttl: nat, s: State, i: nat, cods: map<Root, Config>, order: seq<Root>)
    requires i <= |s.children| && forall root | root in order :: root in cods
    ensures StopFrom(s, i).tables == s.tables && StopFrom(s, i).pending == s.pending
    ensures CheckAll(ttl, s, cods, order).tables == s.tables && CheckAll(ttl, s, cods, order).pending == s.pending
    decreases |s.children| - i, order
  {
    if i < |s.children| {
      TablesOfFolds(ttl, Send(s, i, StopCommand, false), i + 1, cods, []);
    }
    if order != [] {
      TablesOfFolds(ttl, CheckOne(ttl, s, cods[order[0]].sid), i, cods, order[1..]);
    }
  }

  lemma SyncStepKeepsTarget(ttl: nat, s: State, e: Event)
    requires Step(ttl, s, e).Some? && !e.SyncBegin?
    ensures var t := Step(ttl, s, e).value; ApplyAll(t.tables, t.pending) == ApplyAll(s.tables, s.pending)
  {
    hide CheckAll, StopFrom, Queued, Apply;
    match e
    case StopService => TablesOfFolds(ttl, s, 0, map[], []);
    case CheckTick(order) => TablesOfFolds(ttl, s, 0, s.tables.cods, order);
    case _ =>
  }

  /** Whatever http requests come in between, when the loop is idle again after its last sync each table maps a root to
      the last accepted line of its kind that lists the root, and to nothing else. */
  lemma SyncedTablesIff(ttl: nat, s: State, lines: seq<Line>, evs: seq<Event>, kind: Kind, root: Root, c: Config)
    requires Idle(s) && Run(ttl, s, [SyncBegin(lines)] + evs).Some? && forall e | e in evs :: !e.SyncBegin?
    requires kind == Vod || kind == Cod
    ensures var r := Run(ttl, s, [SyncBegin(lines)] + evs).value;
            Idle(r) ==> (Lookup(Table(r.tables, kind), root) == Some(c) <==> LastListed(lines, kind, root, c))
  {
    hide Lookup, Table, LastListed, SyncOperations;
    var all := [SyncBegin(lines)] + evs;
    assert all[1..] == evs;
    var t := Step(ttl, s, all[0]).value;
    SyncConverges(ttl, t, evs);
    SyncTablesIff(s.tables, lines, kind, root, c);
  }
}
