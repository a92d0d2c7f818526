/** What the handlers of the loop mean for the directory of streams: a map from stream ids, whatever the order of the
    children, and what the timer may do to it over whole runs. */
module RegistryMeaning {
  import opened Wrappers
  import opened Links
  import opened Registry
  import opened RegistrySafety

  type Directory = map<string, ChildState>

  /** The children by their ids. */
  function View(cs: seq<ChildState>): Directory
    requires DistinctIds(cs)
  {
    map i | 0 <= i < |cs| :: cs[i].sid := cs[i]
  }

  lemma ViewMembers(cs: seq<ChildState>)
    requires DistinctIds(cs)
    ensures forall sid | sid in View(cs) :: View(cs)[sid].sid == sid && View(cs)[sid] in cs
    ensures forall c | c in cs :: c.sid in View(cs) && View(cs)[c.sid] == c
  {
  }

  lemma ViewHas(cs: seq<ChildState>, sid: string)
    requires DistinctIds(cs)
    ensures var i := FindChild(cs, sid);
            (sid in View(cs) <==> i < |cs|) && (i < |cs| ==> View(cs)[sid] == cs[i])
  {
    ViewMembers(cs);
    hide View;
    var i := FindChild(cs, sid);
    if i < |cs| {
      assert cs[i] in cs;
    }
  }

  lemma ViewUnique(cs: seq<ChildState>, m: Directory)
    requires DistinctIds(cs)
    requires forall c | c in cs :: c.sid in m && m[c.sid] == c
    requires forall sid | sid in m :: m[sid].sid == sid && m[sid] in cs
    ensures View(cs) == m
  {
    ViewMembers(cs);
    hide View, DistinctIds;
    forall sid ensures (sid in View(cs) <==> sid in m) && (sid in m ==> View(cs)[sid] == m[sid]) {
      if sid in m {
        assert m[sid] in cs;
      }
      if sid in View(cs) {
        assert View(cs)[sid] in cs;
      }
    }
  }

  lemma AddMeans(cs: seq<ChildState>, c: ChildState)
    requires DistinctIds(cs) && DistinctIds(cs + [c]) && c.sid !in View(cs)
    ensures View(cs + [c]) == View(cs)[c.sid := c]
  {
    ViewMembers(cs);
    hide *;
    assert forall d :: d in cs + [c] <==> d in cs || d == c;
    ViewUnique(cs + [c], View(cs)[c.sid := c]);
  }

  /** A new stream, unless the attempt failed or there is one of the id. */
  lemma CreateMeans(s: State, sid: string, o: Outcome)
    requires Registered(s) && Possible(s, o)
    ensures var t, b := Create(s, sid, o), View(s.children);
            && DistinctIds(t.children) && t.now == s.now && t.queue == s.queue
            && var starts := o.Forked? && sid !in b;
            && View(t.children) == (if starts then b[sid := ChildState(sid, Some(o.client), 0, s.now)] else b)
            && t.clients == (if starts then s.clients[o.client := PipeClient] else s.clients)
            && t.log == s.log + (if starts then [Started(sid, s.now)] else [])
  {
    ViewHas(s.children, sid);
    CreateRegistered(s, sid, o);
    hide View, FindChild, IsPipe, DistinctClients, ClientsRegistered;
    if o.Forked? && sid !in View(s.children) {
      AddMeans(s.children, ChildState(sid, Some(o.client), 0, s.now));
    }
  }

  lemma UpdateMembers(cs: seq<ChildState>, i: nat, c: ChildState)
    requires DistinctIds(cs) && i < |cs| && c.sid == cs[i].sid
    ensures DistinctIds(cs[i := c]) && cs[i] in cs
    ensures forall d :: d in cs[i := c] <==> d == c || (d in cs && d.sid != c.sid)
  {
    var ds := cs[i := c];
    assert forall j | 0 <= j < |cs| :: ds[j].sid == cs[j].sid;
    assert ds[i] == c;
    forall d | d in cs && d.sid != c.sid ensures d in ds {
      var j :| 0 <= j < |cs| && cs[j] == d;
      assert ds[j] == d;
    }
  }

  lemma UpdateMeans(cs: seq<ChildState>, i: nat, c: ChildState)
    requires DistinctIds(cs) && i < |cs| && c.sid == cs[i].sid
    ensures DistinctIds(cs[i := c]) && View(cs[i := c]) == View(cs)[c.sid := c]
  {
    ViewMembers(cs);
    UpdateMembers(cs, i, c);
    hide *;
    ViewUnique(cs[i := c], View(cs)[c.sid := c]);
  }

  lemma TouchMeans(s: State, sid: string)
    requires DistinctIds(s.children)
    ensures var t, b := Touch(s, sid), View(s.children);
            && DistinctIds(t.children) && t.queue == s.queue && t.clients == s.clients
            && View(t.children) == (if sid in b then b[sid := b[sid].(lastUpdate := s.now)] else b)
            && t.log == s.log + if sid in b then [Served(sid, s.now)] else []
  {
    ViewHas(s.children, sid);
    var i := FindChild(s.children, sid);
    hide View, FindChild;
    if i < |s.children| {
      UpdateMeans(s.children, i, s.children[i].(lastUpdate := s.now));
    }
  }

  lemma SendMeans(s: State, i: nat, command: Command, byTimer: bool)
    requires Registered(s) && i < |s.children|
    ensures var t, b, c := Send(s, i, command, byTimer), View(s.children), s.children[i];
            && DistinctIds(t.children) && t.clients == s.clients && t.queue == s.queue && t.now == s.now
            && (if c.client == None then View(t.children) == b && t.log == s.log
                else
                  && View(t.children) == b[c.sid := c.(requestId := c.requestId + 1)]
                  && t.log == s.log + [Commanded(command, c.sid, c.client.value, c.requestId, true, byTimer, s.now)])
  {
    hide View;
    if s.children[i].client.Some? {
      UpdateMeans(s.children, i, s.children[i].(requestId := s.children[i].requestId + 1));
    }
  }

  lemma RemoveDistinct(cs: seq<ChildState>, i: nat)
    requires DistinctIds(cs) && i < |cs|
    ensures var ds := cs[..i] + cs[i + 1..];
            DistinctIds(ds) && forall c :: c in ds <==> c in cs && c.sid != cs[i].sid
  {
    var ds := cs[..i] + cs[i + 1..];
    assert forall j | 0 <= j < |ds| :: ds[j] == cs[if j < i then j else j + 1];
    forall c | c in cs && c.sid != cs[i].sid ensures c in ds {
      var j :| 0 <= j < |cs| && cs[j] == c;
      assert ds[if j < i then j else j - 1] == c;
    }
  }

  lemma RemoveMeans(cs: seq<ChildState>, i: nat)
    requires DistinctIds(cs) && i < |cs|
    ensures var ds := cs[..i] + cs[i + 1..]; DistinctIds(ds) && View(ds) == View(cs) - {cs[i].sid}
  {
    ViewMembers(cs);
    RemoveDistinct(cs, i);
    hide *;
    ViewUnique(cs[..i] + cs[i + 1..], View(cs) - {cs[i].sid});
  }

  /** The directory without the client. */
  function WithoutClient(b: Directory, a: Address): Directory {
    map sid | sid in b :: if b[sid].client == Some(a) then b[sid].(client := None) else b[sid]
  }

  lemma WithoutUnused(b: Directory, a: Address)
    requires forall sid | sid in b :: b[sid].client != Some(a)
    ensures WithoutClient(b, a) == b
  {
  }

  lemma WithoutOne(b: Directory, a: Address, sid: string)
    requires sid in b && b[sid].client == Some(a) && forall k | k in b && k != sid :: b[k].client != Some(a)
    ensures WithoutClient(b, a) == b[sid := b[sid].(client := None)]
  {
  }

  lemma ForgetMeans(cs: seq<ChildState>, a: Address)
    requires DistinctIds(cs) && DistinctClients(cs)
    ensures DistinctIds(Forget(cs, a)) && View(Forget(cs, a)) == WithoutClient(View(cs), a)
  {
    var i := FindClient(cs, a);
    ViewMembers(cs);
    if i < |cs| {
      UpdateMeans(cs, i, cs[i].(client := None));
      OnlyClient(cs, i, a);
      assert cs[i] in cs;
      hide View, DistinctIds, DistinctClients, FindClient, WithoutClient;
      WithoutOne(View(cs), a, cs[i].sid);
    } else {
      assert forall c | c in cs :: c.client != Some(a);
      hide View, DistinctIds, DistinctClients, WithoutClient;
      WithoutUnused(View(cs), a);
    }
  }

  lemma OnlyClient(cs: seq<ChildState>, i: nat, a: Address)
    requires DistinctIds(cs) && DistinctClients(cs) && i < |cs| && cs[i].client == Some(a)
    ensures forall c | c in cs :: c.client == Some(a) <==> c.sid == cs[i].sid
  {
  }

  // The steps of the loop

  lemma ClosureIs(ttl: nat, s: State, o: Outcome)
    requires Inv(ttl, s) && Step(ttl, s, RunClosure(o)).Some?
    ensures s.queue != [] && DistinctIds(s.children)
    ensures var c, popped := s.queue[0], s.(queue := s.queue[1..]);
            var made := if c.CreateClosure? || c.isM3u8 then Create(popped, c.config.sid, o) else popped;
            && Registered(popped) && Possible(popped, o)
            && Step(ttl, s, RunClosure(o)) == Some(if c.CodClosure? then Touch(made, c.config.sid) else made)
  {
    hide Create, Touch, DistinctIds, DistinctClients, ClientsRegistered, AllLive, Stamped, NeverEarly;
  }

  /** A queued closure: the one queued first runs. It starts the stream of its configuration when there is none of that
      id and a process came up; one of a stream on demand then puts the time stamp of that stream at the present, whether
      it has just been started or was there before. A segment starts nothing. */
  lemma ClosureMeans(ttl: nat, s: State, o: Outcome, t: State)
    requires Inv(ttl, s) && Step(ttl, s, RunClosure(o)) == Some(t)
    ensures DistinctIds(t.children) && s.queue != [] && t.queue == s.queue[1..]
    ensures var c, b := s.queue[0], View(s.children);
            var sid := c.config.sid;
            var starts := (c.CreateClosure? || c.isM3u8) && o.Forked? && sid !in b;
            var b' := if starts then b[sid := ChildState(sid, Some(o.client), 0, s.now)] else b;
            && View(t.children) == (if c.CodClosure? && sid in b' then b'[sid := b'[sid].(lastUpdate := s.now)] else b')
            && t.clients == (if starts then s.clients[o.client := PipeClient] else s.clients)
            && t.log == s.log + (if starts then [Started(sid, s.now)] else [])
                        + (if c.CodClosure? && sid in b' then [Served(sid, s.now)] else [])
  {
    ClosureIs(ttl, s, o);
    hide *;
    var c := s.queue[0];
    var popped := s.(queue := s.queue[1..]);
    CreateMeans(popped, c.config.sid, o);
    var made := if c.CreateClosure? || c.isM3u8 then Create(popped, c.config.sid, o) else popped;
    TouchMeans(made, c.config.sid);
  }

  lemma StartMeans(ttl: nat, s: State, config: Config, o: Outcome, t: State)
    requires Inv(ttl, s) && Step(ttl, s, StartRequest(config, o)) == Some(t)
    ensures DistinctIds(t.children) && t.queue == s.queue
    ensures var b := View(s.children); var starts := o.Forked? && config.sid !in b;
            && View(t.children) == (if starts then b[config.sid := ChildState(config.sid, Some(o.client), 0, s.now)] else b)
            && t.clients == (if starts then s.clients[o.client := PipeClient] else s.clients)
            && t.log == s.log + if starts then [Started(config.sid, s.now)] else []
  {
    CreateMeans(s, config.sid, o);
    hide View, Create, DistinctIds;
  }

  lemma RequestStep(ttl: nat, s: State, sid: string, command: Command)
    ensures Step(ttl, s, if command == StopCommand then StopRequest(sid) else RestartRequest(sid))
            == if Idle(s) then Some(SendTo(s, sid, command)) else None
  {
    hide SendTo;
  }

  lemma SendToMeans(s: State, sid: string, command: Command)
    requires Registered(s)
    ensures var t, b := SendTo(s, sid, command), View(s.children);
            && DistinctIds(t.children) && t.clients == s.clients
            && if sid in b && b[sid].client.Some? then
                 && View(t.children) == b[sid := b[sid].(requestId := b[sid].requestId + 1)]
                 && t.log == s.log + [Commanded(command, sid, b[sid].client.value, b[sid].requestId, true, false, s.now)]
               else View(t.children) == b && t.log == s.log
  {
    var i := Locate(s, sid, command);
    hide *;
    if i < |s.children| {
      SendMeans(s, i, command, false);
    }
  }

  lemma Locate(s: State, sid: string, command: Command) returns (i: nat)
    requires Registered(s)
    ensures DistinctIds(s.children) && i <= |s.children| && (sid in View(s.children) <==> i < |s.children|)
    ensures i < |s.children| ==> View(s.children)[sid] == s.children[i] && s.children[i].sid == sid
    ensures SendTo(s, sid, command) == if i < |s.children| then Send(s, i, command, false) else s
  {
    ViewHas(s.children, sid);
    hide View, Send;
    i := FindChild(s.children, sid);
  }

  lemma FoundById(s: State, sid: string)
    requires Registered(s)
    ensures DistinctIds(s.children)
    ensures var i := FindChild(s.children, sid);
            && (sid in View(s.children) <==> i < |s.children|)
            && (i < |s.children| ==> View(s.children)[sid] == s.children[i] && s.children[i].sid == sid)
  {
    ViewHas(s.children, sid);
  }

  lemma CheckOneIs(ttl: nat, s: State, sid: string)
    requires Registered(s)
    ensures CheckOne(ttl, s, sid) == if IdleTooLong(ttl, View(s.children), s.now, sid)
                                     then Send(s, FindChild(s.children, sid), StopCommand, true) else s
  {
    FoundById(s, sid);
    hide View, FindChild;
  }

  /** An http request of the VOD server for a playlist, or of the other one for a playlist or a segment: forbidden below a
      root nobody configured; else a closure of that root's configuration is queued, unless the whole VOD is there
      already; a segment gets no answer of its own. Anything else is fine and queues nothing. */
  lemma HttpMeans(ttl: nat, s: State, server: Kind, ext: Extension, root: Root, fullVod: bool)
    ensures var asked := if server == Vod && ext == M3u8 && root in s.tables.vods && !fullVod then
                           [CreateClosure(s.tables.vods[root])]
                         else if server == Cod && (ext == M3u8 || ext == Ts) && root in s.tables.cods then
                           [CodClosure(ext == M3u8, s.tables.cods[root])]
                         else [];
            Step(ttl, s, HttpRequest(server, ext, root, fullVod)) == Some(s.(queue := s.queue + asked))
    ensures server == Vod && ext == M3u8 ==>
              Answer(s, server, ext, root, fullVod)
              == Some(if root !in s.tables.vods then FORBIDDEN else if fullVod then OK else ACCEPTED)
    ensures server == Cod && ext == M3u8 ==>
              Answer(s, server, ext, root, fullVod) == Some(if root !in s.tables.cods then FORBIDDEN else ACCEPTED)
    ensures server == Cod && ext == Ts ==>
              Answer(s, server, ext, root, fullVod) == if root !in s.tables.cods then Some(FORBIDDEN) else None
    ensures server == OtherKind || ext == OtherExtension || (server == Vod && ext == Ts) ==>
              Answer(s, server, ext, root, fullVod) == Some(OK)
  {
  }

  /** A stop or restart request writes one request, under the next number, to the client of the stream of that id. */
  lemma RequestMeans(ttl: nat, s: State, sid: string, command: Command, t: State)
    requires Inv(ttl, s)
    requires Step(ttl, s, if command == StopCommand then StopRequest(sid) else RestartRequest(sid)) == Some(t)
    ensures DistinctIds(t.children) && t.clients == s.clients
    ensures var b := View(s.children);
            if sid in b && b[sid].client.Some? then
              && View(t.children) == b[sid := b[sid].(requestId := b[sid].requestId + 1)]
              && t.log == s.log + [Commanded(command, sid, b[sid].client.value, b[sid].requestId, true, false, s.now)]
            else View(t.children) == b && t.log == s.log
  {
    assert Registered(s) && DistinctIds(s.children);
    hide *;
    RequestStep(ttl, s, sid, command);
    SendToMeans(s, sid, command);
  }

  lemma ExitIs(ttl: nat, s: State, sid: string) returns (i: nat)
    requires Inv(ttl, s) && Step(ttl, s, ChildExited(sid)).Some?
    ensures DistinctIds(s.children) && i < |s.children| && s.children[i].sid == sid && sid in View(s.children)
    ensures Step(ttl, s, ChildExited(sid)) == Some(s.(children := s.children[..i] + s.children[i + 1..]))
  {
    FoundById(s, sid);
    hide View, Registered, AllLive, Stamped, NeverEarly;
    i := FindChild(s.children, sid);
  }

  /** An exited child is gone and nothing else; its client stays. */
  lemma ExitMeans(ttl: nat, s: State, sid: string, t: State)
    requires Inv(ttl, s) && Step(ttl, s, ChildExited(sid)) == Some(t)
    ensures sid in View(s.children) && DistinctIds(t.children) && View(t.children) == View(s.children) - {sid}
    ensures t == s.(children := t.children)
  {
    hide *;
    var i := ExitIs(ttl, s, sid);
    RemoveMeans(s.children, i);
  }

  /** A lost client is gone, and gone from the stream that had it. */
  lemma LostMeans(ttl: nat, s: State, a: Address, t: State)
    requires Inv(ttl, s) && Step(ttl, s, ClientLost(a)) == Some(t)
    ensures a in s.clients && t.clients == s.clients - {a} && DistinctIds(t.children)
    ensures View(t.children) == WithoutClient(View(s.children), a)
    ensures t == s.(children := t.children, clients := t.clients)
  {
    LostIs(ttl, s, a);
    hide *;
    InvRegistered(ttl, s);
    ForgetMeans(s.children, a);
    ViewMembers(s.children);
    if !IsPipe(s.clients, a) {
      NobodyHas(s, a);
      WithoutUnused(View(s.children), a);
    }
  }

  lemma LostIs(ttl: nat, s: State, a: Address)
    requires Step(ttl, s, ClientLost(a)).Some?
    ensures a in s.clients
    ensures Step(ttl, s, ClientLost(a))
            == Some(s.(children := if IsPipe(s.clients, a) then Forget(s.children, a) else s.children,
                       clients := s.clients - {a}))
  {
    hide Forget, IsPipe;
  }

  lemma NobodyHas(s: State, a: Address)
    requires Registered(s) && !IsPipe(s.clients, a)
    ensures forall c | c in s.children :: c.client != Some(a)
  {
  }

  // The stop handler

  function Told(c: ChildState): ChildState {
    if c.client == None then c else c.(requestId := c.requestId + 1)
  }

  /** One stop for each child with a client, in their order. */
  function Stops(cs: seq<ChildState>, now: nat): seq<Entry> {
    if cs == [] then []
    else
      (if cs[0].client == None then []
       else [Commanded(StopCommand, cs[0].sid, cs[0].client.value, cs[0].requestId, true, false, now)])
      + Stops(cs[1..], now)
  }

  lemma SendTells(s: State, i: nat)
    requires ClientsRegistered(s.children, s.clients) && i < |s.children|
    ensures var t := Send(s, i, StopCommand, false);
            && t.children == s.children[i := Told(s.children[i])] && t.now == s.now && t.clients == s.clients
            && t.log == s.log + Stops([s.children[i]], s.now) && ClientsRegistered(t.children, t.clients)
  {
    assert s.children[i := s.children[i]] == s.children;
    assert Stops([s.children[i]][1..], s.now) == [];
  }

  lemma {:induction false} StopFromMeans(s: State, i: nat)
    requires ClientsRegistered(s.children, s.clients) && i <= |s.children|
    ensures var t := StopFrom(s, i);
            && |t.children| == |s.children| && t.clients == s.clients && t.log == s.log + Stops(s.children[i..], s.now)
            && (forall j | 0 <= j < i :: t.children[j] == s.children[j])
            && (forall j | i <= j < |s.children| :: t.children[j] == Told(s.children[j]))
    decreases |s.children| - i
  {
    hide Send, Told, ClientsRegistered;
    if i < |s.children| {
      var m := Send(s, i, StopCommand, false);
      SendTells(s, i);
      StopFromMeans(m, i + 1);
      assert m.children[i + 1..] == s.children[i + 1..];
      StopsCons(s.children[i..], s.now);
      assert s.children[i..][1..] == s.children[i + 1..];
    }
  }

  lemma StopsCons(cs: seq<ChildState>, now: nat)
    requires cs != []
    ensures Stops(cs, now) == Stops([cs[0]], now) + Stops(cs[1..], now)
  {
    assert Stops([cs[0]][1..], now) == [];
  }

  /** The stop handler sends each child that has a client one stop, in their order, and no other; while a stop is in
      progress it does nothing. */
  lemma StopServiceMeans(ttl: nat, s: State, t: State)
    requires Inv(ttl, s) && Step(ttl, s, StopService) == Some(t)
    ensures t.stopping && t.clients == s.clients && |t.children| == |s.children|
    ensures forall j | 0 <= j < |s.children| :: t.children[j] == if s.stopping then s.children[j] else Told(s.children[j])
    ensures t.log == s.log + if s.stopping then [] else Stops(s.children, s.now)
  {
    StopFromMeans(s, 0);
    assert s.children[0..] == s.children;
    hide Told, Stops, StopFrom;
  }

  // The timer

  predicate SameStreams(b: Directory, b': Directory) {
    b'.Keys == b.Keys && forall sid | sid in b :: b'[sid].client == b[sid].client && b'[sid].lastUpdate == b[sid].lastUpdate
  }

  /** Registered with a client and idle for more than the lifetime. */
  predicate IdleTooLong(ttl: nat, b: Directory, now: nat, sid: string) {
    sid in b && b[sid].client.Some? && now - b[sid].lastUpdate > ttl * 1000
  }

  /** A stop of the timer to the client of a stream that was idle for too long. */
  predicate TimedStop(ttl: nat, b: Directory, now: nat, e: Entry) {
    && e.Commanded? && e.command == StopCommand && e.byTimer && e.live && e.at == now
    && IdleTooLong(ttl, b, now, e.sid) && b[e.sid].client == Some(e.to)
  }

  /** Between the two logs the timer stopped streams of these ids only, and each of them that was idle for too long. */
  ghost predicate Round(ttl: nat, b: Directory, now: nat, sids: set<string>, log: seq<Entry>, log': seq<Entry>) {
    && log <= log'
    && (forall j | |log| <= j < |log'| :: TimedStop(ttl, b, now, log'[j]) && log'[j].sid in sids)
    && forall sid | sid in sids && IdleTooLong(ttl, b, now, sid) :: StoppedIn(log, log', sid)
  }

  ghost predicate StoppedIn(log: seq<Entry>, log': seq<Entry>, sid: string) {
    exists j | |log| <= j < |log'| :: log'[j].Commanded? && log'[j].sid == sid
  }

  lemma TwoRounds(ttl: nat, b: Directory, b': Directory, now: nat, sids: set<string>, more: set<string>,
                  log0: seq<Entry>, log1: seq<Entry>, log2: seq<Entry>)
    requires SameStreams(b, b') && Round(ttl, b, now, sids, log0, log1) && Round(ttl, b', now, more, log1, log2)
    ensures Round(ttl, b, now, sids + more, log0, log2)
  {
    forall j | |log0| <= j < |log2| ensures TimedStop(ttl, b, now, log2[j]) && log2[j].sid in sids + more {
      if j < |log1| {
        assert log2[j] == log1[j];
      }
    }
    forall sid | sid in sids + more && IdleTooLong(ttl, b, now, sid) ensures StoppedIn(log0, log2, sid) {
      if sid in sids {
        var j :| |log0| <= j < |log1| && log1[j].Commanded? && log1[j].sid == sid;
        assert log2[j] == log1[j];
      } else {
        assert IdleTooLong(ttl, b', now, sid);
        var j :| |log1| <= j < |log2| && log2[j].Commanded? && log2[j].sid == sid;
      }
    }
  }

  lemma NothingDue(ttl: nat, b: Directory, now: nat, sid: string, log: seq<Entry>)
    requires !IdleTooLong(ttl, b, now, sid)
    ensures Round(ttl, b, now, {sid}, log, log) && SameStreams(b, b)
  {
  }

  lemma OneDue(ttl: nat, b: Directory, now: nat, sid: string, log: seq<Entry>)
    requires IdleTooLong(ttl, b, now, sid)
    ensures var c := b[sid];
            && Round(ttl, b, now, {sid}, log, log + [Commanded(StopCommand, sid, c.client.value, c.requestId, true, true, now)])
            && SameStreams(b, b[sid := c.(requestId := c.requestId + 1)])
  {
    var e := Commanded(StopCommand, sid, b[sid].client.value, b[sid].requestId, true, true, now);
    var log' := log + [e];
    assert log'[|log|] == e;
  }

  lemma InvRegistered(ttl: nat, s: State)
    requires Inv(ttl, s)
    ensures Registered(s) && DistinctIds(s.children) && DistinctClients(s.children)
  {
  }

  lemma IdleIsThere(ttl: nat, b: Directory, now: nat, sid: string)
    requires IdleTooLong(ttl, b, now, sid)
    ensures sid in b && b[sid].client.Some?
  {
  }

  lemma CheckOneMeans(ttl: nat, s: State, sid: string)
    requires Inv(ttl, s)
    ensures var t := CheckOne(ttl, s, sid);
            && Inv(ttl, t) && SameStreams(View(s.children), View(t.children)) && t.now == s.now
            && Round(ttl, View(s.children), s.now, {sid}, s.log, t.log)
  {
    hide *;
    InvCheckOne(ttl, s, sid);
    InvRegistered(ttl, s);
    FoundById(s, sid);
    CheckOneIs(ttl, s, sid);
    if IdleTooLong(ttl, View(s.children), s.now, sid) {
      IdleIsThere(ttl, View(s.children), s.now, sid);
      SendMeans(s, FindChild(s.children, sid), StopCommand, true);
      OneDue(ttl, View(s.children), s.now, sid, s.log);
    } else {
      NothingDue(ttl, View(s.children), s.now, sid, s.log);
    }
  }

  function SidsOf(cods: map<Root, Config>, order: seq<Root>): set<string>
    requires forall root | root in order :: root in cods
  {
    set root | root in order :: cods[root].sid
  }

  lemma SidsOfCons(cods: map<Root, Config>, order: seq<Root>)
    requires order != [] && forall root | root in order :: root in cods
    ensures SidsOf(cods, order) == {cods[order[0]].sid} + SidsOf(cods, order[1..])
  {
    assert order == [order[0]] + order[1..];
  }

  lemma {:induction false} CheckAllMeans(ttl: nat, s: State, cods: map<Root, Config>, order: seq<Root>)
    requires Inv(ttl, s) && forall root | root in order :: root in cods
    ensures var t := CheckAll(ttl, s, cods, order);
            && Inv(ttl, t) && SameStreams(View(s.children), View(t.children)) && t.now == s.now
            && Round(ttl, View(s.children), s.now, SidsOf(cods, order), s.log, t.log)
    decreases order
  {
    hide CheckOne, Inv, View, Round, SidsOf, SameStreams;
    assert Inv(ttl, s) ==> DistinctIds(s.children) by { InvDistinct(ttl, s); }
    if order == [] {
      EmptyRound(ttl, View(s.children), s.now, cods, s.log);
    } else {
      var m := CheckOne(ttl, s, cods[order[0]].sid);
      CheckOneMeans(ttl, s, cods[order[0]].sid);
      CheckAllMeans(ttl, m, cods, order[1..]);
      var t := CheckAll(ttl, m, cods, order[1..]);
      InvDistinct(ttl, m);
      InvDistinct(ttl, t);
      SidsOfCons(cods, order);
      TwoRounds(ttl, View(s.children), View(m.children), s.now, {cods[order[0]].sid}, SidsOf(cods, order[1..]),
                s.log, m.log, t.log);
      SameStreamsOnward(View(s.children), View(m.children), View(t.children));
    }
  }

  lemma InvDistinct(ttl: nat, s: State)
    requires Inv(ttl, s)
    ensures DistinctIds(s.children)
  {
  }

  lemma EmptyRound(ttl: nat, b: Directory, now: nat, cods: map<Root, Config>, log: seq<Entry>)
    ensures Round(ttl, b, now, SidsOf(cods, []), log, log) && SameStreams(b, b)
  {
  }

  lemma SameStreamsOnward(a: Directory, b: Directory, c: Directory)
    requires SameStreams(a, b) && SameStreams(b, c)
    ensures SameStreams(a, c)
  {
  }

  /** The timer's look at the table of streams on demand: whatever its order, it stops exactly the streams of that table
      that have a client and were idle for more than their lifetime, and changes nothing else about any stream. */
  lemma TimerMeans(ttl: nat, s: State, order: seq<Root>, t: State)
    requires Inv(ttl, s) && Step(ttl, s, CheckTick(order)) == Some(t)
    ensures DistinctIds(t.children) && SameStreams(View(s.children), View(t.children))
    ensures Round(ttl, View(s.children), s.now, set root | root in s.tables.cods :: s.tables.cods[root].sid, s.log, t.log)
  {
    CheckAllMeans(ttl, s, s.tables.cods, order);
    InvDistinct(ttl, t);
    assert SidsOf(s.tables.cods, order) == set root | root in s.tables.cods :: s.tables.cods[root].sid;
    hide View, CheckAll, Round, SameStreams, Inv;
  }

  // Over whole runs

  lemma {:induction false} LogGrowsRun(ttl: nat, s: State, evs: seq<Event>)
    requires Run(ttl, s, evs).Some?
    ensures s.log <= Run(ttl, s, evs).value.log
    decreases evs
  {
    hide Step;
    if evs != [] {
      LogGrowsStep(ttl, s, evs[0]);
      LogGrowsRun(ttl, Step(ttl, s, evs[0]).value, evs[1..]);
    }
  }

  /** From the given place in the log on, the timer stops no stream of the id before that time is over. */
  predicate Spared(log: seq<Entry>, from: nat, sid: string, until: nat) {
    forall j | from <= j < |log| && log[j].Commanded? && log[j].byTimer && log[j].sid == sid :: log[j].at > until
  }

  lemma NotedIsSpared(ttl: nat, log: seq<Entry>, log': seq<Entry>, log'': seq<Entry>, sid: string, at: nat)
    requires NeverEarly(ttl, log'') && log' <= log'' && NotesOf(log, log', sid, at) && |log'| > |log|
    ensures Spared(log'', |log|, sid, at + ttl * 1000)
  {
    assert log''[|log|] == log'[|log|];
    assert forall j | |log| <= j < |log'| :: log''[j] == log'[j] && !log''[j].Commanded?;
  }

  /** The entries a step added are of one stream and no commands. */
  predicate NotesOf(log: seq<Entry>, log': seq<Entry>, sid: string, at: nat) {
    log <= log' && forall j | |log| <= j < |log'| :: Keeps(log'[j], sid) && log'[j].at == at
  }

  lemma ClosureNotes(ttl: nat, s: State, o: Outcome, t: State)
    requires Inv(ttl, s) && Step(ttl, s, RunClosure(o)) == Some(t)
    ensures s.queue != [] && NotesOf(s.log, t.log, s.queue[0].config.sid, s.now)
    ensures DistinctIds(s.children) && DistinctIds(t.children)
    ensures var sid := s.queue[0].config.sid;
            sid in View(t.children) && (s.queue[0].CodClosure? || sid !in View(s.children)) ==> |t.log| > |s.log|
  {
    ClosureMeans(ttl, s, o, t);
    InvDistinct(ttl, s);
    hide *;
    var c, b := s.queue[0], View(s.children);
    var sid := c.config.sid;
    var starts := (c.CreateClosure? || c.isM3u8) && o.Forked? && sid !in b;
    NotesOfTwo(s.log, starts, c.CodClosure? && (starts || sid in b), sid, s.now);
  }

  lemma NotesOfTwo(log: seq<Entry>, starts: bool, serves: bool, sid: string, at: nat)
    ensures NotesOf(log, log + (if starts then [Started(sid, at)] else []) + (if serves then [Served(sid, at)] else []),
                    sid, at)
  {
  }

  /** Serving a stream on demand keeps the timer away from it: in every run, when a queued closure of the stream has run
      and the stream is registered afterwards, its time stamp is that very time, and whatever comes then, no stop of the
      timer is sent to it until its lifetime has passed. */
  lemma ServedIsSpared(ttl: nat, t0: nat, evs: seq<Event>, s: State, o: Outcome, t: State, more: seq<Event>, r: State)
    requires Run(ttl, Initial(t0), evs) == Some(s) && Step(ttl, s, RunClosure(o)) == Some(t)
    requires Run(ttl, t, more) == Some(r) && s.queue[0].CodClosure?
    ensures DistinctIds(t.children)
    ensures var sid := s.queue[0].config.sid;
            sid in View(t.children) ==>
              View(t.children)[sid].lastUpdate == s.now && Spared(r.log, |s.log|, sid, s.now + ttl * 1000)
  {
    hide View, Inv, Step, Run, Keeps, Spared, NotesOf, NeverEarly, DistinctIds;
    ReachableInv(ttl, t0, evs, s);
    ClosureMeans(ttl, s, o, t);
    ClosureNotes(ttl, s, o, t);
    InvAfter(ttl, s, RunClosure(o), t, more, r);
    var sid := s.queue[0].config.sid;
    if sid in View(t.children) {
      NotedIsSpared(ttl, s.log, t.log, r.log, sid, s.now);
    }
  }

  /** And so does starting it: a stream that was not there before is stamped with the time of its start. */
  lemma StartedIsSpared(ttl: nat, t0: nat, evs: seq<Event>, s: State, e: Event, t: State, more: seq<Event>, r: State,
                        sid: string)
    requires Run(ttl, Initial(t0), evs) == Some(s) && Step(ttl, s, e) == Some(t) && Run(ttl, t, more) == Some(r)
    requires e.RunClosure? || e.StartRequest?
    ensures DistinctIds(s.children) && DistinctIds(t.children)
    ensures sid !in View(s.children) && sid in View(t.children) ==>
              View(t.children)[sid].lastUpdate == s.now && Spared(r.log, |s.log|, sid, s.now + ttl * 1000)
  {
    hide *;
    ReachableInv(ttl, t0, evs, s);
    InvAfter(ttl, s, e, t, more, r);
    StartedStep(ttl, s, e, t, sid);
    if sid !in View(s.children) && sid in View(t.children) {
      NotedIsSpared(ttl, s.log, t.log, r.log, sid, s.now);
    }
  }

  lemma StartNotes(ttl: nat, s: State, config: Config, o: Outcome, t: State)
    requires Inv(ttl, s) && Step(ttl, s, StartRequest(config, o)) == Some(t)
    ensures NotesOf(s.log, t.log, config.sid, s.now) && DistinctIds(s.children) && DistinctIds(t.children)
    ensures config.sid in View(t.children) && config.sid !in View(s.children) ==> |t.log| > |s.log|
  {
    StartMeans(ttl, s, config, o, t);
    hide View, Inv, Step, DistinctIds;
  }

  lemma StartedStep(ttl: nat, s: State, e: Event, t: State, sid: string)
    requires Inv(ttl, s) && Step(ttl, s, e) == Some(t) && (e.RunClosure? || e.StartRequest?)
    ensures DistinctIds(s.children) && DistinctIds(t.children)
    ensures sid !in View(s.children) && sid in View(t.children) ==>
              && View(t.children)[sid].lastUpdate == s.now && NotesOf(s.log, t.log, sid, s.now) && |t.log| > |s.log|
  {
    if e.RunClosure? {
      ClosureMeans(ttl, s, e.outcome, t);
      ClosureNotes(ttl, s, e.outcome, t);
    } else {
      StartMeans(ttl, s, e.config, e.outcome, t);
      StartNotes(ttl, s, e.config, e.outcome, t);
    }
    hide View, Inv, Step, NotesOf, DistinctIds;
  }

  lemma ReachableInv(ttl: nat, t0: nat, evs: seq<Event>, s: State)
    requires Run(ttl, Initial(t0), evs) == Some(s)
    ensures Inv(ttl, s)
  {
    RegistrySafe(ttl, Initial(t0), evs);
  }

  lemma InvAfter(ttl: nat, s: State, e: Event, t: State, more: seq<Event>, r: State)
    requires Inv(ttl, s) && Step(ttl, s, e) == Some(t) && Run(ttl, t, more) == Some(r)
    ensures NeverEarly(ttl, r.log) && t.log <= r.log
  {
    InvStep(ttl, s, e);
    RegistrySafe(ttl, t, more);
    LogGrowsRun(ttl, t, more);
    hide Step, Run, Registered, AllLive, Stamped, NeverEarly;
  }
}
