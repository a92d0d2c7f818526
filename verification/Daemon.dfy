/** The daemon object and its children: each handler of the loop is one step of the registry. */
module Daemon {
  import opened Wrappers
  import opened Links
  import opened Registry
  import opened RegistrySafety

  class Child {
    const sid: string
    var client: Option<Address>
    var requestId: nat
    var lastUpdate: nat

    function Abs(): ChildState
      reads this
    {
      ChildState(sid, client, requestId, lastUpdate)
    }

    constructor (sid: string, now: nat)
      ensures Abs() == ChildState(sid, None, 0, now)
    {
      this.sid, client, requestId, lastUpdate := sid, None, 0, now;
    }

    method SetClient(pipe: Option<Address>)
      modifies this
      ensures Abs() == old(Abs()).(client := pipe)
    {
      client := pipe;
    }

    method UpdateTimestamp(now: nat)
      modifies this
      ensures Abs() == old(Abs()).(lastUpdate := now)
    {
      lastUpdate := now;
    }

    method NextRequestID() returns (id: nat)
      modifies this
      ensures id == old(requestId) && Abs() == old(Abs()).(requestId := id + 1)
    {
      id := requestId;
      requestId := requestId + 1;
    }
  }

  function States(cs: seq<Child>): (r: seq<ChildState>)
    reads cs
    ensures |r| == |cs|
  {
    if cs == [] then [] else States(cs[..|cs| - 1]) + [cs[|cs| - 1].Abs()]
  }

  lemma {:induction false} StatesAt(cs: seq<Child>)
    ensures forall i | 0 <= i < |cs| :: States(cs)[i] == cs[i].Abs()
  {
    if cs != [] {
      StatesAt(cs[..|cs| - 1]);
    }
  }

  lemma StateAt(cs: seq<Child>, i: nat)
    requires i < |cs|
    ensures States(cs)[i] == cs[i].Abs()
  {
    StatesAt(cs);
  }

  predicate DistinctObjects(cs: seq<Child>) {
    forall i, j | 0 <= i < j < |cs| :: cs[i] != cs[j]
  }

  method SetClientAt(ghost cs: seq<Child>, ghost i: nat, c: Child, pipe: Option<Address>)
    requires i < |cs| && cs[i] == c && DistinctObjects(cs)
    modifies c
    ensures States(cs) == old(States(cs))[i := old(States(cs)[i]).(client := pipe)]
  {
    StatesAt(cs);
    c.SetClient(pipe);
    StatesAt(cs);
    assert States(cs) == old(States(cs))[i := c.Abs()];
  }

  method UpdateTimestampAt(ghost cs: seq<Child>, ghost i: nat, c: Child, now: nat)
    requires i < |cs| && cs[i] == c && DistinctObjects(cs)
    modifies c
    ensures States(cs) == old(States(cs))[i := old(States(cs)[i]).(lastUpdate := now)]
  {
    StatesAt(cs);
    c.UpdateTimestamp(now);
    StatesAt(cs);
    assert States(cs) == old(States(cs))[i := c.Abs()];
  }

  method NextRequestIDAt(ghost cs: seq<Child>, ghost i: nat, c: Child) returns (id: nat)
    requires i < |cs| && cs[i] == c && DistinctObjects(cs)
    modifies c
    ensures id == old(c.requestId) && c.client == old(c.client)
    ensures States(cs) == old(States(cs))[i := old(States(cs)[i]).(requestId := id + 1)]
  {
    StatesAt(cs);
    id := c.NextRequestID();
    StatesAt(cs);
    assert States(cs) == old(States(cs))[i := c.Abs()];
  }

  lemma StatesAppend(cs: seq<Child>, c: Child)
    ensures States(cs + [c]) == States(cs) + [c.Abs()]
  {
    assert (cs + [c])[..|cs|] == cs;
  }

  lemma StatesRemove(cs: seq<Child>, i: nat)
    requires i < |cs|
    ensures States(cs[..i] + cs[i + 1..]) == States(cs)[..i] + States(cs)[i + 1..]
  {
    hide States;
    StatesAt(cs);
    StatesAt(cs[..i] + cs[i + 1..]);
    var a, b := States(cs[..i] + cs[i + 1..]), States(cs)[..i] + States(cs)[i + 1..];
    assert |a| == |b|;
    forall j | 0 <= j < |a| ensures a[j] == b[j] {
      assert j >= i ==> (cs[..i] + cs[i + 1..])[j] == cs[j + 1] && b[j] == States(cs)[j + 1];
    }
  }

  lemma DistinctRemove(cs: seq<Child>, i: nat)
    requires i < |cs| && DistinctObjects(cs)
    ensures DistinctObjects(cs[..i] + cs[i + 1..])
  {
  }

  // What a step does in the words of the handlers

  lemma RequestStep(ttl: nat, s: State, server: Kind, ext: Extension, root: Root, fullVod: bool)
    ensures Step(ttl, s, HttpRequest(server, ext, root, fullVod))
            == Some(s.(queue := s.queue + Queued(s, server, ext, root, fullVod)))
  {
  }

  lemma CommandStep(ttl: nat, s: State, sid: string, command: Command)
    requires Idle(s)
    ensures Step(ttl, s, if command == StopCommand then StopRequest(sid) else RestartRequest(sid))
            == Some(SendTo(s, sid, command))
  {
    hide SendTo;
  }

  lemma ExitStep(ttl: nat, s: State, i: nat)
    requires Idle(s) && i < |s.children| && FindChild(s.children, s.children[i].sid) == i
    ensures Step(ttl, s, ChildExited(s.children[i].sid)) == Some(Exit(s, i))
  {
  }

  lemma LostStep(ttl: nat, s: State, client: Address)
    requires Idle(s) && client in s.clients
    ensures Step(ttl, s, ClientLost(client)) == Some(Lose(s, client))
  {
  }

  class ProcessSlaveWrapper {
    const codsTtl: nat
    const vodsLinks: LinksHolderTS
    const codsLinks: LinksHolderTS
    var clients: map<Address, ClientKind>
    var children: seq<Child>
    var queue: seq<Closure>
    var stopping: bool
    var now: nat
    // the observer's notes
    ghost var log: seq<Entry>

    ghost function Abs(): State
      reads this, children, vodsLinks, codsLinks
    {
      State(now, clients, States(children), queue, Tables(vodsLinks.links, codsLinks.links), [], stopping, log)
    }

    ghost predicate Valid()
      reads this, children, vodsLinks, codsLinks
    {
      vodsLinks != codsLinks && DistinctObjects(children) && Inv(codsTtl, Abs())
    }

    ghost predicate Took(before: State, e: Event)
      reads this, children, vodsLinks, codsLinks
    {
      Step(codsTtl, before, e) == Some(Abs())
    }

    constructor (codsTtl: nat, now: nat)
      ensures Valid() && this.codsTtl == codsTtl && Abs() == Initial(now)
      ensures fresh(vodsLinks) && fresh(codsLinks)
    {
      this.codsTtl := codsTtl;
      vodsLinks := new LinksHolderTS();
      codsLinks := new LinksHolderTS();
      clients, children, queue, stopping, this.now, log := map[], [], [], false, now, [];
    }

    method PassTime(ms: nat)
      requires Valid()
      modifies this`now
      ensures Valid() && Took(old(Abs()), Advance(ms))
    {
      InvStep(codsTtl, Abs(), Advance(ms));
      hide Inv, States;
      now := now + ms;
    }

    /** Called on an http thread. */
    method OnHttpRequest(server: Kind, ext: Extension, root: Root, fullVod: bool) returns (status: Option<HttpStatus>)
      requires Valid()
      modifies this`queue
      ensures Valid() && Took(old(Abs()), HttpRequest(server, ext, root, fullVod))
      ensures status == Answer(old(Abs()), server, ext, root, fullVod)
    {
      InvStep(codsTtl, Abs(), HttpRequest(server, ext, root, fullVod));
      RequestStep(codsTtl, Abs(), server, ext, root, fullVod);
      hide Inv, States, DistinctObjects, Step;
      assert queue + [] == queue;
      if server == Vod {
        if ext == M3u8 {
          var config := vodsLinks.Find(root);
          if config == None {
            return Some(FORBIDDEN);
          }
          if fullVod {
            return Some(OK);
          }
          queue := queue + [CreateClosure(config.value)];
          return Some(ACCEPTED);
        }
      } else if server == Cod {
        if ext == M3u8 || ext == Ts {
          var config := codsLinks.Find(root);
          if config == None {
            return Some(FORBIDDEN);
          }
          queue := queue + [CodClosure(ext == M3u8, config.value)];
          status := None;
          if ext == M3u8 {
            status := Some(ACCEPTED);
          }
          return;
        }
      }
      status := Some(OK);
    }

    method FindChildByID(sid: string) returns (i: nat)
      ensures i == FindChild(States(children), sid)
    {
      StatesAt(children);
      i := 0;
      while i < |children| && children[i].sid != sid
        invariant i <= |children| && forall j | 0 <= j < i :: children[j].sid != sid
      {
        i := i + 1;
      }
    }

    /** Writes a request to a client: it must be one that is registered. */
    method WriteRequest(i: nat, command: Command, byTimer: bool)
      requires DistinctObjects(children) && vodsLinks != codsLinks && i < |children|
      requires children[i].client.Some? && IsPipe(clients, children[i].client.value)
      modifies this`log, children[i]
      ensures Abs() == Send(old(Abs()), i, command, byTimer)
    {
      StateAt(children, i);
      hide States, DistinctObjects;
      var id := NextRequestIDAt(children, i, children[i]);
      log := log + [Commanded(command, children[i].sid, children[i].client.value, id, true, byTimer, now)];
    }

    /** Child::Stop and Child::Restart. */
    method SendCommand(i: nat, command: Command, byTimer: bool)
      requires Valid() && i < |children| && (byTimer ==> Overdue(codsTtl, Abs(), i))
      modifies this`log, children[i]
      ensures Valid() && Abs() == Send(old(Abs()), i, command, byTimer)
    {
      InvSend(codsTtl, Abs(), i, command, byTimer);
      StateAt(children, i);
      if children[i].client == None {
        return;
      }
      assert States(children)[i].client.Some? && IsPipe(clients, children[i].client.value);
      hide Inv, States, DistinctObjects, Send;
      WriteRequest(i, command, byTimer);
    }

    /** CreateChildStream, with the parent's half of the fork. */
    method CreateChildStream(sid: string, outcome: Outcome)
      requires Valid() && Possible(Abs(), outcome)
      modifies this`clients, this`children, this`log
      ensures Valid() && Abs() == Create(old(Abs()), sid, outcome)
      ensures fresh(set c | c in children && c !in old(children))
    {
      InvCreate(codsTtl, Abs(), sid, outcome);
      hide Inv, States;
      if outcome == Refused {
        return;
      }
      var i := FindChildByID(sid);
      if i < |children| || outcome == NotForked {
        return;
      }
      RegisterChild(sid, outcome.client);
    }

    /** The parent's half of CreateChildStreamImpl. */
    method RegisterChild(sid: string, client: Address)
      requires DistinctObjects(children)
      modifies this`clients, this`children, this`log
      ensures DistinctObjects(children)
      ensures Abs() == old(Abs()).(clients := old(clients)[client := PipeClient],
                                   children := old(States(children)) + [ChildState(sid, Some(client), 0, now)],
                                   log := old(log) + [Started(sid, now)])
      ensures fresh(set c | c in children && c !in old(children))
    {
      hide States;
      clients := clients[client := PipeClient];
      var child := new Child(sid, now);
      child.SetClient(Some(client));
      StatesAppend(children, child);
      children := children + [child];
      log := log + [Started(sid, now)];
    }

    method StartRequest(config: Config, outcome: Outcome)
      requires Valid() && Possible(Abs(), outcome)
      modifies this`clients, this`children, this`log
      ensures Valid() && Took(old(Abs()), Event.StartRequest(config, outcome))
    {
      CreateChildStream(config.sid, outcome);
    }

    /** StopChildStreamImpl and the restart handler; false when there is no such stream. */
    method CommandStream(sid: string, command: Command) returns (found: bool)
      requires Valid()
      modifies this`log, children
      ensures Valid() && Took(old(Abs()), if command == StopCommand then StopRequest(sid) else RestartRequest(sid))
      ensures found <==> exists c | c in old(children) :: c.sid == sid
    {
      StatesAt(children);
      CommandStep(codsTtl, Abs(), sid, command);
      hide Inv, Send, States, DistinctObjects, Step;
      var i := FindChildByID(sid);
      if i == |children| {
        return false;
      }
      assert children[i] in children;
      SendCommand(i, command, false);
      found := true;
    }

    /** The stop handler of the service; the timer it starts ends the loop later. */
    method StopService()
      requires Valid()
      modifies this`log, this`stopping, children
      ensures Valid() && Took(old(Abs()), Event.StopService)
    {
      hide Inv, Send;
      if stopping {
        return;
      }
      ghost var before := Abs();
      for i := 0 to |children|
        invariant Valid() && StopFrom(before, 0) == StopFrom(Abs(), i)
        invariant children == old(children) && !stopping
      {
        SendCommand(i, StopCommand, false);
      }
      InvFrame(codsTtl, Abs(), Abs().(stopping := true));
      stopping := true;
    }

    /** ChildStatusChanged. */
    method ChildStatusChanged(i: nat)
      requires Valid() && i < |children|
      modifies this`children
      ensures Valid() && Took(old(Abs()), ChildExited(old(children[i].sid)))
    {
      InvExit(codsTtl, Abs(), i);
      FoundAt(codsTtl, Abs(), i);
      StateAt(children, i);
      StatesRemove(children, i);
      ExitStep(codsTtl, Abs(), i);
      DistinctRemove(children, i);
      hide Inv, States, DistinctObjects, Step;
      children := children[..i] + children[i + 1..];
    }

    /** DataReceived when reading from a client failed, and the ping of a daemon client that failed. */
    method CloseClient(client: Address)
      requires Valid() && client in clients
      modifies this`clients, children
      ensures Valid() && Took(old(Abs()), ClientLost(client))
    {
      InvLose(codsTtl, Abs(), client);
      LostStep(codsTtl, Abs(), client);
      hide Inv, States, DistinctObjects, Forget, Step;
      if clients[client] == PipeClient {
        ForgetClient(client);
      }
      clients := clients - {client};
    }

    method ForgetClient(client: Address)
      requires DistinctObjects(children)
      modifies children
      ensures Abs() == old(Abs()).(children := Forget(old(States(children)), client))
    {
      hide States, DistinctObjects;
      StatesAt(children);
      for i := 0 to |children|
        invariant forall j | 0 <= j < i :: children[j].client != Some(client)
        invariant States(children) == old(States(children))
      {
        if children[i].client == Some(client) {
          SetClientAt(children, i, children[i], None);
          break;
        }
      }
    }

    method DaemonAccepted(client: Address)
      requires Valid() && client !in clients
      modifies this`clients
      ensures Valid() && Took(old(Abs()), DaemonConnected(client))
    {
      InvStep(codsTtl, Abs(), DaemonConnected(client));
      hide Inv, States;
      clients := clients[client := DaemonClient];
    }

    /** The loop runs the oldest queued closure. */
    method RunQueued(outcome: Outcome)
      requires Valid() && queue != [] && Possible(Abs(), outcome)
      modifies this`clients, this`children, this`log, this`queue, children
      ensures Valid() && Took(old(Abs()), RunClosure(outcome))
    {
      hide RunOne, States, DistinctObjects;
      var closure := queue[0];
      InvFrame(codsTtl, Abs(), Abs().(queue := queue[1..]));
      hide Inv;
      queue := queue[1..];
      CallClosure(closure, outcome);
    }

    method CallClosure(closure: Closure, outcome: Outcome)
      requires Valid() && Possible(Abs(), outcome)
      modifies this`clients, this`children, this`log, children
      ensures Valid() && Abs() == RunOne(old(Abs()), closure, outcome)
    {
      hide Inv, Create, Touch, States, DistinctObjects;
      if closure.CreateClosure? || closure.isM3u8 {
        CreateChildStream(closure.config.sid, outcome);
      }
      if closure.CodClosure? {
        UpdateTimestamp(closure.config.sid);
      }
    }

    method UpdateTimestamp(sid: string)
      requires Valid()
      modifies this`log, children
      ensures Valid() && Abs() == Touch(old(Abs()), sid)
    {
      InvTouch(codsTtl, Abs(), sid);
      hide Inv, States, DistinctObjects, FindChild;
      var i := FindChildByID(sid);
      if i < |children| {
        UpdateTimestampAt(children, i, children[i], now);
        log := log + [Served(sid, now)];
      }
    }

    /** The timer's check of the streams on demand, in the order of the table's copy. */
    method CheckCods() returns (ghost order: seq<Root>)
      requires Valid()
      modifies this`log, children
      ensures Valid() && Took(old(Abs()), CheckTick(order))
    {
      hide Inv, Send, CheckOne;
      var copy := codsLinks.Copy();
      var rest := copy.Keys;
      order := [];
      ghost var before := Abs();
      while rest != {}
        invariant Valid() && children == old(children)
        invariant rest <= copy.Keys && (forall root :: root in order <==> root in copy && root !in rest)
        invariant forall i, j | 0 <= i < j < |order| :: order[i] != order[j]
        invariant Abs() == CheckAll(codsTtl, before, copy, order)
        decreases rest
      {
        var root :| root in rest;
        CheckAllSnoc(codsTtl, before, copy, order, root);
        CheckStream(copy[root].sid);
        order, rest := order + [root], rest - {root};
      }
    }

    method CheckStream(sid: string)
      requires Valid()
      modifies this`log, children
      ensures Valid() && Abs() == CheckOne(codsTtl, old(Abs()), sid)
    {
      hide Inv, Send;
      var i := FindChildByID(sid);
      if i < |children| {
        StateAt(children, i);
        StampInPast(codsTtl, Abs(), i);
        var tsDiff := now - children[i].lastUpdate;
        if tsDiff > codsTtl * 1000 {
          SendCommand(i, StopCommand, true);
        }
      }
    }

    /** The sync handler: both tables are cleared and filled line by line. An http thread may look between any two of
        these operations; the steps of the run are where. */
    method HandleRequestClientSyncService(lines: seq<Line>)
      requires Valid()
      modifies vodsLinks, codsLinks
      ensures Valid()
      ensures Run(codsTtl, old(Abs()), [SyncBegin(lines)] + SyncSteps(|SyncOperations(lines)|)) == Some(Abs())
    {
      ghost var before := Abs();
      SyncRun(codsTtl, before, lines);
      InvFrame(codsTtl, before, before.(tables := ApplyAll(before.tables, SyncOperations(lines))));
      FillTables(lines);
      hide Inv, States, SyncOperations, ApplyAll;
    }

    method FillTables(lines: seq<Line>)
      requires vodsLinks != codsLinks
      modifies vodsLinks, codsLinks
      ensures LinkTables() == ApplyAll(old(LinkTables()), SyncOperations(lines))
    {
      ghost var target := ApplyAll(LinkTables(), SyncOperations(lines));
      vodsLinks.Clear();
      codsLinks.Clear();
      ClearedFirst(old(LinkTables()), lines);
      hide ApplyAll, LineInserts, SyncOperations;
      for i := 0 to |lines|
        invariant ApplyAll(LinkTables(), AllInserts(lines[i..])) == target
      {
        LineFirst(LinkTables(), lines[i..]);
        assert lines[i..][1..] == lines[i + 1..];
        AddStreamLine(lines[i]);
      }
      NothingLeft(LinkTables());
    }

    method AddStreamLine(line: Line)
      requires vodsLinks != codsLinks
      modifies vodsLinks, codsLinks
      ensures LinkTables() == ApplyAll(old(LinkTables()), LineInserts(line))
    {
      ghost var target := ApplyAll(LinkTables(), LineInserts(line));
      NothingLeft(LinkTables());
      var config := line.config;
      if !line.accepted || config.kind == OtherKind {
        return;
      }
      hide ApplyAll, RootInserts;
      for i := 0 to |config.outputs|
        invariant ApplyAll(LinkTables(), RootInserts(config, config.outputs[i..])) == target
      {
        RootFirst(LinkTables(), config, config.outputs[i..]);
        assert config.outputs[i..][1..] == config.outputs[i + 1..];
        if config.outputs[i].Some? {
          var httpRoot := config.outputs[i].value;
          if config.kind == Vod {
            vodsLinks.Insert(httpRoot, config);
          } else {
            codsLinks.Insert(httpRoot, config);
          }
        }
      }
      NothingLeft(LinkTables());
      assert config.outputs[|config.outputs|..] == [];
      NoRoots(config);
    }

    function LinkTables(): Tables
      reads vodsLinks, codsLinks
    {
      Tables(vodsLinks.links, codsLinks.links)
    }
  }

  lemma NothingLeft(t: Tables)
    ensures ApplyAll(t, []) == t && ApplyAll(t, AllInserts([])) == t
  {
  }

  lemma NoRoots(c: Config)
    ensures RootInserts(c, []) == []
  {
  }

  lemma RootFirst(t: Tables, c: Config, outputs: seq<Option<Root>>)
    requires outputs != []
    ensures ApplyAll(t, RootInserts(c, outputs))
            == ApplyAll(if outputs[0].Some? then Apply(t, Insert(outputs[0].value, c)) else t,
                        RootInserts(c, outputs[1..]))
  {
    var rest := RootInserts(c, outputs[1..]);
    if outputs[0].Some? {
      assert ([Insert(outputs[0].value, c)] + rest)[1..] == rest;
    } else {
      assert [] + rest == rest;
    }
  }

  lemma LineFirst(t: Tables, lines: seq<Line>)
    requires lines != []
    ensures ApplyAll(t, AllInserts(lines)) == ApplyAll(ApplyAll(t, LineInserts(lines[0])), AllInserts(lines[1..]))
  {
    ApplyConcat(t, LineInserts(lines[0]), AllInserts(lines[1..]));
  }

  lemma ClearedFirst(t: Tables, lines: seq<Line>)
    ensures ApplyAll(t, SyncOperations(lines)) == ApplyAll(Tables(map[], map[]), AllInserts(lines))
  {
    ApplyConcat(t, [ClearVods, ClearCods], AllInserts(lines));
    assert ApplyAll(t, [ClearVods, ClearCods]) == Tables(map[], map[]);
  }

  function SyncSteps(n: nat): seq<Event> {
    seq(n, _ => SyncStep)
  }

  lemma {:induction false} SyncStepsRun(ttl: nat, s: State, n: nat)
    requires n == |s.pending|
    ensures Run(ttl, s, SyncSteps(n)) == Some(s.(tables := ApplyAll(s.tables, s.pending), pending := []))
    decreases n
  {
    if n > 0 {
      SyncStepsRun(ttl, Step(ttl, s, SyncStep).value, n - 1);
      assert SyncSteps(n)[1..] == SyncSteps(n - 1);
    }
  }

  lemma SyncRun(ttl: nat, s: State, lines: seq<Line>)
    requires s.pending == []
    ensures Run(ttl, s, [SyncBegin(lines)] + SyncSteps(|SyncOperations(lines)|))
            == Some(s.(tables := ApplyAll(s.tables, SyncOperations(lines))))
  {
    hide SyncOperations, SyncSteps;
    var steps := SyncSteps(|SyncOperations(lines)|);
    var evs := [SyncBegin(lines)] + steps;
    assert evs[1..] == steps;
    SyncStepsRun(ttl, s.(pending := SyncOperations(lines)), |SyncOperations(lines)|);
  }

  lemma StampInPast(ttl: nat, s: State, i: nat)
    requires Inv(ttl, s) && i < |s.children|
    ensures s.children[i].lastUpdate <= s.now
  {
  }

  /** With distinct ids a child is found by its own. */
  lemma FoundAt(ttl: nat, s: State, i: nat)
    requires Inv(ttl, s) && i < |s.children|
    ensures FindChild(s.children, s.children[i].sid) == i
  {
  }

  lemma {:induction false} CheckAllSnoc(ttl: nat, s: State, cods: map<Root, Config>, order: seq<Root>, root: Root)
    requires (forall r | r in order :: r in cods) && root in cods
    ensures forall r | r in order + [root] :: r in cods
    ensures CheckAll(ttl, s, cods, order + [root]) == CheckOne(ttl, CheckAll(ttl, s, cods, order), cods[root].sid)
    decreases order
  {
    hide CheckOne;
    if order == [] {
      assert order + [root] == [root] && [root][1..] == [];
    } else {
      CheckAllSnoc(ttl, CheckOne(ttl, s, cods[order[0]].sid), cods, order[1..], root);
      assert (order + [root])[1..] == order[1..] + [root];
    }
  }
}
