/** The daemon's loop as a step system: registered children and their clients, closures queued from the http threads,
    the on-demand tables and the idle timer. */
module Registry {
  import opened Wrappers
  import opened Links

  /** Where a client object lives; an address is free again once its client is deleted. */
  type Address = nat

  datatype ClientKind = DaemonClient | PipeClient

  datatype Command = StopCommand | RestartCommand

  datatype ChildState = ChildState(sid: string, client: Option<Address>, requestId: nat, lastUpdate: nat)

  datatype Closure = CreateClosure(config: Config) | CodClosure(isM3u8: bool, config: Config)

  /** What an observer notes: live tells whether the client written to was a registered pipe client. */
  datatype Entry =
    | Started(sid: string, at: nat)
    | Served(sid: string, at: nat)
    | Commanded(command: Command, sid: string, to: Address, id: nat, live: bool, byTimer: bool, at: nat)

  datatype State = State(now: nat, clients: map<Address, ClientKind>, children: seq<ChildState>, queue: seq<Closure>,
                         tables: Tables, pending: seq<Operation>, stopping: bool, log: seq<Entry>)

  function Initial(now: nat): State {
    State(now, map[], [], [], Tables(map[], map[]), [], false, [])
  }

  datatype Extension = M3u8 | Ts | OtherExtension

  datatype HttpStatus = OK | ACCEPTED | FORBIDDEN

  /** How an attempt to start a stream ends: the configuration is refused, no process comes up, or one does and its pipe
      client is allocated at a free address. */
  datatype Outcome = Refused | NotForked | Forked(client: Address)

  datatype Event =
    // http threads
    | HttpRequest(server: Kind, ext: Extension, root: Root, fullVod: bool)
    // the loop
    | RunClosure(outcome: Outcome)
    | StartRequest(config: Config, outcome: Outcome)
    | StopRequest(sid: string)
    | RestartRequest(sid: string)
    | StopService
    | ChildExited(sid: string)
    | DaemonConnected(client: Address)
    | ClientLost(client: Address)
    | SyncBegin(lines: seq<Line>)
    | SyncStep
    | CheckTick(order: seq<Root>)
    // the clock
    | Advance(ms: nat)

  /** FindChildByID. */
  function FindChild(cs: seq<ChildState>, sid: string): (i: nat)
    ensures i <= |cs| && (i < |cs| ==> cs[i].sid == sid) && forall j | 0 <= j < i :: cs[j].sid != sid
  {
    if cs == [] || cs[0].sid == sid then 0 else 1 + FindChild(cs[1..], sid)
  }

  function FindClient(cs: seq<ChildState>, a: Address): (i: nat)
    ensures i <= |cs| && (i < |cs| ==> cs[i].client == Some(a)) && forall j | 0 <= j < i :: cs[j].client != Some(a)
  {
    if cs == [] || cs[0].client == Some(a) then 0 else 1 + FindClient(cs[1..], a)
  }

  predicate IsPipe(clients: map<Address, ClientKind>, a: Address) {
    a in clients && clients[a] == PipeClient
  }

  predicate Possible(s: State, o: Outcome) {
    o.Forked? ==> o.client !in s.clients
  }

  /** CreateChildStream. */
  function Create(s: State, sid: string, o: Outcome): State {
    if !o.Forked? || FindChild(s.children, sid) < |s.children| then s
    else s.(clients := s.clients[o.client := PipeClient],
            children := s.children + [ChildState(sid, Some(o.client), 0, s.now)],
            log := s.log + [Started(sid, s.now)])
  }

  /** Child::Stop and Child::Restart: nothing is written without a client. */
  function Send(s: State, i: nat, command: Command, byTimer: bool): State
    requires i < |s.children|
  {
    var c := s.children[i];
    if c.client == None then s
    else
      s.(children := s.children[i := c.(requestId := c.requestId + 1)],
         log := s.log + [Commanded(command, c.sid, c.client.value, c.requestId, IsPipe(s.clients, c.client.value),
                                   byTimer, s.now)])
  }

  function SendTo(s: State, sid: string, command: Command): State {
    var i := FindChild(s.children, sid);
    if i == |s.children| then s else Send(s, i, command, false)
  }

  function StopFrom(s: State, i: nat): (r: State)
    requires i <= |s.children|
    decreases |s.children| - i
  {
    if i == |s.children| then s else StopFrom(Send(s, i, StopCommand, false), i + 1)
  }

  /** UpdateTimestamp for the stream a segment or playlist was asked of. */
  function Touch(s: State, sid: string): State {
    var i := FindChild(s.children, sid);
    if i == |s.children| then s
    else s.(children := s.children[i := s.children[i].(lastUpdate := s.now)], log := s.log + [Served(sid, s.now)])
  }

  function RunOne(s: State, c: Closure, o: Outcome): State {
    match c
    case CreateClosure(config) => Create(s, config.sid, o)
    case CodClosure(isM3u8, config) => Touch(if isM3u8 then Create(s, config.sid, o) else s, config.sid)
  }

  /** ChildStatusChanged: the child is gone, its client stays until reading from it fails. */
  function Exit(s: State, i: nat): State
    requires i < |s.children|
  {
    s.(children := s.children[..i] + s.children[i + 1..])
  }

  /** The first child that has the client loses it. */
  function Forget(cs: seq<ChildState>, a: Address): seq<ChildState> {
    var i := FindClient(cs, a);
    if i < |cs| then cs[i := cs[i].(client := None)] else cs
  }

  /** DataReceived after a read error, and the ping timer after a write error. */
  function Lose(s: State, a: Address): State {
    s.(children := if IsPipe(s.clients, a) then Forget(s.children, a) else s.children, clients := s.clients - {a})
  }

  predicate Overdue(ttl: nat, s: State, i: nat)
    requires i < |s.children|
  {
    s.now - s.children[i].lastUpdate > ttl * 1000
  }

  /** One round of the timer's loop. */
  function CheckOne(ttl: nat, s: State, sid: string): State {
    var i := FindChild(s.children, sid);
    if i < |s.children| && Overdue(ttl, s, i) then Send(s, i, StopCommand, true) else s
  }

  function CheckAll(ttl: nat, s: State, cods: map<Root, Config>, order: seq<Root>): State
    requires forall root | root in order :: root in cods
    decreases order
  {
    if order == [] then s else CheckAll(ttl, CheckOne(ttl, s, cods[order[0]].sid), cods, order[1..])
  }

  /** The roots of the table, in the order of the map. */
  predicate Enumerates(order: seq<Root>, m: map<Root, Config>) {
    && (forall i, j | 0 <= i < j < |order| :: order[i] != order[j])
    && (forall root | root in order :: root in m) && (forall root | root in m :: root in order)
  }

  /** What the request is answered with; nothing is set for a segment that is served. */
  function Answer(s: State, server: Kind, ext: Extension, root: Root, fullVod: bool): Option<HttpStatus> {
    if server == Vod && ext == M3u8 then
      Some(if root !in s.tables.vods then FORBIDDEN else if fullVod then OK else ACCEPTED)
    else if server == Cod && ext != OtherExtension then
      if root !in s.tables.cods then Some(FORBIDDEN) else if ext == M3u8 then Some(ACCEPTED) else None
    else Some(OK)
  }

  function Queued(s: State, server: Kind, ext: Extension, root: Root, fullVod: bool): seq<Closure> {
    if server == Vod && ext == M3u8 && root in s.tables.vods && !fullVod then [CreateClosure(s.tables.vods[root])]
    else if server == Cod && ext != OtherExtension && root in s.tables.cods then
      [CodClosure(ext == M3u8, s.tables.cods[root])]
    else []
  }

  /** A handler of the loop runs to its end before the next one; a sync is interrupted by http threads only. */
  predicate Idle(s: State) {
    s.pending == []
  }

  function Step(ttl: nat, s: State, e: Event): Option<State> {
    match e
    case HttpRequest(server, ext, root, fullVod) =>
      Some(s.(queue := s.queue + Queued(s, server, ext, root, fullVod)))
    case RunClosure(o) =>
      if Idle(s) && s.queue != [] && Possible(s, o) then
        Some(RunOne(s.(queue := s.queue[1..]), s.queue[0], o))
      else None
    case StartRequest(config, o) =>
      if Idle(s) && Possible(s, o) then Some(Create(s, config.sid, o)) else None
    case StopRequest(sid) => if Idle(s) then Some(SendTo(s, sid, StopCommand)) else None
    case RestartRequest(sid) => if Idle(s) then Some(SendTo(s, sid, RestartCommand)) else None
    case StopService =>
      if Idle(s) then Some(if s.stopping then s else StopFrom(s, 0).(stopping := true)) else None
    case ChildExited(sid) =>
      var i := FindChild(s.children, sid);
      if Idle(s) && i < |s.children| then Some(Exit(s, i)) else None
    case DaemonConnected(a) =>
      if Idle(s) && a !in s.clients then Some(s.(clients := s.clients[a := DaemonClient])) else None
    case ClientLost(a) => if Idle(s) && a in s.clients then Some(Lose(s, a)) else None
    case SyncBegin(lines) => if Idle(s) then Some(s.(pending := SyncOperations(lines))) else None
    case SyncStep =>
      if s.pending != [] then Some(s.(tables := Apply(s.tables, s.pending[0]), pending := s.pending[1..])) else None
    case CheckTick(order) =>
      if Idle(s) && Enumerates(order, s.tables.cods) then Some(CheckAll(ttl, s, s.tables.cods, order)) else None
    case Advance(ms) => Some(s.(now := s.now + ms))
  }

  function Run(ttl: nat, s: State, evs: seq<Event>): Option<State>
    decreases evs
  {
    if evs == [] then Some(s) else
      match Step(ttl, s, evs[0])
      case None => None
      case Some(s') => Run(ttl, s', evs[1..])
  }

  lemma {:induction false} RunConcat(ttl: nat, s: State, a: seq<Event>, b: seq<Event>)
    requires Run(ttl, s, a).Some?
    ensures Run(ttl, s, a + b) == Run(ttl, Run(ttl, s, a).value, b)
    decreases a
  {
    hide Step;
    if a == [] {
      assert a + b == b;
    } else {
      RunConcat(ttl, Step(ttl, s, a[0]).value, a[1..], b);
      assert (a + b)[1..] == a[1..] + b && (a + b)[0] == a[0];
    }
  }
}
