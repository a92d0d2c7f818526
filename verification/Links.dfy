/** The tables that map an http root to the on-demand stream served below it, and how a sync fills them. */
module Links {
  import opened Wrappers

  type Root = string

  datatype Kind = Vod | Cod | OtherKind

  /** What the tables need of a stream configuration: an output has an http root when its scheme is http. */
  datatype Config = Config(sid: string, kind: Kind, outputs: seq<Option<Root>>)

  /** A line of a sync request; accepted is the verdict of the configuration checks when its turn comes. */
  datatype Line = Line(config: Config, accepted: bool)

  datatype Tables = Tables(vods: map<Root, Config>, cods: map<Root, Config>)

  /** One locked operation on a table. */
  datatype Operation = ClearVods | ClearCods | Insert(root: Root, config: Config)

  predicate Linkable(c: Config) {
    c.kind == Vod || c.kind == Cod
  }

  function Apply(t: Tables, op: Operation): Tables {
    match op
    case ClearVods => t.(vods := map[])
    case ClearCods => t.(cods := map[])
    case Insert(root, c) =>
      if c.kind == Vod then t.(vods := t.vods[root := c])
      else if c.kind == Cod then t.(cods := t.cods[root := c])
      else t
  }

  function ApplyAll(t: Tables, ops: seq<Operation>): Tables
    decreases ops
  {
    if ops == [] then t else ApplyAll(Apply(t, ops[0]), ops[1..])
  }

  /** AddStreamLine: a root of each http output, in order. */
  function RootInserts(c: Config, outputs: seq<Option<Root>>): seq<Operation> {
    if outputs == [] then []
    else (if outputs[0].Some? then [Insert(outputs[0].value, c)] else []) + RootInserts(c, outputs[1..])
  }

  function LineInserts(line: Line): seq<Operation> {
    if line.accepted && Linkable(line.config) then RootInserts(line.config, line.config.outputs) else []
  }

  function AllInserts(lines: seq<Line>): seq<Operation> {
    if lines == [] then [] else LineInserts(lines[0]) + AllInserts(lines[1..])
  }

  /** The whole sync, operation by operation. */
  function SyncOperations(lines: seq<Line>): seq<Operation> {
    [ClearVods, ClearCods] + AllInserts(lines)
  }

  lemma {:induction false} ApplyConcat(t: Tables, a: seq<Operation>, b: seq<Operation>)
    ensures ApplyAll(t, a + b) == ApplyAll(ApplyAll(t, a), b)
    decreases a
  {
    if a == [] {
      assert a + b == b;
    } else {
      ApplyConcat(Apply(t, a[0]), a[1..], b);
      assert (a + b)[1..] == a[1..] + b && (a + b)[0] == a[0];
    }
  }

  // What the tables must hold in the end, without reference to the operations

  /** The line is accepted, of the kind, and lists the root. */
  predicate Lists(line: Line, kind: Kind, root: Root) {
    line.accepted && line.config.kind == kind && Some(root) in line.config.outputs
  }

  /** c is the configuration of the last line that lists the root. */
  ghost predicate LastListed(lines: seq<Line>, kind: Kind, root: Root, c: Config) {
    exists i | 0 <= i < |lines| ::
      Lists(lines[i], kind, root) && lines[i].config == c && forall j | i < j < |lines| :: !Lists(lines[j], kind, root)
  }

  function Table(t: Tables, kind: Kind): map<Root, Config> {
    if kind == Vod then t.vods else if kind == Cod then t.cods else map[]
  }

  function Lookup(m: map<Root, Config>, root: Root): Option<Config> {
    if root in m then Some(m[root]) else None
  }

  lemma {:induction false} RootInsertsEffect(t: Tables, c: Config, outputs: seq<Option<Root>>, kind: Kind, root: Root)
    requires Linkable(c) && Linkable(c.(kind := kind))
    ensures Lookup(Table(ApplyAll(t, RootInserts(c, outputs)), kind), root)
            == if c.kind == kind && Some(root) in outputs then Some(c) else Lookup(Table(t, kind), root)
    decreases outputs
  {
    if outputs != [] {
      var rest := RootInserts(c, outputs[1..]);
      if outputs[0].Some? {
        var op := Insert(outputs[0].value, c);
        RootInsertsEffect(Apply(t, op), c, outputs[1..], kind, root);
        assert ([op] + rest)[1..] == rest;
      } else {
        RootInsertsEffect(t, c, outputs[1..], kind, root);
        assert [] + rest == rest;
      }
    }
  }

  lemma LineEffect(t: Tables, line: Line, kind: Kind, root: Root)
    requires kind == Vod || kind == Cod
    ensures Lookup(Table(ApplyAll(t, LineInserts(line)), kind), root)
            == if Lists(line, kind, root) then Some(line.config) else Lookup(Table(t, kind), root)
  {
    if line.accepted && Linkable(line.config) {
      RootInsertsEffect(t, line.config, line.config.outputs, kind, root);
    }
  }

  lemma {:induction false} LinesEffect(t: Tables, lines: seq<Line>, kind: Kind, root: Root, c: Config)
    requires kind == Vod || kind == Cod
    ensures Lookup(Table(ApplyAll(t, AllInserts(lines)), kind), root) == Some(c)
            <==> LastListed(lines, kind, root, c)
                 || (Lookup(Table(t, kind), root) == Some(c) && forall line | line in lines :: !Lists(line, kind, root))
    decreases lines
  {
    hide Table, Lookup, Lists;
    if lines != [] {
      var t' := ApplyAll(t, LineInserts(lines[0]));
      ApplyConcat(t, LineInserts(lines[0]), AllInserts(lines[1..]));
      LineEffect(t, lines[0], kind, root);
      LinesEffect(t', lines[1..], kind, root, c);
      LastListedCons(lines, kind, root, c);
      assert lines == [lines[0]] + lines[1..];
    }
  }

  predicate ListedFirst(lines: seq<Line>, kind: Kind, root: Root, c: Config)
    requires lines != []
  {
    Lists(lines[0], kind, root) && lines[0].config == c && forall line | line in lines[1..] :: !Lists(line, kind, root)
  }

  lemma LastListedOfCons(lines: seq<Line>, kind: Kind, root: Root, c: Config)
    requires lines != [] && LastListed(lines, kind, root, c)
    ensures LastListed(lines[1..], kind, root, c) || ListedFirst(lines, kind, root, c)
  {
    hide Lists;
    var tail := lines[1..];
    var i :| 0 <= i < |lines| && Lists(lines[i], kind, root) && lines[i].config == c
             && forall j | i < j < |lines| :: !Lists(lines[j], kind, root);
    assert forall j | i < j < |lines| :: j > 0 ==> lines[j] == tail[j - 1];
    if i > 0 {
      assert tail[i - 1] == lines[i] && forall j | i - 1 < j < |tail| :: tail[j] == lines[j + 1];
    }
  }

  lemma LastListedCons(lines: seq<Line>, kind: Kind, root: Root, c: Config)
    requires lines != []
    ensures LastListed(lines, kind, root, c)
            <==> LastListed(lines[1..], kind, root, c) || ListedFirst(lines, kind, root, c)
  {
    hide Lists;
    var tail := lines[1..];
    if LastListed(tail, kind, root, c) {
      var i :| 0 <= i < |tail| && Lists(tail[i], kind, root) && tail[i].config == c
               && forall j | i < j < |tail| :: !Lists(tail[j], kind, root);
      assert lines[i + 1] == tail[i] && forall j | i + 1 < j < |lines| :: lines[j] == tail[j - 1];
    }
    if LastListed(lines, kind, root, c) {
      LastListedOfCons(lines, kind, root, c);
    }
    if ListedFirst(lines, kind, root, c) {
      assert forall j | 0 < j < |lines| :: lines[j] == tail[j - 1];
    }
  }

  /** After a sync a table maps a root to a configuration exactly when the last accepted line of its kind that lists the
      root has it, whatever the tables held before. */
  lemma SyncTablesIff(t: Tables, lines: seq<Line>, kind: Kind, root: Root, c: Config)
    requires kind == Vod || kind == Cod
    ensures Lookup(Table(ApplyAll(t, SyncOperations(lines)), kind), root) == Some(c)
            <==> LastListed(lines, kind, root, c)
  {
    hide Lists;
    ApplyConcat(t, [ClearVods, ClearCods], AllInserts(lines));
    var cleared := Tables(map[], map[]);
    assert ApplyAll(t, [ClearVods, ClearCods]) == cleared;
    LinesEffect(cleared, lines, kind, root, c);
  }

  /** No configuration is in both tables. */
  lemma TablesDisjoint(t: Tables, lines: seq<Line>, root1: Root, root2: Root)
    ensures var r := ApplyAll(t, SyncOperations(lines));
            root1 in r.vods && root2 in r.cods ==> r.vods[root1] != r.cods[root2]
  {
    hide ApplyAll, SyncOperations;
    var r := ApplyAll(t, SyncOperations(lines));
    if root1 in r.vods && root2 in r.cods {
      SyncTablesIff(t, lines, Vod, root1, r.vods[root1]);
      SyncTablesIff(t, lines, Cod, root2, r.cods[root2]);
    }
  }

  /** A table behind its mutex. */
  class LinksHolderTS {
    var links: map<Root, Config>

    constructor ()
      ensures links == map[]
    {
      links := map[];
    }

    method Find(path: Root) returns (config: Option<Config>)
      ensures config == Lookup(links, path)
    {
      if path !in links {
        return None;
      }
      config := Some(links[path]);
    }

    method Insert(path: Root, config: Config)
      modifies this
      ensures links == old(links)[path := config]
    {
      links := links[path := config];
    }

    method Clear()
      modifies this
      ensures links == map[]
    {
      links := map[];
    }

    method Copy() returns (copy: map<Root, Config>)
      ensures copy == links
    {
      copy := links;
    }
  }
}
