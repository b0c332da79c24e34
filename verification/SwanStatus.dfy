/** The failure detector: what `swanctl` lists as configured against what it lists as established,
    by visitors over the two parsed listings. */
module SwanStatus {
  import opened Api
  import opened Lists

  // ---------------------------------------------------------------- listings

  datatype Value = Array(items: seq<Value>) | Single(text: string)
  datatype Entity = Opt(key: string, value: Value) | Blk(block: Block)
  datatype Block = Block(name: string, body: seq<Entity>)
  datatype Conn = Conn(name: string, body: seq<Entity>)
  datatype Entry = Entry(command: string, name: string, conns: seq<Conn>)

  function Conns(entries: seq<Entry>): seq<Conn> {
    if entries == [] then [] else entries[0].conns + Conns(entries[1..])
  }

  lemma {:induction false} ConnsConcat(a: seq<Entry>, b: seq<Entry>)
    ensures Conns(a + b) == Conns(a) + Conns(b)
  {
    if a == [] {
      assert a + b == b;
    } else {
      assert (a + b)[1..] == a[1..] + b;
      ConnsConcat(a[1..], b);
    }
  }

  /** The names of the blocks directly inside a body. */
  function SubBlocks(body: seq<Entity>): set<string> {
    set e | e in body && e.Blk? :: e.block.name
  }

  /** The first plain value under the key "name". */
  function FirstName(body: seq<Entity>): Option<string> {
    if body == [] then None
    else if body[0].Opt? && body[0].key == "name" && body[0].value.Single? then Some(body[0].value.text)
    else FirstName(body[1..])
  }

  function SaNames(body: seq<Entity>): set<string> {
    set e | e in body && e.Blk? && FirstName(e.block.body).Some? :: FirstName(e.block.body).value
  }

  /** The children one block configures, and the children it shows as established or configured. */
  function Configured(b: Block): set<string> {
    if b.name == "children" then SubBlocks(b.body) else {}
  }

  function Shown(b: Block): set<string> {
    if b.name == "child-sas" then SaNames(b.body) else if b.name == "children" then SubBlocks(b.body) else {}
  }

  /** Block `b` occurs in a body, at any depth. */
  predicate Inside(b: Block, body: seq<Entity>)
    decreases body
  {
    && body != []
    && (assert body decreases to body[0];
        || (body[0].Blk? && (body[0].block == b || Inside(b, body[0].block.body)))
        || Inside(b, body[1..]))
  }

  ghost predicate Configures(c: Conn, child: string) {
    exists b :: Inside(b, c.body) && child in Configured(b)
  }

  ghost predicate Shows(c: Conn, child: string) {
    exists b :: Inside(b, c.body) && child in Shown(b)
  }

  // ---------------------------------------------------------------- what a visit gathers

  /** The children shown by a block or a body with everything nested in it. */
  function ShownBlock(b: Block): set<string>
    decreases b, 1
  {
    Shown(b) + ShownBody(b.body)
  }

  function ShownBody(body: seq<Entity>): set<string>
    decreases body, 0
  {
    if body == [] then {}
    else
      assert body decreases to body[0];
      (if body[0].Blk? then ShownBlock(body[0].block) else {}) + ShownBody(body[1..])
  }

  function ConfiguredBlock(b: Block): set<string>
    decreases b, 1
  {
    Configured(b) + ConfiguredBody(b.body)
  }

  function ConfiguredBody(body: seq<Entity>): set<string>
    decreases body, 0
  {
    if body == [] then {}
    else
      assert body decreases to body[0];
      (if body[0].Blk? then ConfiguredBlock(body[0].block) else {}) + ConfiguredBody(body[1..])
  }

  lemma {:induction false} ShownBodyIff(body: seq<Entity>, child: string)
    ensures child in ShownBody(body) <==> exists b :: Inside(b, body) && child in Shown(b)
    decreases body
  {
    if body != [] {
      ShownBodyIff(body[1..], child);
      assert body decreases to body[0];
      if body[0].Blk? {
        ShownBodyIff(body[0].block.body, child);
        assert Inside(body[0].block, body);
      }
    }
  }

  lemma {:induction false} ConfiguredBodyIff(body: seq<Entity>, child: string)
    ensures child in ConfiguredBody(body) <==> exists b :: Inside(b, body) && child in Configured(b)
    decreases body
  {
    if body != [] {
      ConfiguredBodyIff(body[1..], child);
      assert body decreases to body[0];
      if body[0].Blk? {
        ConfiguredBodyIff(body[0].block.body, child);
        assert Inside(body[0].block, body);
      }
    }
  }

  lemma {:induction false} ShownConcat(a: seq<Entity>, b: seq<Entity>)
    ensures ShownBody(a + b) == ShownBody(a) + ShownBody(b)
    decreases |a|
  {
    if a == [] {
      assert a + b == b;
    } else {
      assert (a + b)[1..] == a[1..] + b;
      ShownConcat(a[1..], b);
    }
  }

  lemma {:induction false} ConfiguredConcat(a: seq<Entity>, b: seq<Entity>)
    ensures ConfiguredBody(a + b) == ConfiguredBody(a) + ConfiguredBody(b)
    decreases |a|
  {
    if a == [] {
      assert a + b == b;
    } else {
      assert (a + b)[1..] == a[1..] + b;
      ConfiguredConcat(a[1..], b);
    }
  }

  // ---------------------------------------------------------------- collecting the listing of SAs

  type Collected = map<string, set<string>>

  /** The map holds exactly the connections of `conns` and the children each of them shows. */
  ghost predicate Holds(m: Collected, conns: seq<Conn>) {
    && (forall c :: c in m <==> exists n :: n in conns && n.name == c)
    && (forall c, k :: c in m ==> (k in m[c] <==> exists n :: n in conns && n.name == c && k in ShownBody(n.body)))
  }

  lemma HoldsMore(m: Collected, conns: seq<Conn>, conn: Conn)
    requires Holds(m, conns)
    ensures Holds(m[conn.name := (if conn.name in m then m[conn.name] else {}) + ShownBody(conn.body)], conns + [conn])
  {}

  class ConnectionCollector {
    var children: Collected

    constructor ()
      ensures children == map[]
    {
      children := map[];
    }

    method VisitAST(entries: seq<Entry>)
      requires children == map[]
      modifies this
      ensures Holds(children, Conns(entries))
    {
      for i := 0 to |entries|
        invariant Holds(children, Conns(entries[..i]))
      {
        ghost var done := Conns(entries[..i]);
        assert entries[..i + 1] == entries[..i] + [entries[i]];
        ConnsConcat(entries[..i], [entries[i]]);
        var conns := entries[i].conns;
        for j := 0 to |conns|
          invariant Holds(children, done + conns[..j])
        {
          HoldsMore(children, done + conns[..j], conns[j]);
          assert done + conns[..j + 1] == done + conns[..j] + [conns[j]];
          VisitConn(conns[j]);
        }
        assert conns[..|conns|] == conns && Conns([entries[i]]) == conns;
      }
      assert entries[..|entries|] == entries;
    }

    method VisitConn(conn: Conn)
      modifies this
      ensures children == old(children)[conn.name :=
        (if conn.name in old(children) then old(children)[conn.name] else {}) + ShownBody(conn.body)]
    {
      if conn.name !in children {
        children := children[conn.name := {}];
      }
      VisitBody(conn.body, conn.name);
    }

    method VisitBody(body: seq<Entity>, conn: string)
      requires conn in children
      modifies this
      ensures children == old(children)[conn := old(children)[conn] + ShownBody(body)]
      decreases body, 0
    {
      for i := 0 to |body|
        invariant conn in children && children - {conn} == old(children) - {conn}
        invariant children[conn] == old(children)[conn] + ShownBody(body[..i])
      {
        assert body[..i + 1] == body[..i] + [body[i]];
        ShownConcat(body[..i], [body[i]]);
        assert [body[i]][1..] == [];
        ghost var before := children;
        VisitEntity(body[i], conn);
        assert children - {conn} == before - {conn};
      }
      assert body[..|body|] == body;
      SameBut(children, old(children), conn);
    }

    method VisitEntity(entity: Entity, conn: string)
      requires conn in children
      modifies this
      ensures children == old(children)[conn := old(children)[conn] + (if entity.Blk? then ShownBlock(entity.block) else {})]
      decreases entity
    {
      match entity
      case Blk(block) => VisitBlock(block, conn);
      case Opt(_, _) => assert children[conn] + {} == children[conn];
    }

    method VisitBlock(block: Block, conn: string)
      requires conn in children
      modifies this
      ensures children == old(children)[conn := old(children)[conn] + ShownBlock(block)]
      decreases block, 1
    {
      ghost var before := children[conn];
      ghost var rest := children - {conn};
      for i := 0 to |block.body|
        invariant conn in children && children - {conn} == rest
        invariant children[conn] == before + Shown(Block(block.name, block.body[..i]))
      {
        var e := block.body[i];
        assert block.body[..i + 1] == block.body[..i] + [e];
        if e.Blk? && block.name == "child-sas" {
          var name := NameOf(e.block.body);
          if name.Some? {
            children := children[conn := children[conn] + {name.value}];
          }
        } else if e.Blk? && block.name == "children" {
          children := children[conn := children[conn] + {e.block.name}];
        }
      }
      assert block.body[..|block.body|] == block.body;
      SameBut(children, old(children), conn);
      VisitBody(block.body, conn);
      assert before + Shown(block) + ShownBody(block.body) == before + ShownBlock(block);
    }
  }

  lemma SameBut(m: Collected, before: Collected, conn: string)
    requires conn in m && conn in before && m - {conn} == before - {conn}
    ensures m == before[conn := m[conn]]
  {
    forall c | c in m && c != conn ensures c in before && m[c] == before[c] {
      assert c in m - {conn} && (m - {conn})[c] == m[c];
    }
    forall c | c in before && c != conn ensures c in m {
      assert c in before - {conn};
    }
  }

  method NameOf(body: seq<Entity>) returns (name: Option<string>)
    ensures name == FirstName(body)
  {
    for i := 0 to |body|
      invariant FirstName(body) == FirstName(body[i..])
    {
      if body[i].Opt? && body[i].key == "name" && body[i].value.Single? {
        return Some(body[i].value.text);
      }
    }
    name := None;
  }

  // ---------------------------------------------------------------- finding what is missing

  type MissingMap = map<string, seq<string>>

  predicate Absent(sas: Collected, c: string, k: string) {
    !(c in sas && k in sas[c])
  }

  ghost predicate Noted(m: MissingMap, c: string, k: string) {
    c in m && k in m[c]
  }

  class StrongSwanVisitor {
    const sas: Collected
    var missingConns: set<string>
    var missingChildren: MissingMap

    constructor (sas: Collected)
      ensures this.sas == sas && missingConns == {} && missingChildren == map[]
    {
      this.sas := sas;
      missingConns, missingChildren := {}, map[];
    }

    ghost predicate Found(conns: seq<Conn>)
      reads this
    {
      && (forall c :: c in missingConns <==> c !in sas && exists n :: n in conns && n.name == c)
      && (forall c, k :: Noted(missingChildren, c, k) <==>
            (c in sas ==> k !in sas[c]) && exists n :: n in conns && n.name == c && k in ConfiguredBody(n.body))
    }

    method VisitAST(entries: seq<Entry>)
      requires missingConns == {} && missingChildren == map[]
      modifies this
      ensures Found(Conns(entries))
    {
      for i := 0 to |entries|
        invariant Found(Conns(entries[..i]))
      {
        ghost var done := Conns(entries[..i]);
        assert entries[..i + 1] == entries[..i] + [entries[i]];
        ConnsConcat(entries[..i], [entries[i]]);
        var conns := entries[i].conns;
        for j := 0 to |conns|
          invariant Found(done + conns[..j])
        {
          assert done + conns[..j + 1] == done + conns[..j] + [conns[j]];
          assert forall n :: n in done + conns[..j + 1] <==> n in done + conns[..j] || n == conns[j];
          VisitConn(conns[j]);
        }
        assert conns[..|conns|] == conns && Conns([entries[i]]) == conns;
      }
      assert entries[..|entries|] == entries;
    }

    method VisitConn(conn: Conn)
      modifies this
      ensures missingConns == old(missingConns) + (if conn.name !in sas then {conn.name} else {})
      ensures forall c, k :: Noted(missingChildren, c, k) <==>
        (Noted(old(missingChildren), c, k) || (c == conn.name && k in ConfiguredBody(conn.body) && Absent(sas, c, k)))
    {
      if conn.name !in sas {
        missingConns := missingConns + {conn.name};
      }
      VisitBody(conn.body, conn.name);
    }

    method VisitBody(body: seq<Entity>, conn: string)
      modifies this`missingChildren
      ensures forall c, k :: Noted(missingChildren, c, k) <==>
        (Noted(old(missingChildren), c, k) || (c == conn && k in ConfiguredBody(body) && Absent(sas, c, k)))
      decreases body, 0
    {
      for i := 0 to |body|
        invariant forall c, k :: Noted(missingChildren, c, k) <==>
          (Noted(old(missingChildren), c, k) || (c == conn && k in ConfiguredBody(body[..i]) && Absent(sas, c, k)))
      {
        assert body[..i + 1] == body[..i] + [body[i]];
        ConfiguredConcat(body[..i], [body[i]]);
        assert [body[i]][1..] == [];
        VisitEntity(body[i], conn);
      }
      assert body[..|body|] == body;
    }

    method VisitEntity(entity: Entity, conn: string)
      modifies this`missingChildren
      ensures forall c, k :: Noted(missingChildren, c, k) <==>
        (Noted(old(missingChildren), c, k) || (c == conn && entity.Blk? && k in ConfiguredBlock(entity.block) && Absent(sas, c, k)))
      decreases entity
    {
      match entity
      case Blk(block) => VisitBlock(block, conn);
      case Opt(_, _) =>
    }

    method VisitBlock(block: Block, conn: string)
      modifies this`missingChildren
      ensures forall c, k :: Noted(missingChildren, c, k) <==>
        (Noted(old(missingChildren), c, k) || (c == conn && k in ConfiguredBlock(block) && Absent(sas, c, k)))
      decreases block, 1
    {
      if block.name == "children" {
        for i := 0 to |block.body|
          invariant forall c, k :: Noted(missingChildren, c, k) <==>
            (Noted(old(missingChildren), c, k) || (c == conn && k in SubBlocks(block.body[..i]) && Absent(sas, c, k)))
        {
          var e := block.body[i];
          assert block.body[..i + 1] == block.body[..i] + [e];
          if e.Blk? && Absent(sas, conn, e.block.name) {
            Note(conn, e.block.name);
          }
        }
        assert block.body[..|block.body|] == block.body;
      }
      VisitBody(block.body, conn);
    }

    method Note(conn: string, child: string)
      modifies this`missingChildren
      ensures forall c, k :: Noted(missingChildren, c, k) <==> Noted(old(missingChildren), c, k) || (c == conn && k == child)
    {
      var names := if conn in missingChildren then missingChildren[conn] else [];
      missingChildren := missingChildren[conn := names + [child]];
    }
  }

  // ---------------------------------------------------------------- the verdict

  datatype FailureInfo = FailureInfo(conn: string, child: string)   // no child: the whole connection

  ghost predicate HasConn(conns: seq<Conn>, c: string) {
    exists n :: n in conns && n.name == c
  }

  ghost predicate ConfiguresIn(conns: seq<Conn>, c: string, k: string) {
    exists n :: n in conns && n.name == c && Configures(n, k)
  }

  ghost predicate ShowsIn(conns: seq<Conn>, c: string, k: string) {
    exists n :: n in conns && n.name == c && Shows(n, k)
  }

  /** What is to be reported: configured connections without an SA, and for the others the
      configured children that no SA shows. */
  ghost predicate Failed(conns: seq<Conn>, sas: seq<Conn>, f: FailureInfo) {
    || (f.child == "" && HasConn(conns, f.conn) && !HasConn(sas, f.conn))
    || (HasConn(sas, f.conn) && ConfiguresIn(conns, f.conn, f.child) && !ShowsIn(sas, f.conn, f.child))
  }

  method CheckStatus(conns: seq<Entry>, sas: seq<Entry>) returns (failures: seq<FailureInfo>)
    ensures forall f :: f in failures <==> Failed(Conns(conns), Conns(sas), f)
  {
    var collector := new ConnectionCollector();
    collector.VisitAST(sas);
    var v := new StrongSwanVisitor(collector.children);
    v.VisitAST(conns);
    failures := ListFailures(v.missingConns, v.missingChildren);
    forall f ensures f in failures <==> Failed(Conns(conns), Conns(sas), f) {
      VerdictIff(Conns(conns), Conns(sas), v.sas, v.missingConns, v.missingChildren, f);
    }
  }

  method ListFailures(missingConns: set<string>, missingChildren: MissingMap) returns (failures: seq<FailureInfo>)
    ensures forall f :: f in failures <==>
      (f.child == "" && f.conn in missingConns) || (f.conn !in missingConns && Noted(missingChildren, f.conn, f.child))
  {
    failures := [];
    var kept := missingChildren - missingConns;
    var todo := kept.Keys;
    while todo != {}
      invariant todo <= kept.Keys
      invariant forall f :: f in failures <==> f.conn !in todo && Noted(kept, f.conn, f.child)
    {
      var c :| c in todo;
      ghost var before := failures;
      for i := 0 to |kept[c]|
        invariant forall f :: f in failures <==> f in before || (f.conn == c && f.child in kept[c][..i])
      {
        assert kept[c][..i + 1] == kept[c][..i] + [kept[c][i]];
        failures := failures + [FailureInfo(c, kept[c][i])];
      }
      assert kept[c][..|kept[c]|] == kept[c];
      todo := todo - {c};
    }
    ghost var children := failures;
    todo := missingConns;
    while todo != {}
      invariant todo <= missingConns
      invariant forall f :: f in failures <==> f in children || (f.child == "" && f.conn in missingConns && f.conn !in todo)
    {
      var c :| c in todo;
      failures := failures + [FailureInfo(c, "")];
      todo := todo - {c};
    }
  }

  lemma VerdictIff(conns: seq<Conn>, sas: seq<Conn>, m: Collected, missingConns: set<string>,
                   missingChildren: MissingMap, f: FailureInfo)
    requires Holds(m, sas)
    requires f.conn in missingConns <==> f.conn !in m && exists n :: n in conns && n.name == f.conn
    requires Noted(missingChildren, f.conn, f.child) <==>
      Absent(m, f.conn, f.child) && exists n :: n in conns && n.name == f.conn && f.child in ConfiguredBody(n.body)
    ensures (f.child == "" && f.conn in missingConns) || (f.conn !in missingConns && Noted(missingChildren, f.conn, f.child))
      <==> Failed(conns, sas, f)
  {
    forall n: Conn ensures f.child in ConfiguredBody(n.body) <==> Configures(n, f.child) {
      ConfiguredBodyIff(n.body, f.child);
    }
    forall n: Conn ensures f.child in ShownBody(n.body) <==> Shows(n, f.child) {
      ShownBodyIff(n.body, f.child);
    }
    assert f.conn in m <==> HasConn(sas, f.conn);
    assert f.conn in m ==> (f.child in m[f.conn] <==> ShowsIn(sas, f.conn, f.child));
  }

  // ---------------------------------------------------------------- laws of the verdict

  /** Further SAs never add a report on a connection that has one already. */
  lemma MoreSasFewerReports(conns: seq<Conn>, sas: seq<Conn>, more: seq<Conn>, f: FailureInfo)
    requires HasConn(sas, f.conn) && Failed(conns, sas + more, f)
    ensures Failed(conns, sas, f)
  {}

  /** A listing checked against itself has no failures. */
  lemma SelfCheckClean(conns: seq<Conn>, f: FailureInfo)
    ensures !Failed(conns, conns, f)
  {}

  // ---------------------------------------------------------------- the verdict, told without its parts

  lemma {:induction false} ConnsIff(entries: seq<Entry>, c: Conn)
    ensures c in Conns(entries) <==> exists e :: e in entries && c in e.conns
  {
    if entries != [] {
      ConnsIff(entries[1..], c);
      assert entries == [entries[0]] + entries[1..];
    }
  }

  /** The block that is reached by going to an entry of the body, to an entry of that one, and so on. */
  function BlockAt(body: seq<Entity>, path: seq<nat>): Option<Block>
    decreases |path|
  {
    if path == [] || path[0] >= |body| || !body[path[0]].Blk? then None
    else if |path| == 1 then Some(body[path[0]].block)
    else BlockAt(body[path[0]].block.body, path[1..])
  }

  lemma {:induction false} InsideAt(b: Block, body: seq<Entity>) returns (path: seq<nat>)
    requires Inside(b, body)
    ensures BlockAt(body, path) == Some(b)
    decreases body
  {
    assert body decreases to body[0];
    if body[0].Blk? && body[0].block == b {
      path := [0];
    } else if body[0].Blk? && Inside(b, body[0].block.body) {
      var rest := InsideAt(b, body[0].block.body);
      path := [0] + rest;
      assert path[1..] == rest;
    } else {
      var rest := InsideAt(b, body[1..]);
      path := rest[0 := rest[0] + 1];
      assert path[1..] == rest[1..];
    }
  }

  lemma {:induction false} EntryInside(b: Block, body: seq<Entity>, i: nat)
    requires i < |body| && body[i].Blk? && (body[i].block == b || Inside(b, body[i].block.body))
    ensures Inside(b, body)
    decreases i
  {
    if i > 0 {
      EntryInside(b, body[1..], i - 1);
    }
  }

  lemma {:induction false} AtInside(b: Block, body: seq<Entity>, path: seq<nat>)
    requires BlockAt(body, path) == Some(b)
    ensures Inside(b, body)
    decreases |path|
  {
    if |path| > 1 {
      AtInside(b, body[path[0]].block.body, path[1..]);
    }
    EntryInside(b, body, path[0]);
  }

  /** The first plain value under the key "name" is this one. */
  ghost predicate NamedBy(body: seq<Entity>, text: string) {
    exists i :: NameAt(body, i) && body[i].value.text == text && forall j :: 0 <= j < i ==> !NameAt(body, j)
  }

  predicate NameAt(body: seq<Entity>, i: int) {
    0 <= i < |body| && body[i].Opt? && body[i].key == "name" && body[i].value.Single?
  }

  lemma {:induction false} FirstNameIs(body: seq<Entity>, text: string)
    ensures FirstName(body) == Some(text) <==> NamedBy(body, text)
  {
    if body != [] {
      var rest := body[1..];
      FirstNameIs(rest, text);
      assert forall i {:trigger NameAt(rest, i)} :: i >= 0 ==> (NameAt(rest, i) <==> NameAt(body, i + 1));
      if NameAt(body, 0) {
        assert NamedBy(body, text) ==> body[0].value.text == text;
      } else if NamedBy(body, text) {
        var i :| NameAt(body, i) && body[i].value.text == text && forall j :: 0 <= j < i ==> !NameAt(body, j);
        assert NameAt(rest, i - 1);
      } else if NamedBy(rest, text) {
        var i :| NameAt(rest, i) && rest[i].value.text == text && forall j :: 0 <= j < i ==> !NameAt(rest, j);
        assert NameAt(body, i + 1);
        forall j | 0 <= j < i + 1 ensures !NameAt(body, j) {
          assert j > 0 ==> !NameAt(rest, j - 1);
        }
      }
    }
  }

  /** A "children" block with a block of the child's name. */
  ghost predicate ListsChild(b: Block, k: string) {
    b.name == "children" && exists e :: e in b.body && e.Blk? && e.block.name == k
  }

  /** A "child-sas" block with a block in which the child is named. */
  ghost predicate NamesSa(b: Block, k: string) {
    b.name == "child-sas" && exists e :: e in b.body && e.Blk? && NamedBy(e.block.body, k)
  }

  lemma ShownIs(b: Block, k: string)
    ensures k in Configured(b) <==> ListsChild(b, k)
    ensures k in Shown(b) <==> ListsChild(b, k) || NamesSa(b, k)
  {
    forall e | e in b.body && e.Blk? ensures FirstName(e.block.body) == Some(k) <==> NamedBy(e.block.body, k) {
      FirstNameIs(e.block.body, k);
    }
  }

  ghost predicate Established(sas: seq<Entry>, c: string) {
    exists e, n :: e in sas && n in e.conns && n.name == c
  }

  /** A block in the body of a connection of that name, at any depth. */
  predicate BlockOf(entries: seq<Entry>, c: string, e: Entry, n: Conn, path: seq<nat>, b: Block) {
    e in entries && n in e.conns && n.name == c && BlockAt(n.body, path) == Some(b)
  }

  /** A block of this connection, at any depth, lists the child. */
  ghost predicate ListedIn(entries: seq<Entry>, c: string, k: string) {
    exists e, n, path, b :: BlockOf(entries, c, e, n, path, b) && ListsChild(b, k)
  }

  /** A block of this connection, at any depth, names the child as established. */
  ghost predicate SaNamedIn(entries: seq<Entry>, c: string, k: string) {
    exists e, n, path, b :: BlockOf(entries, c, e, n, path, b) && NamesSa(b, k)
  }

  lemma HasConnIs(entries: seq<Entry>, c: string)
    ensures HasConn(Conns(entries), c) <==> Established(entries, c)
  {
    forall n ensures n in Conns(entries) <==> exists e :: e in entries && n in e.conns {
      ConnsIff(entries, n);
    }
  }

  lemma ConfiguresIs(entries: seq<Entry>, c: string, k: string)
    ensures ConfiguresIn(Conns(entries), c, k) <==> ListedIn(entries, c, k)
  {
    if ConfiguresIn(Conns(entries), c, k) {
      var n :| n in Conns(entries) && n.name == c && Configures(n, k);
      var b :| Inside(b, n.body) && k in Configured(b);
      ConnsIff(entries, n);
      var path := InsideAt(b, n.body);
      ShownIs(b, k);
      var e :| e in entries && n in e.conns;
      assert BlockOf(entries, c, e, n, path, b);
    }
    if ListedIn(entries, c, k) {
      var e, n, path, b :| BlockOf(entries, c, e, n, path, b) && ListsChild(b, k);
      ConnsIff(entries, n);
      AtInside(b, n.body, path);
      ShownIs(b, k);
      assert Configures(n, k);
    }
  }

  lemma ShowsIs(entries: seq<Entry>, c: string, k: string)
    ensures ShowsIn(Conns(entries), c, k) <==> ListedIn(entries, c, k) || SaNamedIn(entries, c, k)
  {
    if ShowsIn(Conns(entries), c, k) {
      var n :| n in Conns(entries) && n.name == c && Shows(n, k);
      var b :| Inside(b, n.body) && k in Shown(b);
      ConnsIff(entries, n);
      var path := InsideAt(b, n.body);
      ShownIs(b, k);
      var e :| e in entries && n in e.conns;
      assert BlockOf(entries, c, e, n, path, b);
    }
    if e, n, path, b :| BlockOf(entries, c, e, n, path, b) && (ListsChild(b, k) || NamesSa(b, k)) {
      ConnsIff(entries, n);
      AtInside(b, n.body, path);
      ShownIs(b, k);
      assert Shows(n, k);
    }
  }

  /** What is reported: a configured connection that is not listed among the SAs, or of one that is a child
      that a "children" block of the configuration lists, at any depth, and no "children" or "child-sas"
      block of its SAs does. */
  lemma FailedIff(conns: seq<Entry>, sas: seq<Entry>, f: FailureInfo)
    ensures Failed(Conns(conns), Conns(sas), f) <==>
      if Established(sas, f.conn)
      then ListedIn(conns, f.conn, f.child) && !ListedIn(sas, f.conn, f.child) && !SaNamedIn(sas, f.conn, f.child)
      else f.child == "" && Established(conns, f.conn)
  {
    HasConnIs(conns, f.conn);
    HasConnIs(sas, f.conn);
    ConfiguresIs(conns, f.conn, f.child);
    ShowsIs(sas, f.conn, f.child);
  }

  /** A child that an inner block of a "child-sas" block names is never reported, wherever the block is in
      the SAs of its connection. */
  lemma EstablishedNotReported(conns: seq<Entry>, sas: seq<Entry>, e: Entry, n: Conn, path: seq<nat>, inner: seq<Entity>,
                               sa: Block, k: string)
    requires e in sas && n in e.conns && BlockAt(n.body, path) == Some(Block("child-sas", inner))
    requires Blk(sa) in inner && sa.body != [] && sa.body[0] == Opt("name", Single(k))
    ensures !Failed(Conns(conns), Conns(sas), FailureInfo(n.name, k))
  {
    FailedIff(conns, sas, FailureInfo(n.name, k));
    assert NameAt(sa.body, 0) && NamedBy(sa.body, k);
    assert NamesSa(Block("child-sas", inner), k);
    assert BlockOf(sas, n.name, e, n, path, Block("child-sas", inner));
  }
}
