/** The reference for repository operations: on a bare table, and on a table with the deletions that a transaction has
    not flushed yet. */
module Ledgers {
  import opened Wrappers
  import opened Orm

  function Find(t: Table, k: Key): Option<Row> {
    if k in t then Some(t[k]) else None
  }

  /** The same operation done at once on a table; None if it would put two rows on one key or give two rows the same
      value in a unique column. */
  function TableOp(t: Table, op: Op): Option<Table> {
    match op
    case Create(model, data, defaults) =>
      var row := Assign(model, defaults, data);
      var k := Key(model, row.id);
      if k in t || Taken(t, k, row) then None else Some(t[k := row])
    case Update(model, id, data) =>
      var k := Key(model, id);
      if k !in t then Some(t)
      else
        var row := Assign(model, t[k], data);
        var moved := Key(model, row.id);
        if (moved != k && moved in t) || (row != t[k] && Taken(t, k, row)) then None
        else Some((t - {k})[moved := row])
    case Delete(model, id) => Some(t - {Key(model, id)})
    case _ => Some(t)
  }

  /** Setting attributes changes the given columns the model knows, and the key if one is given, and nothing else. */
  lemma AssignSetsKnownColumns(model: Model, row: Row, data: Data, c: string)
    ensures var r := Assign(model, row, data);
      && (c in data.cols && c in model.columns ==> c in r.cols && r.cols[c] == data.cols[c])
      && (!(c in data.cols && c in model.columns) ==>
            (c in r.cols <==> c in row.cols) && (c in r.cols ==> r.cols[c] == row.cols[c]))
      && r.id == (if data.id.Some? then data.id.value else row.id)
  {
  }

  /** What the plain operations mean: the row they are about appears, changes or disappears, and no other row does;
      only a create or an update can fail, and only on the key or a unique value of another row. */
  lemma TableOpMeaning(t: Table, op: Op, j: Key)
    requires WellKeyed(t)
    ensures op.Create? ==> var row := Assign(op.model, op.defaults, op.data); var k := Key(op.model, row.id);
      && (TableOp(t, op).None? <==> k in t || Taken(t, k, row))
      && (TableOp(t, op).Some? ==> Find(TableOp(t, op).value, j) == if j == k then Some(row) else Find(t, j))
    ensures op.Update? && Key(op.model, op.id) in t ==>
      var k := Key(op.model, op.id); var row := Assign(op.model, t[k], op.data); var moved := Key(op.model, row.id);
      && (TableOp(t, op).None? <==> (moved != k && moved in t) || (row != t[k] && Taken(t, k, row)))
      && (TableOp(t, op).Some? ==>
            Find(TableOp(t, op).value, j) == if j == moved then Some(row) else if j == k then None else Find(t, j))
    ensures op.Update? && Key(op.model, op.id) !in t ==> TableOp(t, op) == Some(t)
    ensures op.Delete? ==>
      TableOp(t, op).Some? && Find(TableOp(t, op).value, j) == if j == Key(op.model, op.id) then None else Find(t, j)
    ensures op.Get? || op.Append? || op.Flush? ==> TableOp(t, op) == Some(t)
  {
  }

  /** When a create fails: its key is taken, or another row of its model has the same value in a unique column. */
  lemma CreateFailsIff(t: Table, op: Op)
    requires op.Create?
    ensures var row := Assign(op.model, op.defaults, op.data);
      TableOp(t, op).None? <==>
        || Key(op.model, row.id) in t
        || exists j, c :: j in t && j.model == op.model && c in op.model.unique && c in t[j].cols && c in row.cols
                          && t[j].cols[c] == row.cols[c]
  {
    var row := Assign(op.model, op.defaults, op.data);
    if Taken(t, Key(op.model, row.id), row) {
      var j :| j in t && j != Key(op.model, row.id) && j.model == op.model && Clash(op.model, t[j], row);
      var c :| c in op.model.unique && c in t[j].cols && c in row.cols && t[j].cols[c] == row.cols[c];
    }
    if j, c :| j in t && j.model == op.model && c in op.model.unique && c in t[j].cols && c in row.cols
               && t[j].cols[c] == row.cols[c] {
      assert Clash(op.model, t[j], row);
    }
  }

  /** When an update fails: its row is there and changes, and the new key belongs to another row, or another row of its
      model has the same value in a unique column. */
  lemma UpdateFailsIff(t: Table, op: Op)
    requires WellKeyed(t) && op.Update?
    ensures TableOp(t, op).None? <==>
      && Target(op) in t
      && var row := Assign(op.model, t[Target(op)], op.data);
         || (row.id != op.id && Key(op.model, row.id) in t)
         || (row != t[Target(op)]
             && exists j, c :: j in t && j != Target(op) && j.model == op.model && c in op.model.unique
                               && c in t[j].cols && c in row.cols && t[j].cols[c] == row.cols[c])
  {
    if Target(op) in t {
      var row := Assign(op.model, t[Target(op)], op.data);
      if Taken(t, Target(op), row) {
        var j :| j in t && j != Target(op) && j.model == op.model && Clash(op.model, t[j], row);
        var c :| c in op.model.unique && c in t[j].cols && c in row.cols && t[j].cols[c] == row.cols[c];
      }
      if j, c :| j in t && j != Target(op) && j.model == op.model && c in op.model.unique && c in t[j].cols
                 && c in row.cols && t[j].cols[c] == row.cols[c] {
        assert Clash(op.model, t[j], row);
      }
    }
  }

  /** Two users of different names: the second is created, and may not take the name of the first. */
  lemma NamesAreUnique()
    ensures var user := Model("User", {"username"}, {"username"});
      var bob := map[Key(user, "1") := Row("1", map["username" := "bob"])];
      var both := bob[Key(user, "2") := Row("2", map["username" := "alice"])];
      && TableOp(bob, Create(user, Data(Some("2"), map["username" := "alice"]), Row("", map[]))) == Some(both)
      && TableOp(both, Update(user, "2", Data(None, map["username" := "bob"]))) == None
  {
    var user := Model("User", {"username"}, {"username"});
    var first, second := Key(user, "1"), Key(user, "2");
    var bob := map[first := Row("1", map["username" := "bob"])];
    var make, rename := Create(user, Data(Some("2"), map["username" := "alice"]), Row("", map[])),
                        Update(user, "2", Data(None, map["username" := "bob"]));
    assert "1" != "2" by { assert "1"[0] != "2"[0]; }
    assert "bob" != "alice" by { assert |"bob"| != |"alice"|; }
    assert Assign(user, make.defaults, make.data) == Row("2", map["username" := "alice"]);
    var both := bob[second := Row("2", map["username" := "alice"])];
    assert forall c :: c in user.unique ==> c == "username";
    CreateFailsIff(bob, make);
    UpdateFailsIff(both, rename);
    var row := Assign(user, both[second], rename.data);
    assert row.cols["username"] == "bob" && "username" in user.unique && first != second;
    assert both[first].cols["username"] == row.cols["username"];
  }

  lemma TableOpKeepsKeys(t: Table, op: Op)
    requires WellKeyed(t) && TableOp(t, op).Some?
    ensures WellKeyed(TableOp(t, op).value)
  {
  }

  function Target(op: Op): Key
    requires !op.Create? && !op.Flush?
  {
    Key(op.model, op.id)
  }

  /** What the same operation does at once to the association rows: an append links rows that are there, and a
      deletion takes the links of its row along. */
  function LinkOp(t: Table, links: set<Link>, op: Op): set<Link> {
    match op
    case Append(_, _, other) =>
      if Target(op) in t && other in t then links + {Link(Target(op), other)} else links
    case Delete(_, _) => if Target(op) in t then Apart(links, {Target(op)}) else links
    case _ => links
  }

  /** Which association rows there are afterwards: an append of two rows that are there adds the one between them, a
      deletion of a row takes those at either of its ends along, and nothing else changes any. */
  lemma LinkOpMeaning(t: Table, links: set<Link>, op: Op, owner: Key, target: Key)
    ensures Link(owner, target) in LinkOp(t, links, op) <==>
      if op.Append? && owner == Key(op.model, op.id) && target == op.other && owner in t && target in t then true
      else if op.Delete? && Key(op.model, op.id) in t && Key(op.model, op.id) in {owner, target} then false
      else Link(owner, target) in links
  {
  }

  // ---------- One transaction ----------

  /** A table under the operations, with the rows whose deletion is still to be flushed, the keys under which rows were
      when their deletion was flushed, the links still to be flushed, and what was flushed of others. */
  datatype Ledger = Ledger(table: Table, doomed: Table, erased: set<Key>, appended: set<Link>, relinking: Relinking)

  function Opened(t: Table): Ledger { Ledger(t, map[], {}, {}, NO_RELINKING) }

  /** Where an update puts its row. */
  function Destination(op: Op): Key
    requires op.Update?
  {
    Key(op.model, if op.data.id.Some? then op.data.id.value else op.id)
  }

  predicate Flushes(l: Ledger, op: Op) {
    op.Create? || op.Flush? || (op.Update? && (Target(op) in l.table || Target(op) in l.doomed))
  }

  /** The operation needs the key or a unique value of a row that is only deleted when the operation has flushed. A new
      row may take over the key of such a row, but an update may not move a row there. */
  predicate Blocked(l: Ledger, op: Op) {
    match op
    case Create(model, data, defaults) =>
      var row := Assign(model, defaults, data);
      Taken(l.doomed, Key(model, row.id), row)
    case Update(model, id, data) =>
      var k := Key(model, id);
      k in l.table && var row := Assign(model, l.table[k], data); var moved := Key(model, row.id);
      (moved != k && moved in l.doomed) || (row != l.table[k] && Taken(l.doomed, k, row))
    case _ => false
  }

  /** The keys the doomed rows have at the flush that ends an operation: an update may still move one of them. */
  function DoomedAt(doomed: Table, op: Op): set<Key> {
    if op.Update? && Target(op) in doomed then doomed.Keys - {Target(op)} + {Destination(op)} else doomed.Keys
  }

  /** The links under the keys that their rows have once one of the rows has moved. */
  function Renamed(links: set<Link>, k: Key, moved: Key): set<Link> {
    set x | x in links :: Link(if x.owner == k then moved else x.owner, if x.target == k then moved else x.target)
  }

  /** The links that the flush that ends an operation inserts: an update may still move one of their rows. */
  function AppendedAt(l: Ledger, op: Op): set<Link> {
    if op.Update? && Target(op) in l.table then Renamed(l.appended, Target(op), Destination(op)) else l.appended
  }

  /** The ledger after an operation that ends with a flush. */
  function FlushNoted(l: Ledger, after: Table, op: Op): Ledger {
    Ledger(after, map[], l.erased + DoomedAt(l.doomed, op), {},
           Relink(l.relinking, l.doomed.Keys, AppendedAt(l, op)))
  }

  function Note(l: Ledger, op: Op): Option<Ledger> {
    match TableOp(l.table, op)
    case None => None
    case Some(after) =>
      if Blocked(l, op) then None
      else if Flushes(l, op) then Some(FlushNoted(l, after, op))
      else if op.Delete? && Target(op) in l.table then
        Some(l.(table := after, doomed := l.doomed[Target(op) := l.table[Target(op)]],
                appended := Apart(l.appended, {Target(op)})))
      else if op.Append? && Target(op) in l.table && op.other in l.table then
        Some(l.(table := after, appended := l.appended + {Link(Target(op), op.other)}))
      else Some(l.(table := after))
  }

  function NoteAll(l: Ledger, ops: seq<Op>): Option<Ledger>
    decreases |ops|
  {
    if ops == [] then Some(l)
    else match Note(l, ops[0]) case None => None case Some(next) => NoteAll(next, ops[1..])
  }

  function TableAll(t: Table, ops: seq<Op>): Option<Table>
    decreases |ops|
  {
    if ops == [] then Some(t)
    else match TableOp(t, ops[0]) case None => None case Some(next) => TableAll(next, ops[1..])
  }

  /** No operation up to the first that fails anyway needs what a pending deletion still holds. */
  predicate Unblocked(l: Ledger, ops: seq<Op>)
    decreases |ops|
  {
    ops == [] || TableOp(l.table, ops[0]).None?
    || (!Blocked(l, ops[0]) && Unblocked(Note(l, ops[0]).value, ops[1..]))
  }

  /** The ledger's table is the plain one, as long as nothing is blocked. */
  lemma {:induction false} LedgerTable(l: Ledger, ops: seq<Op>)
    ensures NoteAll(l, ops).Some? <==> TableAll(l.table, ops).Some? && Unblocked(l, ops)
    ensures NoteAll(l, ops).Some? ==> NoteAll(l, ops).value.table == TableAll(l.table, ops).value
    decreases |ops|
  {
    if ops != [] && Note(l, ops[0]).Some? {
      LedgerTable(Note(l, ops[0]).value, ops[1..]);
    }
  }

  /** Every deletion is flushed at once. */
  predicate FlushesDeletes(ops: seq<Op>) {
    forall i :: 0 <= i < |ops| - 1 && ops[i].Delete? ==> ops[i + 1].Flush?
  }

  /** Deletions that are flushed at once block nothing. */
  lemma {:induction false} FlushedDeletesUnblock(l: Ledger, ops: seq<Op>)
    requires FlushesDeletes(ops) && (l.doomed == map[] || (ops != [] ==> ops[0].Flush?))
    ensures Unblocked(l, ops)
    decreases |ops|
  {
    if ops != [] && TableOp(l.table, ops[0]).Some? {
      NothingDoomedNothingBlocked(l, ops[0]);
      assert forall i :: 0 <= i < |ops| - 1 ==> ops[1..][i] == ops[i + 1];
      FlushedDeletesUnblock(Note(l, ops[0]).value, ops[1..]);
    }
  }

  lemma NothingDoomedNothingBlocked(l: Ledger, op: Op)
    requires l.doomed == map[] || op.Flush?
    ensures !Blocked(l, op)
    ensures Note(l, op).Some? && !op.Delete? ==> Note(l, op).value.doomed == map[]
  {
  }

  // ---------- The links of one transaction ----------

  /** An operation that does not move a row to another key. */
  predicate KeepsKey(op: Op) {
    op.Update? ==> op.data.id.None? || op.data.id.value == op.id
  }

  /** The association rows as they will be once everything is flushed and committed. */
  function LinkView(links: set<Link>, l: Ledger): set<Link> {
    Apart(Relinked(links, l.relinking), l.doomed.Keys) + l.appended
  }

  /** The association rows that a transaction of the operations leaves. */
  function LinksAfter(t: Table, links: set<Link>, ops: seq<Op>): set<Link> {
    match NoteAll(Opened(t), ops)
    case None => links
    case Some(l) => LinkView(links, l)
  }

  /** Pending links are between rows of the table, which are not doomed. */
  ghost predicate Attached(l: Ledger) {
    && (forall x :: x in l.appended ==> x.owner in l.table && x.target in l.table)
    && (forall k :: k in l.doomed ==> k !in l.table)
  }

  /** The operation moves no row with a pending link. */
  predicate LeavesAppended(l: Ledger, op: Op) {
    op.Update? && !KeepsKey(op) ==> Apart(l.appended, {Target(op)}) == l.appended
  }

  function LinkAll(t: Table, links: set<Link>, ops: seq<Op>): set<Link>
    decreases |ops|
  {
    if ops == [] then links
    else match TableOp(t, ops[0])
      case None => links
      case Some(next) => LinkAll(next, LinkOp(t, links, ops[0]), ops[1..])
  }

  predicate LeaveAppended(l: Ledger, ops: seq<Op>)
    decreases |ops|
  {
    ops == [] || Note(l, ops[0]).None? || (LeavesAppended(l, ops[0]) && LeaveAppended(Note(l, ops[0]).value, ops[1..]))
  }

  lemma AppendedStays(l: Ledger, op: Op)
    requires LeavesAppended(l, op)
    ensures AppendedAt(l, op) == l.appended
  {
    if op.Update? && Target(op) in l.table {
      assert forall x :: x in l.appended ==> Destination(op) == Target(op) || x in Apart(l.appended, {Target(op)});
    }
  }

  lemma FlushKeepsView(links: set<Link>, l: Ledger, after: Table, op: Op)
    requires LeavesAppended(l, op)
    ensures LinkView(links, FlushNoted(l, after, op)) == LinkView(links, l)
  {
    AppendedStays(l, op);
  }

  lemma DeleteCutsView(links: set<Link>, l: Ledger, k: Key, row: Row)
    requires Attached(l)
    ensures LinkView(links, l.(doomed := l.doomed[k := row], appended := Apart(l.appended, {k})))
            == Apart(LinkView(links, l), {k})
  {
  }

  lemma NoteKeepsAttached(l: Ledger, op: Op)
    requires Attached(l) && Note(l, op).Some?
    ensures Attached(Note(l, op).value)
  {
  }

  lemma NoteLinks(links: set<Link>, l: Ledger, op: Op)
    requires Attached(l) && Note(l, op).Some? && LeavesAppended(l, op)
    ensures LinkView(links, Note(l, op).value) == LinkOp(l.table, LinkView(links, l), op)
  {
    var after := TableOp(l.table, op).value;
    if Flushes(l, op) {
      FlushKeepsView(links, l, after, op);
    } else if op.Delete? && Target(op) in l.table {
      DeleteCutsView(links, l, Target(op), l.table[Target(op)]);
    }
  }

  /** One transaction leaves the association rows that the operations one by one would, if no update moves a row while
      a link of it is pending. */
  lemma {:induction false} LinksAreSequential(links: set<Link>, l: Ledger, ops: seq<Op>)
    requires Attached(l) && NoteAll(l, ops).Some? && LeaveAppended(l, ops)
    ensures LinkView(links, NoteAll(l, ops).value) == LinkAll(l.table, LinkView(links, l), ops)
    decreases |ops|
  {
    if ops != [] {
      NoteLinks(links, l, ops[0]);
      NoteKeepsAttached(l, ops[0]);
      LinksAreSequential(links, Note(l, ops[0]).value, ops[1..]);
    }
  }

  lemma {:induction false} KeptKeysLeaveAppended(l: Ledger, ops: seq<Op>)
    requires forall i :: 0 <= i < |ops| ==> KeepsKey(ops[i])
    ensures LeaveAppended(l, ops)
    decreases |ops|
  {
    if ops != [] && Note(l, ops[0]).Some? {
      assert forall i :: 0 <= i < |ops| - 1 ==> ops[1..][i] == ops[i + 1];
      KeptKeysLeaveAppended(Note(l, ops[0]).value, ops[1..]);
    }
  }

  /** One transaction leaves the association rows of the operations one by one, if it moves no row with a pending
      link. */
  lemma LinksAfterAre(t: Table, links: set<Link>, ops: seq<Op>)
    requires NoteAll(Opened(t), ops).Some? && LeaveAppended(Opened(t), ops)
    ensures LinksAfter(t, links, ops) == LinkAll(t, links, ops)
  {
    OpenedView(links, t);
    LinksAreSequential(links, Opened(t), ops);
  }

  /** A row that moves while a link of it is pending takes the link along; one by one, the link stays behind. */
  lemma MovedLinkDiffers(t: Table, k: Key, other: Key, id: string)
    requires WellKeyed(t) && k in t && other in t && id != k.id && Key(k.model, id) !in t && k != other
    requires k.model.unique == {}
    ensures var ops := [Append(k.model, k.id, other), Update(k.model, k.id, Data(Some(id), map[]))];
      LinksAfter(t, {}, ops) == {Link(Key(k.model, id), other)} && LinkAll(t, {}, ops) == {Link(k, other)}
  {
    var link, move := Append(k.model, k.id, other), Update(k.model, k.id, Data(Some(id), map[]));
    var l := Note(Opened(t), link).value;
    assert [link, move][1..] == [move] && [move][1..] == [];
    assert l.appended == {Link(k, other)} && l.table == t;
    var row := Assign(k.model, t[k], move.data);
    var after := (t - {k})[Key(k.model, id) := row];
    assert TableOp(t, move) == Some(after);
    assert Note(l, move) == Some(FlushNoted(l, after, move));
    assert AppendedAt(l, move) == {Link(Key(k.model, id), other)};
    assert NoteAll(l, [move]) == NoteAll(FlushNoted(l, after, move), []);
    assert LinkView({}, FlushNoted(l, after, move)) == {Link(Key(k.model, id), other)};
    assert LinkAll(t, {Link(k, other)}, [move]) == LinkAll(after, {Link(k, other)}, []);
  }

  /** What one transaction of the operations makes of what is committed. */
  function StoreAll(db: Store, ops: seq<Op>): Option<Store> {
    match TableAll(db.rows, ops)
    case None => None
    case Some(after) => Some(Store(after, LinksAfter(db.rows, db.links, ops)))
  }

  /** What the operations make of it one by one. */
  function StoreOneByOne(db: Store, ops: seq<Op>): Option<Store> {
    match TableAll(db.rows, ops)
    case None => None
    case Some(after) => Some(Store(after, LinkAll(db.rows, db.links, ops)))
  }

  lemma OpenedView(links: set<Link>, t: Table)
    ensures LinkView(links, Opened(t)) == links && Attached(Opened(t))
  {
  }
}
