/** The objects behind the staging model: a unit of work over a session, and the service that holds one. */
module UnitOfWork {
  import opened Wrappers
  import opened Collections
  import opened Orm
  import opened Ledgers
  import opened Transactions
  import opened Scopes
  import Captures
  import Preview
  import Staging

  /** What is committed: the rows and the association rows that every session of the program works on. */
  class Database {
    var rows: Table
    var links: set<Link>

    constructor (rows: Table, links: set<Link>)
      ensures this.rows == rows && this.links == links
    {
      this.rows, this.links := rows, links;
    }

    function State(): Store
      reads this
    {
      Store(rows, links)
    }
  }

  ghost predicate InBounds(s: seq<Handle>, n: nat) {
    forall i :: 0 <= i < |s| ==> s[i] < n
  }

  /** Appends the objects of a session set that a pending list does not hold yet, in any order. */
  method Collect(list: seq<Handle>, objects: set<Handle>) returns (r: seq<Handle>)
    requires Distinct(list)
    ensures list <= r && Distinct(r) && Elements(r) == Elements(list) + objects
    ensures forall n: nat :: InBounds(list, n) && (forall h :: h in objects ==> h < n) ==> InBounds(r, n)
  {
    r := list;
    var rest := objects;
    while rest != {}
      invariant rest <= objects && list <= r && Distinct(r)
      invariant Elements(r) == Elements(list) + (objects - rest)
      invariant forall i :: |list| <= i < |r| ==> r[i] in objects
      decreases rest
    {
      ghost var one := Member(rest);
      var h :| h in rest;
      if h !in r {
        assert Elements(r + [h]) == Elements(r) + {h};
        r := r + [h];
      }
      rest := rest - {h};
    }
  }

  /** What a stage shows: the rows of new and modified objects, and id and type of deleted ones. */
  datatype Listing = Listing(created: seq<Row>, modified: seq<Row>, deleted: seq<(string, string)>)

  function RowsOf(objs: seq<Obj>, list: seq<Handle>): (rows: seq<Row>)
    requires InBounds(list, |objs|)
    ensures |rows| == |list| && forall i :: 0 <= i < |list| ==> rows[i] == objs[list[i]].row
  {
    seq(|list|, i requires 0 <= i < |list| && list[i] < |objs| => objs[list[i]].row)
  }

  function NamesOf(objs: seq<Obj>, list: seq<Handle>): (names: seq<(string, string)>)
    requires InBounds(list, |objs|)
    ensures |names| == |list|
    ensures forall i :: 0 <= i < |list| ==> names[i] == (objs[list[i]].row.id, objs[list[i]].model.name)
  {
    seq(|list|, i requires 0 <= i < |list| && list[i] < |objs| => (objs[list[i]].row.id, objs[list[i]].model.name))
  }

  /** What a stage of the operations has to show: the committed row of each key that gets its first row by a create,
      that of each row that was modified, and id and type of each committed row that was deleted; and of each kind
      nothing unless it was asked for. */
  ghost predicate Tells(base: Table, ops: seq<Op>, shown: Listing)
    requires TableAll(base, ops).Some?
  {
    var after := TableAll(base, ops).value;
    && (forall k :: k in after && k !in base && Preview.NeverMovedTo(ops, k) ==> after[k] in shown.created)
    && (forall k :: k in after && Preview.AlwaysHeld(base, ops, k) && IsModified(base, ops, k) ==>
          after[k] in shown.modified)
    && (forall k :: k in base && k !in after && Preview.NeverMoved(ops, k) ==> (k.id, k.model.name) in shown.deleted)
    && Silent(ops, shown)
  }

  ghost predicate IsModified(base: Table, ops: seq<Op>, k: Key) {
    NoteAll(Opened(base), ops).Some? && Preview.Modified(Opened(base), ops, k)
  }

  ghost predicate Silent(ops: seq<Op>, shown: Listing) {
    && ((forall i :: 0 <= i < |ops| ==> !ops[i].Create?) ==> shown.created == [])
    && ((forall i :: 0 <= i < |ops| ==> !ops[i].Update? && !ops[i].Append?) ==> shown.modified == [])
    && ((forall i :: 0 <= i < |ops| ==> !ops[i].Delete?) ==> shown.deleted == [])
  }

  /** The listing of a unit, for pending lists in any order. */
  ghost predicate Lists(u: Unit, news: seq<Handle>, dirties: seq<Handle>, dels: seq<Handle>, shown: Listing) {
    && Elements(news) == u.pendingNew && Elements(dirties) == u.pendingDirty && Elements(dels) == u.pendingDeleted
    && InBounds(news, |u.session.objs|) && InBounds(dirties, |u.session.objs|) && InBounds(dels, |u.session.objs|)
    && shown == Listing(RowsOf(u.session.objs, news), RowsOf(u.session.objs, dirties), NamesOf(u.session.objs, dels))
  }

  lemma RowIsListed(base: Table, ops: seq<Op>, u: Unit, after: Table, list: seq<Handle>, k: Key, h: Handle)
    requires Preview.Stages(base, ops, u, after) && InBounds(list, |u.session.objs|)
    requires h in list && h in u.pendingNew + u.pendingDirty && h !in u.pendingDeleted
    requires KeyOf(u.session.objs[h]) == k
    ensures k in after && after[k] in RowsOf(u.session.objs, list)
  {
    Preview.ShownRowsAreCommitted(base, ops, u, after, h);
    var i :| 0 <= i < |list| && list[i] == h;
    assert RowsOf(u.session.objs, list)[i] == after[k];
  }

  lemma StageTells(base: Table, ops: seq<Op>, u: Unit, news: seq<Handle>, dirties: seq<Handle>, dels: seq<Handle>,
                   shown: Listing)
    requires WellKeyed(base) && StageUnit(base, ops) == Some(u) && Lists(u, news, dirties, dels, shown)
    ensures TableAll(base, ops).Some? && Tells(base, ops, shown)
  {
    StagedIsSequential(base, ops);
    var after := TableAll(base, ops).value;
    forall k | k in after && k !in base && Preview.NeverMovedTo(ops, k) ensures after[k] in shown.created {
      Preview.CreatedIsShownAsNew(base, ops, u, after, k);
      var h :| h in u.pendingNew - u.pendingDeleted && h < |u.session.objs| && KeyOf(u.session.objs[h]) == k;
      RowIsListed(base, ops, u, after, news, k, h);
    }
    forall k | k in after && Preview.AlwaysHeld(base, ops, k) && IsModified(base, ops, k)
      ensures after[k] in shown.modified
    {
      Preview.HeldIsLiveIffModified(base, ops, u, after, k);
      var h :| h in u.pendingDirty - u.pendingDeleted && h < |u.session.objs| && KeyOf(u.session.objs[h]) == k;
      RowIsListed(base, ops, u, after, dirties, k, h);
    }
    forall k | k in base && k !in after && Preview.NeverMoved(ops, k)
      ensures (k.id, k.model.name) in shown.deleted
    {
      GoneIsListed(base, ops, u, after, dels, k);
    }
    Captures.SilentLists(base, ops, u);
    EmptyElements(news);
    EmptyElements(dirties);
    EmptyElements(dels);
  }

  lemma OneElement(s: seq<Handle>, h: Handle)
    requires Distinct(s) && Elements(s) == {h}
    ensures s == [h]
  {
    assert h in s;
    forall j | 0 <= j < |s| ensures s[j] == h {
      assert s[j] in Elements(s);
    }
    assert s[0] == s[|s| - 1];
  }

  /** What is listed when one object was captured. */
  lemma OneIsListed(u: Unit, news: seq<Handle>, dirties: seq<Handle>, dels: seq<Handle>, shown: Listing)
    requires Lists(u, news, dirties, dels, shown) && Distinct(news) && Distinct(dirties) && Distinct(dels)
    requires |u.session.objs| == 1
    ensures var o := u.session.objs[0];
      && (u.pendingNew == {0} ==> shown.created == [o.row])
      && (u.pendingDirty == {0} ==> shown.modified == [o.row])
      && (u.pendingDeleted == {0} ==> shown.deleted == [(o.row.id, o.model.name)])
  {
    if u.pendingNew == {0} {
      OneElement(news, 0);
    }
    if u.pendingDirty == {0} {
      OneElement(dirties, 0);
    }
    if u.pendingDeleted == {0} {
      OneElement(dels, 0);
    }
  }

  lemma EmptyElements(s: seq<Handle>)
    ensures Elements(s) == {} ==> s == []
  {
    if s != [] {
      assert s[0] in Elements(s);
    }
  }

  lemma NameIsListed(objs: seq<Obj>, list: seq<Handle>, h: Handle)
    requires InBounds(list, |objs|) && h in list
    ensures (objs[h].row.id, objs[h].model.name) in NamesOf(objs, list)
  {
    var i :| 0 <= i < |list| && list[i] == h;
    assert NamesOf(objs, list)[i] == (objs[h].row.id, objs[h].model.name);
  }

  lemma GoneIsListed(base: Table, ops: seq<Op>, u: Unit, after: Table, dels: seq<Handle>, k: Key)
    requires Preview.Stages(base, ops, u, after) && k in base && k !in after && Preview.NeverMoved(ops, k)
    requires Elements(dels) == u.pendingDeleted && InBounds(dels, |u.session.objs|)
    ensures (k.id, k.model.name) in NamesOf(u.session.objs, dels)
  {
    Preview.GoneIsDeleted(base, ops, u, after, k);
    var h :| h in u.pendingDeleted && h < |u.session.objs| && KeyOf(u.session.objs[h]) == k;
    NameIsListed(u.session.objs, dels, h);
  }

  /** The listing of one operation alone: what is created is under created, what is updated under modified, and what is
      deleted under deleted, each time with nothing under the other two. */
  lemma OneOperationListing(base: Table, op: Op, u: Unit, news: seq<Handle>, dirties: seq<Handle>, dels: seq<Handle>,
                            shown: Listing)
    requires WellKeyed(base) && StageUnit(base, [op]) == Some(u) && Lists(u, news, dirties, dels, shown)
    requires Distinct(news) && Distinct(dirties) && Distinct(dels)
    ensures op.Create? ==> shown == Listing([Assign(op.model, op.defaults, op.data)], [], [])
    ensures op.Update? && Target(op) in base && op.data.id.Some? ==>
      shown == Listing([], [Assign(op.model, base[Target(op)], op.data)], [])
    ensures op.Delete? && Target(op) in base ==> shown == Listing([], [], [(op.id, op.model.name)])
  {
    OneOperation(base, op, u);
    OthersAreSilent(base, op, u, news, dirties, dels, shown);
    if op.Create? || (op.Update? && Target(op) in base && op.data.id.Some?) || (op.Delete? && Target(op) in base) {
      OneIsListed(u, news, dirties, dels, shown);
    }
  }

  lemma OthersAreSilent(base: Table, op: Op, u: Unit, news: seq<Handle>, dirties: seq<Handle>, dels: seq<Handle>,
                        shown: Listing)
    requires WellKeyed(base) && StageUnit(base, [op]) == Some(u) && Lists(u, news, dirties, dels, shown)
    ensures !op.Create? ==> shown.created == []
    ensures !op.Update? && !op.Append? ==> shown.modified == []
    ensures !op.Delete? ==> shown.deleted == []
  {
    assert [op][0] == op;
    Captures.SilentLists(base, [op], u);
    EmptyElements(news);
    EmptyElements(dirties);
    EmptyElements(dels);
  }

  lemma OneOperation(base: Table, op: Op, u: Unit)
    requires WellKeyed(base) && StageUnit(base, [op]) == Some(u)
    ensures op.Create? ==> u.pendingNew == {0} && Holds(u, op.model, Assign(op.model, op.defaults, op.data))
    ensures op.Update? && Target(op) in base && op.data.id.Some? ==>
      u.pendingDirty == {0} && Holds(u, op.model, Assign(op.model, base[Target(op)], op.data))
    ensures op.Delete? && Target(op) in base ==> u.pendingDeleted == {0} && Holds(u, op.model, base[Target(op)])
  {
    Captures.NewUnitTracks(base);
    OneStep(base, NEW_UNIT, op);
    FlushHolds(base, Perform(base, NEW_UNIT, op).value, u);
    OneCaptured(base, op, Perform(base, NEW_UNIT, op).value, u);
  }

  lemma OneCaptured(base: Table, op: Op, first: Unit, u: Unit)
    requires Coherent(base, NEW_UNIT.session) && Perform(base, NEW_UNIT, op) == Some(first)
    requires |first.session.objs| == 1 ==> Holds(u, first.session.objs[0].model, first.session.objs[0].row)
    requires u.pendingNew == first.pendingNew + first.session.added
    requires u.pendingDirty == first.pendingDirty + (first.session.dirty - first.session.doomed)
    requires u.pendingDeleted == first.pendingDeleted + first.session.doomed
    ensures op.Create? ==> u.pendingNew == {0} && Holds(u, op.model, Assign(op.model, op.defaults, op.data))
    ensures op.Update? && Target(op) in base && op.data.id.Some? ==>
      u.pendingDirty == {0} && Holds(u, op.model, Assign(op.model, base[Target(op)], op.data))
    ensures op.Delete? && Target(op) in base ==> u.pendingDeleted == {0} && Holds(u, op.model, base[Target(op)])
  {
    if op.Create? {
      CreateAlone(base, op, first);
    } else if op.Update? && Target(op) in base && op.data.id.Some? {
      UpdateAlone(base, op, first);
    } else if op.Delete? && Target(op) in base {
      DeleteAlone(base, op, first);
    }
  }

  lemma OneStep(base: Table, u: Unit, op: Op)
    requires WellKeyed(base) && Coherent(base, u.session)
    ensures PerformAll(base, u, [op]) == Perform(base, u, op)
  {
    var next := Perform(base, u, op);
    assert [op][1..] == [];
    if next.Some? {
      PerformKeepsCoherent(base, u, op);
      assert PerformAll(base, next.value, []) == next;
    }
  }

  /** The session has one object, and this is it. */
  predicate Holds(u: Unit, model: Model, row: Row) {
    |u.session.objs| == 1 && u.session.objs[0].model == model && u.session.objs[0].row == row
  }

  lemma FlushHolds(base: Table, u: Unit, v: Unit)
    requires FlushUnit(base, u) == Some(v)
    ensures |u.session.objs| == 1 ==> Holds(v, u.session.objs[0].model, u.session.objs[0].row)
    ensures v.pendingNew == u.pendingNew + u.session.added && v.pendingDeleted == u.pendingDeleted + u.session.doomed
    ensures v.pendingDirty == u.pendingDirty + (u.session.dirty - u.session.doomed)
    ensures v.session.added == v.session.dirty == v.session.doomed == {}
  {
  }

  lemma CreateAlone(base: Table, op: Op, u: Unit)
    requires Coherent(base, NEW_UNIT.session) && op.Create? && Perform(base, NEW_UNIT, op) == Some(u)
    ensures u.pendingNew == {0} && Holds(u, op.model, Assign(op.model, op.defaults, op.data)) && u.session.added == {}
  {
    FlushHolds(base, NEW_UNIT.(session := Add(NEW_SESSION, op.model, Assign(op.model, op.defaults, op.data))), u);
  }

  lemma FirstLoad(base: Table, k: Key)
    requires k in base
    ensures var s := Fetch(base, NEW_SESSION, k);
      && s.objs == [Obj(k.model, base[k], Some(k))] && s.identity == map[k := 0]
      && s.added == s.dirty == s.doomed == {}
  {
  }

  lemma UpdateAlone(base: Table, op: Op, u: Unit)
    requires Coherent(base, NEW_UNIT.session) && op.Update? && Target(op) in base && op.data.id.Some?
    requires Perform(base, NEW_UNIT, op) == Some(u)
    ensures u.pendingDirty == {0} && Holds(u, op.model, Assign(op.model, base[Target(op)], op.data))
    ensures u.session.dirty == {}
  {
    FirstLoad(base, Target(op));
    var loaded := Fetch(base, NEW_SESSION, Target(op));
    FlushHolds(base, NEW_UNIT.(session := SetAttributes(loaded, 0, op.data)), u);
  }

  lemma DeleteAlone(base: Table, op: Op, u: Unit)
    requires Coherent(base, NEW_UNIT.session) && op.Delete? && Target(op) in base
    requires Perform(base, NEW_UNIT, op) == Some(u)
    ensures u.pendingDeleted == {} && u.session.doomed == {0} && Holds(u, op.model, base[Target(op)])
  {
    FirstLoad(base, Target(op));
  }

  class UnitOfWork {
    const db: Database
    var session: Session
    var pendingNew: seq<Handle>
    var pendingDirty: seq<Handle>
    var pendingDeleted: seq<Handle>
    var committed: bool
    var closes: nat

    ghost function View(): Unit
      reads this
    {
      Unit(session, Elements(pendingNew), Elements(pendingDirty), Elements(pendingDeleted))
    }

    ghost predicate Valid()
      reads this, db
    {
      WellKeyed(db.rows) && Coherent(db.rows, session) && Listed()
    }

    ghost predicate Listed()
      reads this
    {
      && Distinct(pendingNew) && Distinct(pendingDirty) && Distinct(pendingDeleted)
      && InBounds(pendingNew, |session.objs|) && InBounds(pendingDirty, |session.objs|)
      && InBounds(pendingDeleted, |session.objs|)
    }

    constructor (db: Database)
      requires WellKeyed(db.rows)
      ensures this.db == db && Valid() && View() == NEW_UNIT && !committed && closes == 0
    {
      this.db, session := db, NEW_SESSION;
      pendingNew, pendingDirty, pendingDeleted := [], [], [];
      committed, closes := false, 0;
    }

    /** The listener that runs before every flush. */
    method Capture()
      requires Valid()
      modifies this
      ensures Valid() && View() == Captured(old(View())) && session == old(session)
      ensures committed == old(committed) && closes == old(closes)
    {
      pendingNew := Collect(pendingNew, session.added);
      pendingDirty := Collect(pendingDirty, session.dirty - session.doomed);
      pendingDeleted := Collect(pendingDeleted, session.doomed);
    }

    /** Captures, then writes; not ok is the exception of a violated key. */
    method Flush() returns (ok: bool)
      requires Valid()
      modifies this
      ensures Valid() && closes == old(closes) && committed == old(committed)
      ensures ok <==> FlushUnit(db.rows, old(View())).Some?
      ensures ok ==> View() == FlushUnit(db.rows, old(View())).value
    {
      Capture();
      ok := Flushable(db.rows, session);
      if ok {
        FlushKeepsCoherent(db.rows, session);
        session := Flushed(db.rows, session);
      }
    }

    /** One repository operation on a session bound to this unit. */
    method Perform(op: Op) returns (ok: bool)
      requires Valid()
      modifies this
      ensures Valid() && closes == old(closes)
      ensures ok <==> Orm.Perform(db.rows, old(View()), op).Some?
      ensures ok ==> View() == Orm.Perform(db.rows, old(View()), op).value
    {
      if op.Create? {
        var row := Assign(op.model, op.defaults, op.data);
        AddKeepsCoherent(db.rows, session, op.model, row);
        session := Add(session, op.model, row);
        ok := Flush();
      } else if op.Flush? {
        ok := Flush();
      } else if op.Append? {
        Append(Key(op.model, op.id), op);
        ok := true;
      } else {
        ok := PerformOn(Key(op.model, op.id), op);
      }
    }

    /** Loads both objects and appends the second to the relationship of the first, if both are there. */
    method Append(k: Key, op: Op)
      requires Valid() && op.Append? && k == Key(op.model, op.id)
      modifies this
      ensures Valid() && closes == old(closes)
      ensures Some(View()) == Orm.Perform(db.rows, old(View()), op)
    {
      AppendKeepsCoherent(db.rows, session, k, op.other);
      FetchKeepsCoherent(db.rows, session, k);
      FetchLoads(db.rows, session, k);
      FetchLoads(db.rows, Fetch(db.rows, session, k), op.other);
      session := Fetch(db.rows, Fetch(db.rows, session, k), op.other);
      if k in session.identity && op.other in session.identity {
        session := Attach(session, session.identity[k], session.identity[op.other]);
      }
    }

    method PerformOn(k: Key, op: Op) returns (ok: bool)
      requires Valid() && !op.Create? && !op.Flush? && !op.Append? && k == Key(op.model, op.id)
      modifies this
      ensures Valid() && closes == old(closes)
      ensures ok <==> Orm.Perform(db.rows, old(View()), op).Some?
      ensures ok ==> View() == Orm.Perform(db.rows, old(View()), op).value
    {
      FetchKeepsCoherent(db.rows, session, k);
      session := Fetch(db.rows, session, k);
      if k !in session.identity {
        return true;
      }
      var h := session.identity[k];
      match op {
        case Update(_, _, data) =>
          SetKeepsCoherent(db.rows, session, k, data);
          session := SetAttributes(session, h, data);
          ok := Flush();
        case Delete(_, _) =>
          DoomKeepsCoherent(db.rows, session, k);
          session := session.(doomed := session.doomed + {h});
          ok := true;
        case Get(_, _) =>
          ok := true;
      }
    }

    /** Flushes and returns the preview. */
    method Stage() returns (shown: Option<Listing>)
      requires Valid()
      modifies this
      ensures Valid() && closes == old(closes)
      ensures shown.Some? <==> FlushUnit(db.rows, old(View())).Some?
      ensures shown.Some? ==> View() == FlushUnit(db.rows, old(View())).value
      ensures shown.Some? ==>
        shown.value == Listing(RowsOf(session.objs, pendingNew), RowsOf(session.objs, pendingDirty),
                               NamesOf(session.objs, pendingDeleted))
    {
      var ok := Flush();
      if !ok { return None; }
      return Some(Listing(RowsOf(session.objs, pendingNew), RowsOf(session.objs, pendingDirty),
                          NamesOf(session.objs, pendingDeleted)));
    }

    /** Flushes and commits; not ok is any exception on the way, and then nothing reaches the table. */
    method Commit(commitOk: bool) returns (ok: bool)
      requires Valid()
      modifies this, db
      ensures ok <==> commitOk && Committed(old(db.State()), old(View())).Some?
      ensures db.State() == if ok then Committed(old(db.State()), old(View())).value else old(db.State())
      ensures committed == (ok || old(committed)) && closes == old(closes)
    {
      ok := Flush();
      ok := ok && commitOk;
      if ok {
        db.rows, db.links := Patched(db.rows, session.overlay), Relinked(db.links, session.relinking);
        committed := true;
      }
    }

    /** Drops everything the transaction did; not ok is an exception, and then nothing changes. */
    method Rollback(rollbackOk: bool)
      modifies this
      ensures closes == old(closes) && committed == old(committed)
      ensures pendingNew == old(pendingNew) && pendingDirty == old(pendingDirty)
      ensures pendingDeleted == old(pendingDeleted)
      ensures session == if rollbackOk then NEW_SESSION else old(session)
    {
      if rollbackOk {
        session := NEW_SESSION;
      }
    }

    /** Lets go of the session's objects without committing. */
    method Close()
      modifies this
      ensures closes == old(closes) + 1 && committed == old(committed) && session == NEW_SESSION
      ensures pendingNew == old(pendingNew) && pendingDirty == old(pendingDirty)
      ensures pendingDeleted == old(pendingDeleted)
    {
      session, closes := NEW_SESSION, closes + 1;
    }
  }

  /** The session a repository of the unit gets: it passes on what concerns rows, and does nothing at a commit, a
      rollback or a close. */
  class SessionProxy {
    const unit: UnitOfWork

    constructor (unit: UnitOfWork)
      ensures this.unit == unit
    {
      this.unit := unit;
    }

    method Send(c: Command) returns (ok: bool)
      requires unit.Valid()
      modifies unit
      ensures unit.Valid() && unit.closes == old(unit.closes)
      ensures var o := Proxied(Work(unit.db.State(), old(unit.View())), c);
        ok == o.ok && (ok ==> o.work == Work(unit.db.State(), unit.View()))
    {
      ok := true;
      if c.Run? {
        ok := unit.Perform(c.op);
      }
    }
  }

  /** A service with a preview before the commit. Its stage implementation is anything repositories may ask
      of their sessions. */
  class StagingService {
    const db: Database
    var pending: UnitOfWork?
    /** The table when the service was made, and the state of the model it follows. */
    ghost const initial: Store
    ghost var model: Staging.Service

    ghost predicate Valid()
      reads this, db, pending
    {
      && WellKeyed(initial.rows) && Staging.Reachable(initial, model) && Staging.Sound(model)
      && model.db == db.State() && Holds(model.pending)
    }

    /** What the service holds, if anything, is this unit, open and on its database. */
    ghost predicate Holds(unit: Option<Unit>)
      reads this, pending
    {
      && (pending == null <==> unit.None?)
      && (pending != null ==> pending.db == db && pending.Listed() && pending.closes == 0
                              && unit == Some(pending.View()))
    }

    constructor (db: Database)
      requires WellKeyed(db.rows)
      ensures Valid() && this.db == db && model == Staging.Start(db.State()) && pending == null
    {
      this.db, pending := db, null;
      initial, model := db.State(), Staging.Start(db.State());
      new;
      Staging.StartIsReachable(db.State());
    }

    /** Runs the stage implementation on a proxied session; not ok is an exception it raises or lets through. */
    method RunImpl(unit: UnitOfWork, body: seq<Command>, implOk: bool) returns (ok: bool)
      requires unit.Valid()
      modifies unit
      ensures unit.Valid() && unit.closes == old(unit.closes)
      ensures var o := ProxiedAll(Work(unit.db.State(), old(unit.View())), body);
        ok == (implOk && o.ok) && (ok ==> o.work == Work(unit.db.State(), unit.View()))
    {
      var proxy := new SessionProxy(unit);
      ghost var whole := ProxiedAll(Work(unit.db.State(), unit.View()), body);
      for i := 0 to |body|
        invariant unit.Valid() && unit.closes == old(unit.closes)
        invariant ProxiedAll(Work(unit.db.State(), unit.View()), body[i..]) == whole
      {
        assert body[i..][1..] == body[i + 1..];
        ok := proxy.Send(body[i]);
        if !ok { return; }
      }
      return implOk;
    }

    /** Rolls back and closes what is pending; not ok is a rollback that raised, and nothing has changed. */
    method Discard(rollbackOk: bool) returns (ok: bool)
      requires pending != null
      modifies this`pending, pending
      ensures ok == rollbackOk
      ensures ok ==> pending == null && old(pending).closes == old(pending.closes) + 1
      ensures !ok ==> pending == old(pending) && pending.closes == old(pending.closes)
      ensures !ok ==> pending.View() == old(pending.View()) && (old(pending.Listed()) ==> pending.Listed())
    {
      pending.Rollback(rollbackOk);
      if !rollbackOk { return false; }
      pending.Close();
      pending := null;
      return true;
    }

    /** A new unit with its operations done and flushed, or null after an exception; its session stays open then. */
    method OpenUnit(body: seq<Command>, implOk: bool) returns (unit: UnitOfWork?, shown: Option<Listing>)
      requires WellKeyed(db.rows)
      ensures (unit != null <==> shown.Some?) && (shown.Some? <==> implOk && StageUnit(db.rows, OpsOf(body)).Some?)
      ensures unit != null ==> fresh(unit) && unit.db == db && unit.Valid() && unit.closes == 0
                               && unit.View() == StageUnit(db.rows, OpsOf(body)).value
      ensures unit != null ==>
        shown.value == Listing(RowsOf(unit.session.objs, unit.pendingNew), RowsOf(unit.session.objs, unit.pendingDirty),
                               NamesOf(unit.session.objs, unit.pendingDeleted))
      ensures shown.Some? ==> TableAll(db.rows, OpsOf(body)).Some? && Tells(db.rows, OpsOf(body), shown.value)
    {
      var u := new UnitOfWork(db);
      ProxyPerformsAll(Work(db.State(), NEW_UNIT), body);
      var done := RunImpl(u, body, implOk);
      if !done { return null, None; }
      shown := u.Stage();
      unit := if shown.Some? then u else null;
      if shown.Some? {
        StageTells(db.rows, OpsOf(body), u.View(), u.pendingNew, u.pendingDirty, u.pendingDeleted, shown.value);
      }
    }

    /** Puts a new stage in the place of what is pending, unless its rollback raises. */
    method Replace(body: seq<Command>, implOk: bool, rollbackOk: bool, ghost before: Option<Unit>)
      returns (shown: Option<Listing>)
      requires WellKeyed(db.rows) && Holds(before)
      modifies this`pending, pending
      ensures Holds(if before.Some? && !rollbackOk then before
                    else if implOk then StageUnit(db.rows, OpsOf(body)) else None)
      ensures shown.Some? ==> pending != null
      ensures shown.Some? ==> TableAll(db.rows, OpsOf(body)).Some? && Tells(db.rows, OpsOf(body), shown.value)
      ensures shown.None? && pending != null ==> !rollbackOk && pending == old(pending)
      ensures old(pending) != null && rollbackOk ==> old(pending).closes == 1
      ensures shown.Some? ==>
        shown.value == Listing(RowsOf(pending.session.objs, pending.pendingNew),
                               RowsOf(pending.session.objs, pending.pendingDirty),
                               NamesOf(pending.session.objs, pending.pendingDeleted))
    {
      if pending != null {
        var ok := Discard(rollbackOk);
        if !ok { return None; }
      }
      pending, shown := OpenUnit(body, implOk);
    }

    method Stage(body: seq<Command>, implOk: bool, rollbackOk: bool) returns (shown: Option<Listing>)
      requires Valid()
      modifies this, pending
      ensures Valid() && model == Staging.Handle(old(model), Staging.Request.Stage(body, implOk, rollbackOk))
      ensures db.State() == old(db.State())
      ensures shown.Some? ==> pending != null
      ensures shown.Some? ==>
        shown.value == Listing(RowsOf(pending.session.objs, pending.pendingNew),
                               RowsOf(pending.session.objs, pending.pendingDirty),
                               NamesOf(pending.session.objs, pending.pendingDeleted))
      ensures shown.Some? ==> TableAll(db.rows, OpsOf(body)).Some? && Tells(db.rows, OpsOf(body), shown.value)
      ensures shown.None? && pending != null ==> !rollbackOk && pending == old(pending)
      ensures old(pending) != null && rollbackOk ==> old(pending).closes == 1
    {
      ghost var request := Staging.Request.Stage(body, implOk, rollbackOk);
      Staging.HandleReaches(initial, model, request);
      Staging.StageHandled(model, body, implOk, rollbackOk);
      shown := Replace(body, implOk, rollbackOk, model.pending);
      model := Staging.Handle(model, request);
    }

    /** Commits what is pending, if anything is, and closes it in any case; not ok is an exception on the way. */
    method Settle(commitOk: bool) returns (ok: bool)
      requires pending != null ==> pending.db == db && pending.Valid()
      modifies this`pending, db, pending
      ensures pending == null
      ensures old(pending) != null ==> old(pending).closes == old(pending.closes) + 1
      ensures ok <==> old(pending) != null && commitOk && Committed(old(db.State()), old(pending.View())).Some?
      ensures db.State() == if ok then Committed(old(db.State()), old(pending.View())).value else old(db.State())
    {
      ok := false;
      if pending != null {
        ok := pending.Commit(commitOk);
        if !ok {
          pending.Rollback(true);
        }
        pending.Close();
        pending := null;
      }
    }

    /** Not confirmed is an exception, also when nothing is pending. */
    method Confirm(commitOk: bool) returns (confirmed: bool)
      requires Valid()
      modifies this, db, pending
      ensures Valid() && model == Staging.Handle(old(model), Staging.Request.Confirm(commitOk)) && pending == null
      ensures confirmed <==> old(pending) != null && commitOk
      ensures old(pending) != null ==> old(pending).closes == 1
    {
      ghost var request := Staging.Request.Confirm(commitOk);
      Staging.HandleReaches(initial, model, request);
      Staging.ConfirmHandled(model, commitOk);
      Staging.PendingCommits(initial, model);
      model := Staging.Handle(model, request);
      confirmed := Settle(commitOk);
    }

    /** Gives up what is pending, if anything is. */
    method Drop(rollbackOk: bool, ghost before: Option<Unit>) returns (ok: bool)
      requires Holds(before)
      modifies this`pending, pending
      ensures Holds(if rollbackOk then None else before)
      ensures ok <==> old(pending) == null || rollbackOk
      ensures old(pending) != null && rollbackOk ==> pending == null && old(pending).closes == 1
    {
      ok := true;
      if pending != null {
        ok := Discard(rollbackOk);
      }
    }

    method Cancel(rollbackOk: bool) returns (cancelled: bool)
      requires Valid()
      modifies this, pending
      ensures Valid() && model == Staging.Handle(old(model), Staging.Request.Cancel(rollbackOk))
      ensures db.State() == old(db.State())
      ensures cancelled <==> old(pending) == null || rollbackOk
      ensures old(pending) != null && rollbackOk ==> pending == null && old(pending).closes == 1
    {
      ghost var request := Staging.Request.Cancel(rollbackOk);
      Staging.HandleReaches(initial, model, request);
      Staging.CancelHandled(model, rollbackOk);
      cancelled := Drop(rollbackOk, model.pending);
      model := Staging.Handle(model, request);
    }
  }
}
