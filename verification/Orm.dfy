/** The session a unit of work runs in: an identity map over a committed table, with new, dirty and deleted objects,
    flushed writes that nobody else sees, and the capture of what each flush is about to write. */
module Orm {
  import opened Wrappers

  /** A mapped class: its table, the columns it knows, the primary key apart, and which of them are unique. */
  datatype Model = Model(name: string, columns: set<string>, unique: set<string>)

  datatype Key = Key(model: Model, id: string)

  datatype Row = Row(id: string, cols: map<string, string>)

  type Table = map<Key, Row>

  /** What a caller passes to create and update. */
  datatype Data = Data(id: Option<string>, cols: map<string, string>)

  /** A row of an association table: it links a row to another one. */
  datatype Link = Link(owner: Key, target: Key)

  /** What a transaction has done to the association rows: those of some keys are gone, and then some were inserted. */
  datatype Relinking = Relinking(purged: set<Key>, inserted: set<Link>)

  const NO_RELINKING := Relinking({}, {})

  /** The links that do not involve the keys. */
  function Apart(links: set<Link>, keys: set<Key>): set<Link> {
    set x | x in links && x.owner !in keys && x.target !in keys
  }

  function Relinked(links: set<Link>, d: Relinking): set<Link> { Apart(links, d.purged) + d.inserted }

  ghost predicate WellKeyed(t: Table) {
    forall k :: k in t ==> t[k].id == k.id
  }

  /** Unknown columns are dropped. */
  function Deserialize(model: Model, cols: map<string, string>): map<string, string> {
    map c | c in cols && c in model.columns :: cols[c]
  }

  /** A row with the given attributes set. */
  function Assign(model: Model, row: Row, data: Data): Row {
    Row(if data.id.Some? then data.id.value else row.id, row.cols + Deserialize(model, data.cols))
  }

  // ---------- The session ----------

  type Handle = nat

  /** A mapped object: its attributes, and the key under which it is persistent, if it is. */
  datatype Obj = Obj(model: Model, row: Row, ident: Option<Key>)

  /** Appends are pairs of objects whose link the next flush inserts; overlay and relinking are what was flushed. */
  datatype Session = Session(objs: seq<Obj>, identity: map<Key, Handle>,
                             added: set<Handle>, dirty: set<Handle>, doomed: set<Handle>,
                             appends: set<(Handle, Handle)>,
                             overlay: map<Key, Option<Row>>, relinking: Relinking)

  const NEW_SESSION := Session([], map[], {}, {}, {}, {}, map[], NO_RELINKING)

  function KeyOf(o: Obj): Key { Key(o.model, o.row.id) }

  /** What a query inside the transaction finds: the flushed writes over the committed rows. */
  function Look(base: Table, s: Session, k: Key): Option<Row> {
    if k in s.overlay then s.overlay[k] else if k in base then Some(base[k]) else None
  }

  /** The committed table once the flushed writes are committed. */
  function Patched(base: Table, overlay: map<Key, Option<Row>>): Table {
    map k | k in base.Keys + overlay.Keys && (k in overlay ==> overlay[k].Some?)
      :: if k in overlay then overlay[k].value else base[k]
  }

  /** The objects that are persistent after the next flush. */
  function Survivors(s: Session): set<Handle> {
    set h | 0 <= h < |s.objs| && (h in s.added || (s.objs[h].ident.Some? && h !in s.doomed))
  }

  /** The objects whose rows the next flush inserts or updates. */
  function Writes(s: Session): set<Handle> { s.added + (s.dirty - s.doomed) }

  predicate InRange(s: Session) {
    && (forall h :: h in s.added ==> h < |s.objs|)
    && (forall h :: h in s.dirty ==> h < |s.objs|)
    && (forall h :: h in s.doomed ==> h < |s.objs|)
  }

  /** No two objects end on one key, and none on the key of a row this session has not loaded. */
  predicate FlushOk(base: Table, s: Session) {
    && InRange(s)
    && (forall g, h :: g in Survivors(s) && h in Survivors(s) && KeyOf(s.objs[g]) == KeyOf(s.objs[h]) ==> g == h)
    && (forall h :: h in Writes(s) && KeyOf(s.objs[h]) !in s.identity ==> Look(base, s, KeyOf(s.objs[h])) == None)
  }

  /** Both rows have the same value in a unique column; a missing value is like no other. */
  predicate Clash(m: Model, a: Row, b: Row) {
    exists c :: c in m.unique && c in a.cols && c in b.cols && a.cols[c] == b.cols[c]
  }

  /** A row elsewhere in the table has a unique value of this row. */
  predicate Taken(t: Table, k: Key, row: Row) {
    exists j :: j in t && j != k && j.model == k.model && Clash(k.model, t[j], row)
  }

  /** Whether the database takes the insert or update of an object. Deletions come last in a flush, so that the rows
      to be deleted are still there; an insert onto such a row's key becomes an update, and an object that shows its
      row needs no statement. */
  predicate StatementPasses(base: Table, s: Session, o: Obj) {
    var seen := Patched(base, s.overlay);
    var own := if o.ident.Some? then o.ident.value else KeyOf(o);
    || (o.ident.Some? && Look(base, s, own) == Some(o.row))
    || ((KeyOf(o) == own || KeyOf(o) !in seen) && !Taken(seen, own, o.row))
  }

  predicate StatementsPass(base: Table, s: Session)
    requires InRange(s)
  {
    forall h :: h in Writes(s) ==> StatementPasses(base, s, s.objs[h])
  }

  /** The keys whose rows the next flush writes or deletes. */
  function Touched(s: Session): set<Key>
    requires InRange(s)
  {
    (set h | h in s.dirty + s.doomed && s.objs[h].ident.Some? :: s.objs[h].ident.value)
    + (set h | h in Writes(s) :: KeyOf(s.objs[h]))
  }

  function Remapped(base: Table, s: Session): map<Key, Handle>
    requires FlushOk(base, s)
  {
    map h | h in Survivors(s) :: KeyOf(s.objs[h]) := h
  }

  /** The links that the next flush inserts: those between objects that survive it, under their keys at that time. */
  function NewLinks(s: Session): set<Link> {
    set p | p in s.appends && p.0 in Survivors(s) && p.1 in Survivors(s)
      :: Link(KeyOf(s.objs[p.0]), KeyOf(s.objs[p.1]))
  }

  /** The keys whose association rows the next flush deletes. */
  function Purges(s: Session): set<Key> {
    set h | h in s.doomed && h < |s.objs| && s.objs[h].ident.Some? :: s.objs[h].ident.value
  }

  /** A flush on top of earlier ones. */
  function Relink(d: Relinking, purged: set<Key>, inserted: set<Link>): Relinking {
    Relinking(d.purged + purged, Apart(d.inserted, purged) + inserted)
  }

  function Settled(o: Obj, survives: bool): Obj {
    o.(ident := if survives then Some(KeyOf(o)) else None)
  }

  function Flushed(base: Table, s: Session): Session
    requires FlushOk(base, s)
  {
    var identity := Remapped(base, s);
    Session(seq(|s.objs|, h requires 0 <= h < |s.objs| => Settled(s.objs[h], h in Survivors(s))),
            identity, {}, {}, {}, {},
            s.overlay + map k | k in Touched(s) :: if k in identity then Some(s.objs[identity[k]].row) else None,
            Relink(s.relinking, Purges(s), NewLinks(s)))
  }

  /** The identity map and the persistent objects belong together, and the sets hold objects of the right kind. */
  ghost predicate Mapped(s: Session) {
    && InRange(s)
    && (forall k :: k in s.identity ==> s.identity[k] < |s.objs| && s.objs[s.identity[k]].ident == Some(k))
    && (forall h :: 0 <= h < |s.objs| && s.objs[h].ident.Some? ==>
          var k := s.objs[h].ident.value; k in s.identity && s.identity[k] == h && s.objs[h].model == k.model)
    && (forall h :: h in s.added ==> s.objs[h].ident.None?)
    && (forall h :: h in s.dirty ==> s.objs[h].ident.Some?)
    && (forall h :: h in s.doomed ==> s.objs[h].ident.Some?)
    && (forall p :: p in s.appends ==> p.0 < |s.objs| && p.1 < |s.objs|)
  }

  /** Persistent objects have rows, and one without changes shows its row. A row this session wrote belongs to one
      of its objects. */
  ghost predicate Backed(base: Table, s: Session)
    requires Mapped(s)
  {
    && (forall k :: k in s.identity ==> Look(base, s, k).Some?)
    && (forall k :: k in s.identity && s.identity[k] !in s.dirty ==>
          KeyOf(s.objs[s.identity[k]]) == k && Look(base, s, k) == Some(s.objs[s.identity[k]].row))
    && (forall k :: k in s.overlay && s.overlay[k].Some? ==> k in s.identity && s.overlay[k].value.id == k.id)
  }

  /** What holds of a session at all times. */
  ghost predicate Coherent(base: Table, s: Session) {
    Mapped(s) && Backed(base, s)
  }

  lemma FlushIdentity(base: Table, s: Session)
    requires Coherent(base, s) && FlushOk(base, s)
    ensures var t := Flushed(base, s);
      && (forall k :: k in t.identity ==> t.identity[k] in Survivors(s) && t.objs[t.identity[k]].ident == Some(k)
                                          && KeyOf(s.objs[t.identity[k]]) == k)
      && (forall h :: h in Survivors(s) ==> KeyOf(s.objs[h]) in t.identity && t.identity[KeyOf(s.objs[h])] == h)
      && (forall h :: 0 <= h < |t.objs| && t.objs[h].ident.Some? ==> h in Survivors(s))
  {
  }

  /** A key that the flush does not touch keeps its object, and so its row. */
  lemma UntouchedKey(base: Table, s: Session, k: Key)
    requires Coherent(base, s) && FlushOk(base, s) && k !in Touched(s)
    ensures k in s.identity <==> k in Flushed(base, s).identity
    ensures k in s.identity ==> Flushed(base, s).identity[k] == s.identity[k]
                                && Look(base, s, k) == Some(s.objs[s.identity[k]].row)
  {
    var t := Flushed(base, s);
    FlushIdentity(base, s);
    if k in s.identity {
      assert s.identity[k] in Survivors(s);
    }
    if k in t.identity {
      var h := t.identity[k];
      assert h !in Writes(s);
    }
  }

  /** What the transaction sees of a key after a flush: its object's row, or what was seen before. */
  lemma FlushedKey(base: Table, s: Session, k: Key)
    requires Coherent(base, s) && FlushOk(base, s)
    ensures var t := Flushed(base, s);
      Look(base, t, k) == if k in t.identity then Some(s.objs[t.identity[k]].row)
                          else if k in Touched(s) then None
                          else Look(base, s, k)
    ensures var t := Flushed(base, s); k in t.overlay && t.overlay[k].Some? ==>
      k in t.identity && t.overlay[k].value.id == k.id
  {
    FlushIdentity(base, s);
    if k !in Touched(s) {
      UntouchedKey(base, s, k);
    }
  }

  lemma FlushKeepsCoherent(base: Table, s: Session)
    requires Coherent(base, s) && FlushOk(base, s)
    ensures Coherent(base, Flushed(base, s))
  {
    var t := Flushed(base, s);
    FlushIdentity(base, s);
    forall k ensures k in t.overlay && t.overlay[k].Some? ==> k in t.identity && t.overlay[k].value.id == k.id
             ensures k in t.identity ==> Look(base, t, k) == Some(s.objs[t.identity[k]].row)
    {
      FlushedKey(base, s, k);
    }
    FreshlyMapped(base, s, t);
  }

  lemma FreshlyMapped(base: Table, s: Session, t: Session)
    requires FlushOk(base, s) && t == Flushed(base, s)
    requires forall k :: k in t.identity ==> t.identity[k] in Survivors(s) && KeyOf(s.objs[t.identity[k]]) == k
    requires forall h :: h in Survivors(s) ==> KeyOf(s.objs[h]) in t.identity && t.identity[KeyOf(s.objs[h])] == h
    ensures forall k :: k in t.identity ==> t.identity[k] < |t.objs| && t.objs[t.identity[k]].ident == Some(k)
                                            && KeyOf(t.objs[t.identity[k]]) == k
                                            && t.objs[t.identity[k]].row == s.objs[t.identity[k]].row
    ensures forall h :: 0 <= h < |t.objs| && t.objs[h].ident.Some? ==>
      var k := t.objs[h].ident.value; k in t.identity && t.identity[k] == h && t.objs[h].model == k.model
  {
  }

  // ---------- The unit of work and the repository operations ----------

  /** A session together with the objects captured before its flushes. */
  datatype Unit = Unit(session: Session,
                       pendingNew: set<Handle>, pendingDirty: set<Handle>, pendingDeleted: set<Handle>)

  const NEW_UNIT := Unit(NEW_SESSION, {}, {}, {})

  function Captured(u: Unit): Unit {
    u.(pendingNew := u.pendingNew + u.session.added,
       pendingDirty := u.pendingDirty + (u.session.dirty - u.session.doomed),
       pendingDeleted := u.pendingDeleted + u.session.doomed)
  }

  /** Whether a flush succeeds. */
  predicate Flushable(base: Table, s: Session) {
    FlushOk(base, s) && StatementsPass(base, s)
  }

  /** A flush captures first; None is the exception of a violated primary key or unique column. */
  function FlushUnit(base: Table, u: Unit): Option<Unit> {
    if Flushable(base, u.session) then Some(Captured(u).(session := Flushed(base, u.session))) else None
  }

  /** What a repository or a view of the service asks of the session. Append adds a row to a relationship of another,
      if both are there, which marks both objects as modified without changing a column. */
  datatype Op =
    | Create(model: Model, data: Data, defaults: Row)
    | Update(model: Model, id: string, data: Data)
    | Delete(model: Model, id: string)
    | Get(model: Model, id: string)
    | Append(model: Model, id: string, other: Key)
    | Flush

  /** session.get: the object in the identity map, or a newly loaded one; the key stays unmapped if there is no row. */
  function Fetch(base: Table, s: Session, k: Key): Session {
    if k in s.identity || Look(base, s, k).None? then s
    else s.(objs := s.objs + [Obj(k.model, Look(base, s, k).value, Some(k))], identity := s.identity[k := |s.objs|])
  }

  function Add(s: Session, model: Model, row: Row): Session {
    s.(objs := s.objs + [Obj(model, row, None)], added := s.added + {|s.objs|})
  }

  function Rewrite(s: Session, h: Handle, row: Row): Session
    requires h < |s.objs|
  {
    s.(objs := s.objs[h := s.objs[h].(row := row)], dirty := s.dirty + {h})
  }

  /** The session once the given columns of an object have been set; setting none does not mark it as modified. */
  function SetAttributes(s: Session, h: Handle, data: Data): Session
    requires h < |s.objs|
  {
    var o := s.objs[h];
    if data.id.None? && Deserialize(o.model, data.cols) == map[] then s
    else Rewrite(s, h, Assign(o.model, o.row, data))
  }

  /** The session once an object has been appended to a relationship of another. */
  function Attach(s: Session, h: Handle, g: Handle): Session {
    s.(dirty := s.dirty + {h, g}, appends := s.appends + {(h, g)})
  }

  /** One repository operation on the session; None is an exception. */
  function Perform(base: Table, u: Unit, op: Op): Option<Unit>
    requires Coherent(base, u.session)
  {
    var s := u.session;
    match op
    case Create(model, data, defaults) =>
      FlushUnit(base, u.(session := Add(s, model, Assign(model, defaults, data))))
    case Update(model, id, data) =>
      var k := Key(model, id);
      var loaded := Fetch(base, s, k);
      if k !in loaded.identity then Some(u.(session := loaded))
      else FlushUnit(base, u.(session := SetAttributes(loaded, loaded.identity[k], data)))
    case Delete(model, id) =>
      var k := Key(model, id);
      var loaded := Fetch(base, s, k);
      if k !in loaded.identity then Some(u.(session := loaded))
      else Some(u.(session := loaded.(doomed := loaded.doomed + {loaded.identity[k]})))
    case Get(model, id) => Some(u.(session := Fetch(base, s, Key(model, id))))
    case Append(model, id, other) =>
      var k := Key(model, id);
      var loaded := Fetch(base, Fetch(base, s, k), other);
      if k !in loaded.identity || other !in loaded.identity then Some(u.(session := loaded))
      else Some(u.(session := Attach(loaded, loaded.identity[k], loaded.identity[other])))
    case Flush => FlushUnit(base, u)
  }

  // ---------- Every operation keeps sessions coherent ----------

  /** Loading finds the row if there is one, and leaves every object loaded before in its place. */
  lemma FetchLoads(base: Table, s: Session, k: Key)
    requires Coherent(base, s) && WellKeyed(base)
    ensures var loaded := Fetch(base, s, k);
      && (k in loaded.identity <==> Look(base, s, k).Some?)
      && (forall j :: j in s.identity ==> j in loaded.identity && loaded.identity[j] == s.identity[j])
      && (forall j :: j in loaded.identity && j !in s.identity ==>
            j == k && loaded.identity[j] == |s.objs| && KeyOf(loaded.objs[|s.objs|]) == k
            && Look(base, s, k) == Some(loaded.objs[|s.objs|].row))
      && s.objs <= loaded.objs
  {
  }

  lemma LoadKeepsMapped(s: Session, k: Key, row: Row)
    requires Mapped(s) && k !in s.identity
    ensures Mapped(s.(objs := s.objs + [Obj(k.model, row, Some(k))], identity := s.identity[k := |s.objs|]))
  {
  }

  lemma LoadKeepsCoherent(base: Table, s: Session, k: Key)
    requires Coherent(base, s) && k !in s.identity && Look(base, s, k).Some? && Look(base, s, k).value.id == k.id
    ensures var o := Obj(k.model, Look(base, s, k).value, Some(k));
      Coherent(base, s.(objs := s.objs + [o], identity := s.identity[k := |s.objs|]))
  {
    LoadKeepsMapped(s, k, Look(base, s, k).value);
  }

  lemma FetchKeepsCoherent(base: Table, s: Session, k: Key)
    requires Coherent(base, s) && WellKeyed(base)
    ensures var loaded := Fetch(base, s, k);
      && Coherent(base, loaded)
      && (k in loaded.identity <==> Look(base, s, k).Some?)
  {
    if k !in s.identity && Look(base, s, k).Some? {
      LoadKeepsCoherent(base, s, k);
    }
  }

  lemma AddKeepsCoherent(base: Table, s: Session, model: Model, row: Row)
    requires Coherent(base, s)
    ensures Coherent(base, Add(s, model, row))
  {
    AddKeepsMapped(s, model, row);
  }

  lemma AddKeepsMapped(s: Session, model: Model, row: Row)
    requires Mapped(s)
    ensures Mapped(Add(s, model, row))
  {
  }

  lemma RewriteKeepsCoherent(base: Table, s: Session, k: Key, row: Row)
    requires Coherent(base, s) && k in s.identity
    ensures Coherent(base, Rewrite(s, s.identity[k], row))
  {
    RewriteKeepsMapped(s, k, row);
  }

  lemma RewriteKeepsMapped(s: Session, k: Key, row: Row)
    requires Mapped(s) && k in s.identity
    ensures Mapped(Rewrite(s, s.identity[k], row))
  {
  }

  lemma SetKeepsCoherent(base: Table, s: Session, k: Key, data: Data)
    requires Coherent(base, s) && k in s.identity
    ensures Coherent(base, SetAttributes(s, s.identity[k], data))
  {
    var o := s.objs[s.identity[k]];
    RewriteKeepsCoherent(base, s, k, Assign(o.model, o.row, data));
  }

  lemma DoomKeepsCoherent(base: Table, s: Session, k: Key)
    requires Coherent(base, s) && k in s.identity
    ensures Coherent(base, s.(doomed := s.doomed + {s.identity[k]}))
  {
    DoomKeepsMapped(s, k);
  }

  lemma DoomKeepsMapped(s: Session, k: Key)
    requires Mapped(s) && k in s.identity
    ensures Mapped(s.(doomed := s.doomed + {s.identity[k]}))
  {
  }

  lemma AttachKeepsCoherent(base: Table, s: Session, k: Key, j: Key)
    requires Coherent(base, s) && k in s.identity && j in s.identity
    ensures Coherent(base, Attach(s, s.identity[k], s.identity[j]))
  {
    AttachKeepsMapped(s, k, j);
  }

  lemma AttachKeepsMapped(s: Session, k: Key, j: Key)
    requires Mapped(s) && k in s.identity && j in s.identity
    ensures Mapped(Attach(s, s.identity[k], s.identity[j]))
  {
  }

  lemma PerformKeepsCoherent(base: Table, u: Unit, op: Op)
    requires WellKeyed(base) && Coherent(base, u.session) && Perform(base, u, op).Some?
    ensures Coherent(base, Perform(base, u, op).value.session)
  {
    var s := u.session;
    match op
    case Create(model, data, defaults) =>
      AddKeepsCoherent(base, s, model, Assign(model, defaults, data));
      FlushKeepsCoherent(base, Add(s, model, Assign(model, defaults, data)));
    case Flush => FlushKeepsCoherent(base, s);
    case Update(model, id, data) =>
      var k := Key(model, id);
      FetchKeepsCoherent(base, s, k);
      var loaded := Fetch(base, s, k);
      if k in loaded.identity {
        SetKeepsCoherent(base, loaded, k, data);
        FlushKeepsCoherent(base, SetAttributes(loaded, loaded.identity[k], data));
      }
    case Delete(model, id) =>
      var k := Key(model, id);
      FetchKeepsCoherent(base, s, k);
      if k in Fetch(base, s, k).identity {
        DoomKeepsCoherent(base, Fetch(base, s, k), k);
      }
    case Get(model, id) => FetchKeepsCoherent(base, s, Key(model, id));
    case Append(model, id, other) => AppendKeepsCoherent(base, s, Key(model, id), other);
  }

  lemma AppendKeepsCoherent(base: Table, s: Session, k: Key, j: Key)
    requires WellKeyed(base) && Coherent(base, s)
    ensures var loaded := Fetch(base, Fetch(base, s, k), j);
      && Coherent(base, loaded)
      && (k in loaded.identity && j in loaded.identity ==>
            Coherent(base, Attach(loaded, loaded.identity[k], loaded.identity[j])))
  {
    FetchKeepsCoherent(base, s, k);
    FetchKeepsCoherent(base, Fetch(base, s, k), j);
    var loaded := Fetch(base, Fetch(base, s, k), j);
    if k in loaded.identity && j in loaded.identity {
      AttachKeepsCoherent(base, loaded, k, j);
    }
  }

  /** A sequence of operations; None as soon as one raises. */
  function PerformAll(base: Table, u: Unit, ops: seq<Op>): (r: Option<Unit>)
    requires WellKeyed(base) && Coherent(base, u.session)
    ensures r.Some? ==> Coherent(base, r.value.session)
    decreases |ops|
  {
    if ops == [] then Some(u)
    else
      var next := Perform(base, u, ops[0]);
      if next.None? then None
      else
        PerformKeepsCoherent(base, u, ops[0]);
        PerformAll(base, next.value, ops[1..])
  }

  /** A stage on a new unit of work: the operations, then the flush for the preview. */
  function StageUnit(base: Table, ops: seq<Op>): Option<Unit>
    requires WellKeyed(base)
  {
    var u := PerformAll(base, NEW_UNIT, ops);
    if u.None? then None else FlushUnit(base, u.value)
  }

  /** What is committed: the rows of the mapped classes, and the association rows between them. */
  datatype Store = Store(rows: Table, links: set<Link>)

  /** What a commit of the flushed writes makes of it. */
  function Merged(db: Store, s: Session): Store {
    Store(Patched(db.rows, s.overlay), Relinked(db.links, s.relinking))
  }

  /** What a commit makes of it; it flushes first. */
  function Committed(db: Store, u: Unit): Option<Store> {
    var flushed := FlushUnit(db.rows, u);
    if flushed.None? then None else Some(Merged(db, flushed.value.session))
  }
}
