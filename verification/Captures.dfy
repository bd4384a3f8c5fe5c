/** What a unit of work captures before its flushes, against what they write and against the ledger of deletions. */
module Captures {
  import opened Wrappers
  import opened Orm
  import opened Ledgers
  import opened Transactions

  /** The keys shown for new and modified objects, and for deleted ones: those of their current attributes. */
  function ShownKeys(u: Unit): set<Key> {
    set h | h in u.pendingNew + u.pendingDirty && h < |u.session.objs| :: KeyOf(u.session.objs[h])
  }

  function DeletedKeys(u: Unit): set<Key> {
    set h | h in u.pendingDeleted && h < |u.session.objs| :: KeyOf(u.session.objs[h])
  }

  /** Captured objects are still persistent or captured as deleted, and the deleted ones are those that are neither
      persistent nor new. */
  ghost predicate ObjectsTracked(u: Unit) {
    var s := u.session;
    && (forall h :: h in u.pendingNew + u.pendingDirty ==>
          h < |s.objs| && (s.objs[h].ident.Some? || h in u.pendingDeleted))
    && (forall h :: h in u.pendingDeleted ==> h < |s.objs| && s.objs[h].ident.None? && h !in s.added)
    && (forall h :: 0 <= h < |s.objs| && s.objs[h].ident.None? && h !in s.added ==> h in u.pendingDeleted)
  }

  /** Every row the session has written belongs to a captured object. */
  ghost predicate RowsTracked(u: Unit) {
    var s := u.session;
    forall k :: k in s.overlay && s.overlay[k].Some? && k in s.identity ==>
      s.identity[k] in u.pendingNew + u.pendingDirty
  }

  /** The captured objects account for the flushed writes. */
  ghost predicate Tracked(u: Unit) {
    ObjectsTracked(u) && RowsTracked(u)
  }

  lemma TouchedBy(base: Table, s: Session, k: Key)
    requires Coherent(base, s) && k in Touched(s)
    ensures (k in s.identity && s.identity[k] in s.dirty + s.doomed)
            || exists w :: w in Writes(s) && KeyOf(s.objs[w]) == k
  {
  }

  lemma CleanKey(base: Table, s: Session, h: Handle)
    requires Coherent(base, s) && h in Survivors(s) && h !in Writes(s)
    ensures KeyOf(s.objs[h]) in s.identity && s.identity[KeyOf(s.objs[h])] == h && h !in s.dirty + s.doomed
  {
    assert s.objs[h].ident.Some?;
  }

  /** The object that ends on a touched key is one the flush writes, so it is captured. */
  lemma WrittenIsCaptured(base: Table, s: Session, k: Key)
    requires Coherent(base, s) && FlushOk(base, s) && k in Touched(s) && k in Flushed(base, s).identity
    ensures Flushed(base, s).identity[k] in Writes(s)
  {
    var h := Flushed(base, s).identity[k];
    FlushIdentity(base, s);
    TouchedBy(base, s, k);
    if h !in Writes(s) {
      CleanKey(base, s, h);
    }
  }

  /** What a flush does to single objects and keys, as far as the capture is concerned. */
  lemma FlushedObject(base: Table, s: Session, h: Handle)
    requires Coherent(base, s) && FlushOk(base, s) && h < |s.objs|
    ensures var f := Flushed(base, s);
      && |f.objs| == |s.objs| && f.objs[h].row == s.objs[h].row && f.objs[h].model == s.objs[h].model
      && (f.objs[h].ident.Some? <==> h in s.added || (s.objs[h].ident.Some? && h !in s.doomed))
      && (f.objs[h].ident.Some? ==> f.objs[h].ident.value == KeyOf(f.objs[h]))
  {
  }

  lemma WrittenKey(base: Table, u: Unit, k: Key)
    requires Coherent(base, u.session) && Flushable(base, u.session) && Tracked(u)
    requires var f := Flushed(base, u.session); k in f.overlay && f.overlay[k].Some? && k in f.identity
    ensures Flushed(base, u.session).identity[k] in Captured(u).pendingNew + Captured(u).pendingDirty
  {
    if k in Touched(u.session) {
      WrittenIsCaptured(base, u.session, k);
    } else {
      UntouchedKey(base, u.session, k);
    }
  }

  /** Nothing but this matters of a flush: who is persistent afterwards, and that nobody is new. */
  lemma SurvivorsAreTracked(u: Unit, f: Session)
    requires ObjectsTracked(u) && InRange(u.session)
    requires forall h :: h in u.session.added ==> u.session.objs[h].ident.None?
    requires forall h :: h in u.session.doomed ==> u.session.objs[h].ident.Some?
    requires |f.objs| == |u.session.objs| && f.added == {}
    requires forall h :: 0 <= h < |f.objs| ==>
      (f.objs[h].ident.Some?
       <==> h in u.session.added || (u.session.objs[h].ident.Some? && h !in u.session.doomed))
    ensures ObjectsTracked(Captured(u).(session := f))
  {
  }

  lemma FlushTracksObjects(base: Table, u: Unit)
    requires Coherent(base, u.session) && Flushable(base, u.session) && ObjectsTracked(u)
    ensures ObjectsTracked(FlushUnit(base, u).value)
  {
    var f := Flushed(base, u.session);
    forall h | 0 <= h < |f.objs|
      ensures f.objs[h].ident.Some?
              <==> h in u.session.added || (u.session.objs[h].ident.Some? && h !in u.session.doomed)
    {
      FlushedObject(base, u.session, h);
    }
    SurvivorsAreTracked(u, f);
  }

  lemma FlushTracks(base: Table, u: Unit)
    requires Coherent(base, u.session) && Flushable(base, u.session) && Tracked(u)
    ensures Tracked(FlushUnit(base, u).value)
  {
    FlushTracksObjects(base, u);
    forall k | var f := Flushed(base, u.session); k in f.overlay && f.overlay[k].Some? && k in f.identity {
      WrittenKey(base, u, k);
    }
  }

  /** Changes of the session between two flushes that the capture does not see: objects keep their place, rows of
      the captured and deleted ones included, and nothing is flushed. */
  ghost predicate Extends(s: Session, t: Session) {
    && |s.objs| <= |t.objs| && t.overlay == s.overlay
    && (forall h :: 0 <= h < |s.objs| ==> t.objs[h].ident == s.objs[h].ident && t.objs[h].model == s.objs[h].model)
    && (forall h :: 0 <= h < |s.objs| && s.objs[h].ident.None? ==> t.objs[h].row == s.objs[h].row)
    && (forall h :: h in t.added ==> h in s.added || h >= |s.objs|)
    && (forall h :: h in s.added ==> h in t.added)
    && (forall h :: |s.objs| <= h < |t.objs| && t.objs[h].ident.None? ==> h in t.added)
    && (forall k :: k in s.identity ==> k in t.identity && t.identity[k] == s.identity[k])
  }

  lemma ExtensionTracks(base: Table, u: Unit, t: Session)
    requires Coherent(base, u.session) && Tracked(u) && Extends(u.session, t)
    ensures Tracked(u.(session := t))
  {
  }

  /** A loaded session with the operation's own change to the object h. */
  function Changed(s: Session, h: Handle, op: Op): Session
    requires h < |s.objs| && (op.Append? ==> op.other in s.identity)
  {
    if op.Update? then SetAttributes(s, h, op.data)
    else if op.Delete? then s.(doomed := s.doomed + {h})
    else if op.Append? then Attach(s, h, s.identity[op.other])
    else s
  }

  /** The session once an operation has loaded what it is about. */
  function Loaded(base: Table, s: Session, op: Op): Session
    requires !op.Create? && !op.Flush?
  {
    if op.Append? then Fetch(base, Fetch(base, s, Target(op)), op.other) else Fetch(base, s, Target(op))
  }

  /** Whether everything the operation is about has been found. */
  predicate Found(s: Session, op: Op)
    requires !op.Create? && !op.Flush?
  {
    Target(op) in s.identity && (op.Append? ==> op.other in s.identity)
  }

  lemma LoadedIsCoherent(base: Table, s: Session, op: Op)
    requires WellKeyed(base) && Coherent(base, s) && !op.Create? && !op.Flush?
    ensures Coherent(base, Loaded(base, s, op)) && Extends(s, Loaded(base, s, op))
  {
    FetchKeepsCoherent(base, s, Target(op));
    FetchExtends(base, s, Target(op));
    if op.Append? {
      var first := Fetch(base, s, Target(op));
      FetchKeepsCoherent(base, first, op.other);
      FetchExtends(base, first, op.other);
      ExtendsIsTransitive(s, first, Fetch(base, first, op.other));
    }
  }

  /** The session an operation has built before it flushes, if it does. */
  ghost function Prepared(base: Table, s: Session, op: Op): Session
    requires WellKeyed(base) && Coherent(base, s)
  {
    if op.Flush? then s
    else if op.Create? then Add(s, op.model, Assign(op.model, op.defaults, op.data))
    else
      LoadedIsCoherent(base, s, op);
      var loaded := Loaded(base, s, op);
      if Found(loaded, op) then Changed(loaded, loaded.identity[Target(op)], op) else loaded
  }

  lemma FetchExtends(base: Table, s: Session, k: Key)
    requires WellKeyed(base) && Coherent(base, s)
    ensures Extends(s, Fetch(base, s, k))
  {
  }

  lemma RewriteExtends(base: Table, s: Session, k: Key, row: Row)
    requires Coherent(base, s) && k in s.identity
    ensures Extends(s, Rewrite(s, s.identity[k], row))
  {
    var r := Rewrite(s, s.identity[k], row);
    assert r.overlay == s.overlay && r.identity == s.identity && r.added == s.added;
  }

  lemma ChangeExtends(base: Table, s: Session, k: Key, op: Op)
    requires Coherent(base, s) && k in s.identity && (op.Append? ==> op.other in s.identity)
    ensures Extends(s, Changed(s, s.identity[k], op))
  {
    if op.Update? {
      var o := s.objs[s.identity[k]];
      RewriteExtends(base, s, k, Assign(o.model, o.row, op.data));
    }
  }

  lemma ExtendsIsTransitive(s: Session, t: Session, v: Session)
    requires Extends(s, t) && Extends(t, v)
    ensures Extends(s, v)
  {
  }

  lemma PreparedExtends(base: Table, s: Session, op: Op)
    requires WellKeyed(base) && Coherent(base, s)
    ensures Extends(s, Prepared(base, s, op))
  {
    if !op.Create? && !op.Flush? {
      var loaded := Loaded(base, s, op);
      LoadedIsCoherent(base, s, op);
      if Found(loaded, op) {
        ChangeExtends(base, loaded, Target(op), op);
        ExtendsIsTransitive(s, loaded, Changed(loaded, loaded.identity[Target(op)], op));
      }
    }
  }

  lemma PreparedIsCoherent(base: Table, s: Session, op: Op)
    requires WellKeyed(base) && Coherent(base, s)
    ensures Coherent(base, Prepared(base, s, op))
  {
    if op.Create? {
      AddKeepsCoherent(base, s, op.model, Assign(op.model, op.defaults, op.data));
    } else if !op.Flush? {
      LoadedIsCoherent(base, s, op);
      if Found(Loaded(base, s, op), op) {
        ChangedIsCoherent(base, Loaded(base, s, op), op);
      }
    }
  }

  lemma ChangedIsCoherent(base: Table, s: Session, op: Op)
    requires Coherent(base, s) && !op.Create? && !op.Flush? && Found(s, op)
    ensures Coherent(base, Changed(s, s.identity[Target(op)], op))
  {
    match op
    case Update(_, _, data) => SetKeepsCoherent(base, s, Target(op), data);
    case Delete(_, _) => DoomKeepsCoherent(base, s, Target(op));
    case Append(_, _, other) => AttachKeepsCoherent(base, s, Target(op), other);
    case Get(_, _) =>
  }

  /** Whether an operation ends with a flush, given what can be loaded. */
  ghost predicate EndsWithFlush(base: Table, s: Session, op: Op) {
    op.Create? || op.Flush? || (op.Update? && Look(base, s, Target(op)).Some?)
  }

  /** Every operation is its preparation, followed by a flush or not. */
  lemma PerformIsPrepared(base: Table, u: Unit, op: Op)
    requires WellKeyed(base) && Coherent(base, u.session)
    ensures var p := u.(session := Prepared(base, u.session, op));
      Perform(base, u, op) == if EndsWithFlush(base, u.session, op) then FlushUnit(base, p) else Some(p)
  {
    if op.Update? {
      UpdateIsPrepared(base, u, op);
    } else if !op.Create? && !op.Flush? {
      FetchLoads(base, u.session, Target(op));
    }
  }

  lemma UpdateIsPrepared(base: Table, u: Unit, op: Op)
    requires WellKeyed(base) && Coherent(base, u.session) && op.Update?
    ensures var p := u.(session := Prepared(base, u.session, op));
      Perform(base, u, op) == if EndsWithFlush(base, u.session, op) then FlushUnit(base, p) else Some(p)
  {
    var loaded := Fetch(base, u.session, Target(op));
    FetchLoads(base, u.session, Target(op));
    if Target(op) in loaded.identity {
      assert Prepared(base, u.session, op) == SetAttributes(loaded, loaded.identity[Target(op)], op.data);
    } else {
      assert Prepared(base, u.session, op) == loaded;
    }
  }

  lemma PerformTracks(base: Table, u: Unit, op: Op)
    requires WellKeyed(base) && Coherent(base, u.session) && Tracked(u) && Perform(base, u, op).Some?
    ensures Tracked(Perform(base, u, op).value)
  {
    var p := u.(session := Prepared(base, u.session, op));
    PerformIsPrepared(base, u, op);
    PreparedExtends(base, u.session, op);
    PreparedIsCoherent(base, u.session, op);
    ExtensionTracks(base, u, p.session);
    if Flushable(base, p.session) {
      FlushTracks(base, p);
    }
  }

  lemma NewUnitTracks(base: Table)
    ensures Coherent(base, NEW_UNIT.session) && Tracked(NEW_UNIT)
  {
  }

  // ---------- What the ledger says of deletions ----------

  /** The keys that rows had when a stage of the operations deleted them. */
  function Erased(base: Table, ops: seq<Op>): set<Key> {
    match NoteAll(Opened(base), ops)
    case None => {}
    case Some(l) => l.erased + l.doomed.Keys
  }

  /** The keys that the doomed objects show. */
  function DoomedKeys(s: Session): set<Key> {
    set h | h in s.doomed && h < |s.objs| :: KeyOf(s.objs[h])
  }

  ghost predicate DoomedUnder(s: Session, keys: set<Key>) {
    forall k :: k in keys <==> k in s.identity && s.identity[k] in s.doomed
  }

  /** The unit stands for the ledger. */
  ghost predicate Follows(base: Table, u: Unit, l: Ledger) {
    Stands(base, u.session, l) && Tracked(u) && DeletedKeys(u) == l.erased
  }

  lemma FlushErases(base: Table, u: Unit)
    requires Coherent(base, u.session) && Flushable(base, u.session) && Tracked(u)
    ensures DeletedKeys(FlushUnit(base, u).value) == DeletedKeys(u) + DoomedKeys(u.session)
  {
    var v := FlushUnit(base, u).value;
    forall h | 0 <= h < |u.session.objs| ensures KeyOf(v.session.objs[h]) == KeyOf(u.session.objs[h]) {
      FlushedObject(base, u.session, h);
    }
    assert |v.session.objs| == |u.session.objs|;
    forall k ensures k in DeletedKeys(v) <==> k in DeletedKeys(u) || k in DoomedKeys(u.session) {
      KeyIsDeleted(v, k);
      KeyIsDeleted(u, k);
      KeyIsDoomed(u.session, k);
    }
  }

  lemma KeyIsDeleted(u: Unit, k: Key)
    ensures k in DeletedKeys(u)
            <==> exists h :: h in u.pendingDeleted && h < |u.session.objs| && KeyOf(u.session.objs[h]) == k
  {
  }

  lemma KeyIsDoomed(s: Session, k: Key)
    ensures k in DoomedKeys(s) <==> exists h :: h in s.doomed && h < |s.objs| && KeyOf(s.objs[h]) == k
  {
  }

  lemma ExtensionKeepsDeleted(u: Unit, t: Session)
    requires Tracked(u) && Extends(u.session, t)
    ensures DeletedKeys(u.(session := t)) == DeletedKeys(u)
  {
    forall h | h in u.pendingDeleted ensures h < |u.session.objs| && KeyOf(t.objs[h]) == KeyOf(u.session.objs[h]) {}
  }

  /** Between two operations a doomed object shows the key it is under. */
  lemma DoomedShow(base: Table, s: Session, keys: set<Key>)
    requires Calm(base, s) && DoomedUnder(s, keys)
    ensures DoomedKeys(s) == keys
  {
    forall k ensures k in DoomedKeys(s) <==> k in keys {
      KeyIsDoomed(s, k);
      if k in keys {
        assert s.identity[k] < |s.objs| && KeyOf(s.objs[s.identity[k]]) == k;
      }
    }
  }

  lemma RewriteMovesDoomed(base: Table, s: Session, k: Key, row: Row, keys: set<Key>)
    requires Calm(base, s) && k in s.identity && DoomedUnder(s, keys)
    ensures DoomedKeys(Rewrite(s, s.identity[k], row)) ==
            if k in keys then keys - {k} + {Key(k.model, row.id)} else keys
  {
    var h := s.identity[k];
    var r := Rewrite(s, h, row);
    forall j ensures j in DoomedKeys(r) <==> j in (if k in keys then keys - {k} + {Key(k.model, row.id)} else keys) {
      KeyIsDoomed(r, j);
      if j in keys && j != k {
        assert s.identity[j] != h && KeyOf(r.objs[s.identity[j]]) == j;
      }
      if k in keys {
        assert h in r.doomed && KeyOf(r.objs[h]) == Key(k.model, row.id);
      }
    }
  }

  lemma SetMovesDoomed(base: Table, s: Session, k: Key, data: Data, doomed: Table)
    requires Calm(base, s) && k in s.identity && DoomedUnder(s, doomed.Keys)
    ensures DoomedKeys(SetAttributes(s, s.identity[k], data)) == DoomedAt(doomed, Update(k.model, k.id, data))
  {
    var keys := doomed.Keys;
    var o := s.objs[s.identity[k]];
    if data.id.None? && Deserialize(o.model, data.cols) == map[] {
      DoomedShow(base, s, keys);
    } else {
      RewriteMovesDoomed(base, s, k, Assign(o.model, o.row, data), keys);
    }
  }

  /** When an operation flushes, the objects about to be deleted show the keys the ledger says. */
  lemma PreparedDoomed(base: Table, u: Unit, op: Op, l: Ledger)
    requires WellKeyed(base) && Follows(base, u, l) && (op.Create? || op.Flush? || op.Update?)
    ensures DoomedKeys(Prepared(base, u.session, op)) == DoomedAt(l.doomed, op)
  {
    var s := u.session;
    DoomedShow(base, s, l.doomed.Keys);
    if op.Create? {
      AddKeepsDoomed(base, s, op.model, Assign(op.model, op.defaults, op.data));
    } else if op.Update? {
      UpdateDoomedKeys(base, s, op, l);
    }
  }

  lemma UpdateDoomedKeys(base: Table, s: Session, op: Op, l: Ledger)
    requires WellKeyed(base) && Stands(base, s, l) && op.Update?
    ensures DoomedKeys(Prepared(base, s, op)) == DoomedAt(l.doomed, op)
  {
    var k := Target(op);
    FetchStands(base, s, k, l);
    var loaded := Fetch(base, s, k);
    if k in loaded.identity {
      SetMovesDoomed(base, loaded, k, op.data, l.doomed);
    } else {
      DoomedShow(base, loaded, l.doomed.Keys);
    }
  }

  lemma AddKeepsDoomed(base: Table, s: Session, model: Model, row: Row)
    requires Coherent(base, s)
    ensures DoomedKeys(Add(s, model, row)) == DoomedKeys(s)
  {
  }

  lemma FlushesAlike(base: Table, u: Unit, op: Op, l: Ledger)
    requires Follows(base, u, l)
    ensures Flushes(l, op) <==> EndsWithFlush(base, u.session, op)
  {
    if op.Update? {
      assert Left(base, u.session, Target(op)) == Find(l.table, Target(op));
    }
  }

  /** What an operation captures and dooms is what the ledger notes. */
  lemma PerformFollows(base: Table, u: Unit, op: Op, l: Ledger)
    requires WellKeyed(base) && Follows(base, u, l) && Note(l, op).Some?
    ensures Perform(base, u, op).Some? && Follows(base, Perform(base, u, op).value, Note(l, op).value)
  {
    PerformRefines(base, u, op, l);
    PerformTracks(base, u, op);
    PerformErases(base, u, op, l);
  }

  lemma PerformErases(base: Table, u: Unit, op: Op, l: Ledger)
    requires WellKeyed(base) && Follows(base, u, l) && Note(l, op).Some? && Perform(base, u, op).Some?
    ensures DeletedKeys(Perform(base, u, op).value) == Note(l, op).value.erased
  {
    var p := u.(session := Prepared(base, u.session, op));
    PerformIsPrepared(base, u, op);
    PreparedExtends(base, u.session, op);
    PreparedIsCoherent(base, u.session, op);
    ExtensionTracks(base, u, p.session);
    ExtensionKeepsDeleted(u, p.session);
    FlushesAlike(base, u, op, l);
    if Flushes(l, op) {
      PreparedDoomed(base, u, op, l);
      FlushErases(base, p);
    }
  }

  lemma {:induction false} PerformAllFollows(base: Table, u: Unit, ops: seq<Op>, l: Ledger)
    requires WellKeyed(base) && Follows(base, u, l) && NoteAll(l, ops).Some?
    ensures PerformAll(base, u, ops).Some? && Follows(base, PerformAll(base, u, ops).value, NoteAll(l, ops).value)
    decreases |ops|
  {
    if ops != [] {
      PerformFollows(base, u, ops[0], l);
      PerformAllFollows(base, Perform(base, u, ops[0]).value, ops[1..], Note(l, ops[0]).value);
    }
  }

  lemma NewUnitFollows(base: Table)
    ensures Follows(base, NEW_UNIT, Opened(base))
  {
    NewSessionStands(base);
    NewUnitTracks(base);
  }

  // ---------- Which list an object goes to ----------

  /** The objects that an operation modifies. */
  function Marks(base: Table, s: Session, op: Op): set<Handle> {
    if op.Update? then
      var k, loaded := Target(op), Fetch(base, s, Target(op));
      if k in loaded.identity && (op.data.id.Some? || Deserialize(op.model, op.data.cols) != map[])
      then {loaded.identity[k]} else {}
    else if op.Append? then
      var k, loaded := Target(op), Fetch(base, Fetch(base, s, Target(op)), op.other);
      if k in loaded.identity && op.other in loaded.identity
      then {loaded.identity[k], loaded.identity[op.other]} else {}
    else {}
  }

  /** The objects that an operation deletes. */
  function Dooms(base: Table, s: Session, op: Op): set<Handle> {
    if op.Delete? && Target(op) in Fetch(base, s, Target(op)).identity
    then {Fetch(base, s, Target(op)).identity[Target(op)]} else {}
  }

  lemma MappedIsPersistent(s: Session, k: Key)
    requires Mapped(s) && k in s.identity
    ensures var h := s.identity[k]; h < |s.objs| && s.objs[h].ident == Some(k) && h !in s.added
  {
  }

  /** What is modified is persistent. */
  lemma MarkedIsPersistent(base: Table, s: Session, op: Op, h: Handle)
    requires WellKeyed(base) && Coherent(base, s) && h in Marks(base, s, op)
    ensures var loaded := Loaded(base, s, op); h < |loaded.objs| && loaded.objs[h].ident.Some? && h !in loaded.added
  {
    LoadedIsCoherent(base, s, op);
    var loaded := Loaded(base, s, op);
    MappedIsPersistent(loaded, Target(op));
    if op.Append? {
      MappedIsPersistent(loaded, op.other);
    }
  }

  /** What an operation has prepared before it flushes, if it does: what it adds, modifies and deletes. */
  lemma PreparedSets(base: Table, s: Session, op: Op)
    requires WellKeyed(base) && Coherent(base, s)
    ensures var p := Prepared(base, s, op);
      && p.added == s.added + (if op.Create? then {|s.objs|} else {})
      && p.dirty == s.dirty + Marks(base, s, op) && p.doomed == s.doomed + Dooms(base, s, op)
  {
    if !op.Create? && !op.Flush? {
      LoadedIsCoherent(base, s, op);
      LoadedSets(base, s, op);
      var loaded := Loaded(base, s, op);
      if Found(loaded, op) {
        assert loaded.objs[loaded.identity[Target(op)]].model == op.model;
        ChangedSets(loaded, loaded.identity[Target(op)], op);
      }
    }
  }

  lemma LoadedSets(base: Table, s: Session, op: Op)
    requires !op.Create? && !op.Flush?
    ensures var t := Loaded(base, s, op); t.added == s.added && t.dirty == s.dirty && t.doomed == s.doomed
  {
  }

  lemma ChangedSets(s: Session, h: Handle, op: Op)
    requires !op.Create? && !op.Flush? && h < |s.objs| && s.objs[h].model == op.model
    requires op.Append? ==> op.other in s.identity
    ensures var t := Changed(s, h, op);
      && t.added == s.added && t.doomed == s.doomed + (if op.Delete? then {h} else {})
      && t.dirty == s.dirty + (if op.Append? then {h, s.identity[op.other]}
                               else if op.Update? && (op.data.id.Some? || Deserialize(op.model, op.data.cols) != map[])
                               then {h} else {})
  {
  }

  /** What an operation adds to each list. A created object is new; what was modified since the last flush, or is
      now, is modified unless it is about to be deleted; and nothing is listed before a flush. */
  lemma PerformLists(base: Table, u: Unit, op: Op)
    requires WellKeyed(base) && Coherent(base, u.session) && u.session.added == {} && Perform(base, u, op).Some?
    ensures Perform(base, u, op).value.session.added == {}
    ensures EndsWithFlush(base, u.session, op) ==>
      var s, v := u.session, Perform(base, u, op).value;
      && v.pendingNew == u.pendingNew + (if op.Create? then {|s.objs|} else {})
      && v.pendingDirty == u.pendingDirty + (s.dirty + Marks(base, s, op) - s.doomed)
      && v.pendingDeleted == u.pendingDeleted + s.doomed && v.session.dirty == v.session.doomed == {}
      && Dooms(base, s, op) == {}
    ensures !EndsWithFlush(base, u.session, op) ==>
      var s, v := u.session, Perform(base, u, op).value;
      && v.pendingNew == u.pendingNew && v.pendingDirty == u.pendingDirty && v.pendingDeleted == u.pendingDeleted
      && v.session.dirty == s.dirty + Marks(base, s, op) && v.session.doomed == s.doomed + Dooms(base, s, op)
      && !op.Create?
  {
    if EndsWithFlush(base, u.session, op) {
      FlushingLists(base, u, op);
    } else {
      QuietLists(base, u, op);
    }
  }

  lemma FlushingLists(base: Table, u: Unit, op: Op)
    requires WellKeyed(base) && Coherent(base, u.session) && u.session.added == {} && Perform(base, u, op).Some?
    requires EndsWithFlush(base, u.session, op)
    ensures var s, v := u.session, Perform(base, u, op).value;
      && v.pendingNew == u.pendingNew + (if op.Create? then {|s.objs|} else {})
      && v.pendingDirty == u.pendingDirty + (s.dirty + Marks(base, s, op) - s.doomed)
      && v.pendingDeleted == u.pendingDeleted + s.doomed && v.session.added == v.session.dirty == v.session.doomed == {}
      && Dooms(base, s, op) == {}
  {
    PerformIsPrepared(base, u, op);
    PreparedSets(base, u.session, op);
    FlushedLists(base, u, Prepared(base, u.session, op), Perform(base, u, op).value,
                 if op.Create? then {|u.session.objs|} else {}, u.session.dirty + Marks(base, u.session, op),
                 u.session.doomed);
  }

  lemma QuietLists(base: Table, u: Unit, op: Op)
    requires WellKeyed(base) && Coherent(base, u.session) && u.session.added == {} && Perform(base, u, op).Some?
    requires !EndsWithFlush(base, u.session, op)
    ensures var s, v := u.session, Perform(base, u, op).value;
      && v.pendingNew == u.pendingNew && v.pendingDirty == u.pendingDirty && v.pendingDeleted == u.pendingDeleted
      && v.session.added == {} && v.session.dirty == s.dirty + Marks(base, s, op)
      && v.session.doomed == s.doomed + Dooms(base, s, op)
  {
    PerformIsPrepared(base, u, op);
    PreparedSets(base, u.session, op);
  }

  lemma FlushedLists(base: Table, u: Unit, p: Session, v: Unit, added: set<Handle>, dirty: set<Handle>,
                     doomed: set<Handle>)
    requires FlushUnit(base, u.(session := p)) == Some(v)
    requires p.added == {} + added && p.dirty == dirty && p.doomed == doomed + {}
    ensures v.pendingNew == u.pendingNew + added && v.pendingDirty == u.pendingDirty + (dirty - doomed)
    ensures v.pendingDeleted == u.pendingDeleted + doomed
    ensures v.session.added == v.session.dirty == v.session.doomed == {}
  {
    FlushLists(base, u.(session := p));
  }

  lemma FlushLists(base: Table, u: Unit)
    requires FlushUnit(base, u).Some?
    ensures var s, v := u.session, FlushUnit(base, u).value;
      && v.pendingNew == u.pendingNew + s.added && v.pendingDirty == u.pendingDirty + (s.dirty - s.doomed)
      && v.pendingDeleted == u.pendingDeleted + s.doomed
      && v.session.added == v.session.dirty == v.session.doomed == {}
  {
  }

  /** The objects that the creates of a run add: each one behind all objects there are. */
  ghost function Made(base: Table, u: Unit, ops: seq<Op>): set<Handle>
    requires WellKeyed(base) && Coherent(base, u.session) && PerformAll(base, u, ops).Some?
    decreases |ops|
  {
    if ops == [] then {}
    else
      PerformKeepsCoherent(base, u, ops[0]);
      (if ops[0].Create? then {|u.session.objs|} else {}) + Made(base, Perform(base, u, ops[0]).value, ops[1..])
  }

  lemma {:induction false} NewAreMade(base: Table, u: Unit, ops: seq<Op>)
    requires WellKeyed(base) && Coherent(base, u.session) && u.session.added == {} && PerformAll(base, u, ops).Some?
    ensures var v := PerformAll(base, u, ops).value;
      v.session.added == {} && v.pendingNew == u.pendingNew + Made(base, u, ops)
    decreases |ops|
  {
    if ops != [] {
      PerformKeepsCoherent(base, u, ops[0]);
      PerformLists(base, u, ops[0]);
      NewAreMade(base, Perform(base, u, ops[0]).value, ops[1..]);
    }
  }

  lemma {:induction false} MadeAreLater(base: Table, u: Unit, ops: seq<Op>, h: Handle)
    requires WellKeyed(base) && Coherent(base, u.session) && PerformAll(base, u, ops).Some?
    requires h in Made(base, u, ops)
    ensures h >= |u.session.objs|
    decreases |ops|
  {
    PerformKeepsCoherent(base, u, ops[0]);
    PerformExtends(base, u, ops[0]);
    if h !in (if ops[0].Create? then {|u.session.objs|} else {}) {
      MadeAreLater(base, Perform(base, u, ops[0]).value, ops[1..], h);
    }
  }

  lemma PerformExtends(base: Table, u: Unit, op: Op)
    requires WellKeyed(base) && Coherent(base, u.session) && Perform(base, u, op).Some?
    ensures |Perform(base, u, op).value.session.objs| >= |u.session.objs|
  {
    PerformIsPrepared(base, u, op);
    PreparedExtends(base, u.session, op);
  }

  /** The object is not about to be deleted at the next flush, which is the one after the operations if none of them
      ends with one. */
  ghost predicate Outlives(base: Table, u: Unit, ops: seq<Op>, h: Handle)
    requires WellKeyed(base) && Coherent(base, u.session) && PerformAll(base, u, ops).Some?
    decreases |ops|
  {
    if ops == [] || EndsWithFlush(base, u.session, ops[0]) then h !in u.session.doomed
    else
      PerformKeepsCoherent(base, u, ops[0]);
      Outlives(base, Perform(base, u, ops[0]).value, ops[1..], h)
  }

  /** Some operation modifies the object, and it is not about to be deleted at the next flush. */
  ghost predicate ModifiedInTime(base: Table, u: Unit, ops: seq<Op>, h: Handle)
    requires WellKeyed(base) && Coherent(base, u.session) && PerformAll(base, u, ops).Some?
    decreases |ops|
  {
    ops != [] &&
    (PerformKeepsCoherent(base, u, ops[0]);
     (h in Marks(base, u.session, ops[0]) && Outlives(base, u, ops, h))
     || ModifiedInTime(base, Perform(base, u, ops[0]).value, ops[1..], h))
  }

  lemma {:induction false} DirtyAreModified(base: Table, u: Unit, ops: seq<Op>, h: Handle)
    requires WellKeyed(base) && Coherent(base, u.session) && u.session.added == {} && PerformAll(base, u, ops).Some?
    ensures var v := PerformAll(base, u, ops).value;
      h in v.pendingDirty + (v.session.dirty - v.session.doomed) <==>
      h in u.pendingDirty || (h in u.session.dirty && Outlives(base, u, ops, h)) || ModifiedInTime(base, u, ops, h)
    decreases |ops|
  {
    if ops != [] {
      PerformKeepsCoherent(base, u, ops[0]);
      PerformLists(base, u, ops[0]);
      DirtyAreModified(base, Perform(base, u, ops[0]).value, ops[1..], h);
    }
  }

  ghost function Doomed(base: Table, u: Unit, ops: seq<Op>): set<Handle>
    requires WellKeyed(base) && Coherent(base, u.session) && PerformAll(base, u, ops).Some?
    decreases |ops|
  {
    if ops == [] then {}
    else
      PerformKeepsCoherent(base, u, ops[0]);
      Dooms(base, u.session, ops[0]) + Doomed(base, Perform(base, u, ops[0]).value, ops[1..])
  }

  lemma {:induction false} DeletedAreDoomed(base: Table, u: Unit, ops: seq<Op>)
    requires WellKeyed(base) && Coherent(base, u.session) && u.session.added == {} && PerformAll(base, u, ops).Some?
    ensures var v := PerformAll(base, u, ops).value;
      v.pendingDeleted + v.session.doomed == u.pendingDeleted + u.session.doomed + Doomed(base, u, ops)
    decreases |ops|
  {
    if ops != [] {
      PerformKeepsCoherent(base, u, ops[0]);
      PerformLists(base, u, ops[0]);
      DeletedAreDoomed(base, Perform(base, u, ops[0]).value, ops[1..]);
    }
  }

  /** The lists of a stage, in terms of its operations: new are the objects that a create added, modified those that an
      operation modified and that were not about to be deleted at the next flush, deleted those that a delete found. */
  lemma StageLists(base: Table, ops: seq<Op>, h: Handle)
    requires WellKeyed(base) && StageUnit(base, ops).Some?
    ensures Coherent(base, NEW_UNIT.session)
    ensures var u := StageUnit(base, ops).value;
      && u.pendingNew == Made(base, NEW_UNIT, ops) && u.pendingDeleted == Doomed(base, NEW_UNIT, ops)
      && (h in u.pendingDirty <==> ModifiedInTime(base, NEW_UNIT, ops, h))
  {
    StageRun(base, ops);
    NewAreMade(base, NEW_UNIT, ops);
    LastFlushLists(base, PerformAll(base, NEW_UNIT, ops).value, StageUnit(base, ops).value);
    DirtyAreModified(base, NEW_UNIT, ops, h);
    DeletedAreDoomed(base, NEW_UNIT, ops);
  }

  lemma StageRun(base: Table, ops: seq<Op>)
    requires WellKeyed(base) && StageUnit(base, ops).Some?
    ensures Coherent(base, NEW_UNIT.session) && PerformAll(base, NEW_UNIT, ops).Some?
    ensures FlushUnit(base, PerformAll(base, NEW_UNIT, ops).value) == StageUnit(base, ops)
  {
    NewUnitTracks(base);
  }

  lemma LastFlushLists(base: Table, u: Unit, v: Unit)
    requires FlushUnit(base, u) == Some(v) && u.session.added == {}
    ensures v.pendingNew == u.pendingNew && v.pendingDeleted == u.pendingDeleted + u.session.doomed
    ensures v.pendingDirty == u.pendingDirty + (u.session.dirty - u.session.doomed)
  {
    FlushLists(base, u);
  }

  /** An object that is there at some point of a stage, and was not created until then, is never new. */
  lemma LoadedIsNotNew(base: Table, before: seq<Op>, rest: seq<Op>, h: Handle)
    requires WellKeyed(base) && StageUnit(base, before + rest).Some?
    ensures Coherent(base, NEW_UNIT.session) && PerformAll(base, NEW_UNIT, before).Some?
    ensures h < |PerformAll(base, NEW_UNIT, before).value.session.objs| && h !in Made(base, NEW_UNIT, before) ==>
      h !in StageUnit(base, before + rest).value.pendingNew
  {
    StageRun(base, before + rest);
    PerformAllInParts(base, NEW_UNIT, before, rest);
    NewAreMade(base, NEW_UNIT, before);
    var v, w := PerformAll(base, NEW_UNIT, before).value, PerformAll(base, NEW_UNIT, before + rest).value;
    NewAreMade(base, v, rest);
    if h in Made(base, v, rest) {
      MadeAreLater(base, v, rest, h);
    }
    LastFlushLists(base, w, StageUnit(base, before + rest).value);
  }

  lemma {:induction false} PerformAllInParts(base: Table, u: Unit, before: seq<Op>, rest: seq<Op>)
    requires WellKeyed(base) && Coherent(base, u.session) && PerformAll(base, u, before + rest).Some?
    ensures PerformAll(base, u, before).Some?
    ensures PerformAll(base, u, before + rest) == PerformAll(base, PerformAll(base, u, before).value, rest)
    decreases |before|
  {
    if before == [] {
      assert before + rest == rest;
    } else {
      assert (before + rest)[0] == before[0] && (before + rest)[1..] == before[1..] + rest;
      PerformKeepsCoherent(base, u, before[0]);
      PerformAllInParts(base, Perform(base, u, before[0]).value, before[1..], rest);
    }
  }

  /** Each list stays empty unless an operation of its kind is asked for. */
  lemma {:induction false} SilentOperations(base: Table, u: Unit, ops: seq<Op>, h: Handle)
    requires WellKeyed(base) && Coherent(base, u.session) && PerformAll(base, u, ops).Some?
    ensures (forall i :: 0 <= i < |ops| ==> !ops[i].Create?) ==> Made(base, u, ops) == {}
    ensures (forall i :: 0 <= i < |ops| ==> !ops[i].Update? && !ops[i].Append?) ==> !ModifiedInTime(base, u, ops, h)
    ensures (forall i :: 0 <= i < |ops| ==> !ops[i].Delete?) ==> Doomed(base, u, ops) == {}
    decreases |ops|
  {
    if ops != [] {
      PerformKeepsCoherent(base, u, ops[0]);
      assert forall i :: 0 <= i < |ops| - 1 ==> ops[1..][i] == ops[i + 1];
      SilentOperations(base, Perform(base, u, ops[0]).value, ops[1..], h);
    }
  }

  /** Without a create nothing is new, without an update or an append nothing is modified, and without a delete nothing
      is deleted. */
  lemma SilentLists(base: Table, ops: seq<Op>, u: Unit)
    requires WellKeyed(base) && StageUnit(base, ops) == Some(u)
    ensures (forall i :: 0 <= i < |ops| ==> !ops[i].Create?) ==> u.pendingNew == {}
    ensures (forall i :: 0 <= i < |ops| ==> !ops[i].Update? && !ops[i].Append?) ==> u.pendingDirty == {}
    ensures (forall i :: 0 <= i < |ops| ==> !ops[i].Delete?) ==> u.pendingDeleted == {}
  {
    NewUnitTracks(base);
    StageLists(base, ops, 0);
    SilentOperations(base, NEW_UNIT, ops, 0);
    if forall i :: 0 <= i < |ops| ==> !ops[i].Update? && !ops[i].Append? {
      forall h: Handle ensures h !in u.pendingDirty {
        StageLists(base, ops, h);
        SilentOperations(base, NEW_UNIT, ops, h);
      }
    }
  }
}
