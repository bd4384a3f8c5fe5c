/** What the preview of a stage lists, and how it relates to what a confirmation changes. */
module Preview {
  import opened Wrappers
  import opened Orm
  import opened Ledgers
  import opened Transactions
  import opened Captures

  // ---------- The preview is faithful ----------

  /** What a stage of the operations ends with: its unit, and the table once it is confirmed. */
  ghost predicate Stages(base: Table, ops: seq<Op>, u: Unit, after: Table) {
    WellKeyed(base) && StageUnit(base, ops) == Some(u) && TableAll(base, ops) == Some(after)
  }

  /** The ledger of a stage whose operations have all been flushed. */
  function FlushedLedger(base: Table, ops: seq<Op>, after: Table): Ledger
    requires NoteAll(Opened(base), ops).Some?
  {
    FlushNoted(NoteAll(Opened(base), ops).value, after, Flush)
  }

  lemma StageIsNoted(base: Table, ops: seq<Op>, u: Unit, after: Table)
    requires Stages(base, ops, u, after)
    ensures NoteAll(Opened(base), ops).Some? && NoteAll(Opened(base), ops).value.table == after
    ensures var l := FlushedLedger(base, ops, after); l.table == after && l.erased == Erased(base, ops)
  {
    StagedIsSequential(base, ops);
    LedgerTable(Opened(base), ops);
  }

  lemma StagedState(base: Table, ops: seq<Op>, u: Unit, after: Table)
    requires Stages(base, ops, u, after)
    ensures NoteAll(Opened(base), ops).Some? && Follows(base, u, FlushedLedger(base, ops, after))
    ensures var l := FlushedLedger(base, ops, after); l.table == after && l.erased == Erased(base, ops)
    ensures u.session.doomed == u.session.dirty == {}
  {
    StageIsNoted(base, ops, u, after);
    RunEnds(base, ops, PerformAll(base, NEW_UNIT, ops).value, NoteAll(Opened(base), ops).value, u);
  }

  lemma RunEnds(base: Table, ops: seq<Op>, last: Unit, l: Ledger, u: Unit)
    requires WellKeyed(base) && Coherent(base, NEW_UNIT.session)
    requires NoteAll(Opened(base), ops) == Some(l) && PerformAll(base, NEW_UNIT, ops) == Some(last)
    requires FlushUnit(base, last) == Some(u)
    ensures Follows(base, last, l) && Follows(base, u, FlushNoted(l, l.table, Flush))
    ensures u.session.doomed == u.session.dirty == {}
  {
    RunFollows(base, ops, last, l);
    FlushFollows(base, last, l);
    FlushClears(base, last);
  }

  lemma FlushFollows(base: Table, u: Unit, l: Ledger)
    requires WellKeyed(base) && Follows(base, u, l)
    ensures Flushable(base, u.session)
    ensures Follows(base, FlushUnit(base, u).value, FlushNoted(l, l.table, Flush))
  {
    FlushStands(base, u.session, l);
    FlushTracks(base, u);
    FlushErases(base, u);
    DoomedShow(base, u.session, l.doomed.Keys);
  }

  lemma FlushClears(base: Table, u: Unit)
    requires Flushable(base, u.session)
    ensures var s := FlushUnit(base, u).value.session; s.doomed == s.dirty == {}
  {
  }

  lemma RunFollows(base: Table, ops: seq<Op>, last: Unit, l: Ledger)
    requires WellKeyed(base) && Coherent(base, NEW_UNIT.session)
    requires NoteAll(Opened(base), ops) == Some(l) && PerformAll(base, NEW_UNIT, ops) == Some(last)
    ensures Follows(base, last, l)
  {
    NewUnitFollows(base);
    PerformAllFollows(base, NEW_UNIT, ops, Opened(base));
  }

  /** Every row shown as new or modified, and not deleted afterwards, is committed exactly as shown. */
  lemma ShownRowsAreCommitted(base: Table, ops: seq<Op>, u: Unit, after: Table, h: Handle)
    requires Stages(base, ops, u, after)
    requires h in u.pendingNew + u.pendingDirty && h !in u.pendingDeleted
    ensures h < |u.session.objs|
    ensures Find(after, KeyOf(u.session.objs[h])) == Some(u.session.objs[h].row)
  {
    StagedState(base, ops, u, after);
    var k := KeyOf(u.session.objs[h]);
    assert u.session.objs[h].ident.Some?;
    assert Left(base, u.session, k) == Find(after, k);
  }

  /** No object the flushes wrote escapes the capture: an object that is in no pending list still shows its committed
      row, and the confirmation leaves that row alone. */
  lemma UncapturedIsUntouched(base: Table, ops: seq<Op>, u: Unit, after: Table, h: Handle)
    requires Stages(base, ops, u, after)
    requires h < |u.session.objs| && h !in u.pendingNew + u.pendingDirty + u.pendingDeleted
    ensures var o := u.session.objs[h];
      o.ident == Some(KeyOf(o)) && Find(base, KeyOf(o)) == Some(o.row) == Find(after, KeyOf(o))
  {
    StagedState(base, ops, u, after);
    var s, o := u.session, u.session.objs[h];
    assert o.ident.Some? && s.identity[o.ident.value] == h;
    var k := o.ident.value;
    assert KeyOf(o) == k && Look(base, s, k) == Some(o.row);
    assert Left(base, s, k) == Find(after, k);
  }

  /** A key is shown when it is that of a new, modified or deleted object. */
  predicate Shown(u: Unit, k: Key) { k in ShownKeys(u) + DeletedKeys(u) }

  lemma KeyIsShown(u: Unit, k: Key)
    ensures k in ShownKeys(u)
            <==> exists h :: h in u.pendingNew + u.pendingDirty && h < |u.session.objs| && KeyOf(u.session.objs[h]) == k
  {
  }

  /** The keys shown for new and modified objects that were not deleted afterwards. */
  function LiveKeys(u: Unit): set<Key> {
    set h | h in u.pendingNew + u.pendingDirty - u.pendingDeleted && h < |u.session.objs| :: KeyOf(u.session.objs[h])
  }

  /** Of those, the keys shown for new objects, and for modified ones. */
  function NewKeys(u: Unit): set<Key> {
    set h | h in u.pendingNew - u.pendingDeleted && h < |u.session.objs| :: KeyOf(u.session.objs[h])
  }

  function ModifiedKeys(u: Unit): set<Key> {
    set h | h in u.pendingDirty - u.pendingDeleted && h < |u.session.objs| :: KeyOf(u.session.objs[h])
  }

  lemma LiveKeysAre(u: Unit)
    ensures LiveKeys(u) == NewKeys(u) + ModifiedKeys(u)
  {
  }

  lemma LiveKeysAreShown(u: Unit)
    ensures LiveKeys(u) <= ShownKeys(u)
  {
  }

  /** A row that is left under a changed key was written, and its object is captured. */
  lemma ChangedRowIsShown(base: Table, u: Unit, l: Ledger, k: Key)
    requires Follows(base, u, l) && u.session.doomed == {}
    requires k in l.table && (Find(base, k) != Find(l.table, k) || k in u.session.overlay)
    ensures k in LiveKeys(u)
  {
    var s := u.session;
    assert Left(base, s, k) == Find(l.table, k);
    assert k in s.overlay && s.overlay[k].Some?;
    assert KeyOf(s.objs[s.identity[k]]) == k;
  }

  /** A key without a row is shown by deleted objects only. */
  lemma GoneKeyIsDeleted(base: Table, u: Unit, l: Ledger, k: Key)
    requires Follows(base, u, l) && u.session.doomed == {} && k !in l.table
    ensures Shown(u, k) <==> k in l.erased
  {
    var s := u.session;
    assert Left(base, s, k) == Find(l.table, k);
    KeyIsShown(u, k);
    KeyIsDeleted(u, k);
    forall h | h in u.pendingNew + u.pendingDirty && KeyOf(s.objs[h]) == k ensures s.objs[h].ident.None? {
    }
  }

  /** Exactly which changes a preview shows, for every sequence of operations: those that leave a row, and those of
      the keys that rows had when they were deleted. What it misses are keys that rows were only moved away from. */
  lemma PreviewIsExact(base: Table, ops: seq<Op>, u: Unit, after: Table, k: Key)
    requires Stages(base, ops, u, after) && Find(base, k) != Find(after, k)
    ensures Shown(u, k) <==> k in after || k in Erased(base, ops)
  {
    StagedState(base, ops, u, after);
    if k in after {
      ChangedRowIsShown(base, u, FlushedLedger(base, ops, after), k);
      LiveKeysAreShown(u);
    } else {
      GoneKeyIsDeleted(base, u, FlushedLedger(base, ops, after), k);
    }
  }

  // ---------- What the operations say about a key ----------

  /** No operation moves the row under this key to another key. */
  ghost predicate NeverMoved(ops: seq<Op>, k: Key) {
    forall i :: 0 <= i < |ops| && ops[i].Update? && Target(ops[i]) == k ==> KeepsKey(ops[i])
  }

  /** No operation moves another row to this key. */
  ghost predicate NeverMovedTo(ops: seq<Op>, k: Key) {
    forall i :: 0 <= i < |ops| && ops[i].Update? && Destination(ops[i]) == k ==> KeepsKey(ops[i])
  }

  ghost predicate NeverDeleted(ops: seq<Op>, k: Key) {
    forall i :: 0 <= i < |ops| && ops[i].Delete? ==> Target(ops[i]) != k
  }

  lemma LossIsNoted(l: Ledger, op: Op, k: Key)
    requires WellKeyed(l.table) && Note(l, op).Some? && (op.Update? && Target(op) == k ==> KeepsKey(op))
    requires k in l.table || k in l.doomed || k in l.erased
    ensures var m := Note(l, op).value; k in m.table || k in m.doomed || k in m.erased
  {
  }

  /** A key that loses its row without a move loses it to a deletion, which keeps the key as it was. */
  lemma {:induction false} LostIsErased(l: Ledger, ops: seq<Op>, k: Key)
    requires NoteAll(l, ops).Some? && NeverMoved(ops, k)
    requires WellKeyed(l.table) && (k in l.table || k in l.doomed || k in l.erased)
    ensures var m := NoteAll(l, ops).value; k in m.table || k in m.doomed || k in m.erased
    decreases |ops|
  {
    if ops != [] {
      var next := Note(l, ops[0]).value;
      TableOpKeepsKeys(l.table, ops[0]);
      LossIsNoted(l, ops[0], k);
      assert forall i :: 0 <= i < |ops| - 1 ==> ops[1..][i] == ops[i + 1];
      LostIsErased(next, ops[1..], k);
    }
  }

  lemma {:induction false} OnlyDeletionsErase(l: Ledger, ops: seq<Op>, k: Key)
    requires NoteAll(l, ops).Some? && NeverDeleted(ops, k) && NeverMovedTo(ops, k)
    requires k !in l.doomed && k !in l.erased
    ensures var m := NoteAll(l, ops).value; k !in m.doomed && k !in m.erased
    decreases |ops|
  {
    if ops != [] {
      var next := Note(l, ops[0]).value;
      assert k !in next.doomed && k !in next.erased;
      assert forall i :: 0 <= i < |ops| - 1 ==> ops[1..][i] == ops[i + 1];
      OnlyDeletionsErase(next, ops[1..], k);
    }
  }

  /** Every change of a key is shown unless an update moved the row under that very key away, whatever the other
      operations did. */
  lemma ChangeIsShown(base: Table, ops: seq<Op>, u: Unit, after: Table, k: Key)
    requires Stages(base, ops, u, after) && NeverMoved(ops, k) && Find(base, k) != Find(after, k)
    ensures Shown(u, k)
  {
    PreviewIsExact(base, ops, u, after, k);
    StageIsNoted(base, ops, u, after);
    if k !in after {
      LostIsErased(Opened(base), ops, k);
    }
  }

  /** What the preview shows as deleted are the keys that rows had when they were deleted. */
  lemma ErasedAreDeleted(base: Table, ops: seq<Op>, u: Unit, after: Table)
    requires Stages(base, ops, u, after)
    ensures DeletedKeys(u) == Erased(base, ops)
  {
    StagedState(base, ops, u, after);
  }

  /** A committed row that goes, and that no update moved away, is shown as deleted. */
  lemma GoneIsDeleted(base: Table, ops: seq<Op>, u: Unit, after: Table, k: Key)
    requires Stages(base, ops, u, after) && NeverMoved(ops, k) && k in base && k !in after
    ensures k in DeletedKeys(u)
  {
    ErasedAreDeleted(base, ops, u, after);
    StageIsNoted(base, ops, u, after);
    LostIsErased(Opened(base), ops, k);
  }

  /** A key that no operation deletes and none moves a row to: when it loses its row, the preview does not show it. */
  lemma MovedKeyIsUnshown(base: Table, ops: seq<Op>, u: Unit, after: Table, k: Key)
    requires Stages(base, ops, u, after) && NeverDeleted(ops, k) && NeverMovedTo(ops, k)
    requires k in base && k !in after
    ensures !Shown(u, k)
  {
    PreviewIsExact(base, ops, u, after, k);
    StageIsNoted(base, ops, u, after);
    OnlyDeletionsErase(Opened(base), ops, k);
  }

  // ---------- Rows that are there all the time ----------

  /** The key has a row before the operations and after each of them. */
  predicate AlwaysHeld(t: Table, ops: seq<Op>, k: Key)
    decreases |ops|
  {
    k in t && (ops == [] || TableOp(t, ops[0]).None? || AlwaysHeld(TableOp(t, ops[0]).value, ops[1..], k))
  }

  lemma {:induction false} HeldToTheEnd(t: Table, ops: seq<Op>, k: Key)
    requires AlwaysHeld(t, ops, k) && TableAll(t, ops).Some?
    ensures k in t && k in TableAll(t, ops).value
    decreases |ops|
  {
    if ops != [] {
      HeldToTheEnd(TableOp(t, ops[0]).value, ops[1..], k);
    }
  }

  lemma FlushWrites(base: Table, u: Unit, k: Key)
    requires Flushable(base, u.session)
    ensures k in u.session.overlay || k in Touched(u.session) ==> k in FlushUnit(base, u).value.session.overlay
  {
  }

  lemma DoomedIsTouched(s: Session, p: Session, k: Key)
    requires Mapped(s) && Mapped(p) && Extends(s, p) && s.doomed <= p.doomed
    requires k in s.identity && s.identity[k] in s.doomed
    ensures k in Touched(p)
  {
    assert p.objs[s.identity[k]].ident == Some(k);
  }

  lemma LoadedKeepsDoomed(base: Table, s: Session, op: Op)
    requires !op.Create? && !op.Flush?
    ensures Loaded(base, s, op).doomed == s.doomed
  {
  }

  lemma ChangedKeepsDoomed(s: Session, h: Handle, op: Op)
    requires h < |s.objs| && (op.Append? ==> op.other in s.identity)
    ensures s.doomed <= Changed(s, h, op).doomed
  {
  }

  lemma PreparedKeepsDoomed(base: Table, s: Session, op: Op)
    requires WellKeyed(base) && Coherent(base, s)
    ensures s.doomed <= Prepared(base, s, op).doomed
  {
    if !op.Create? && !op.Flush? {
      var loaded := Loaded(base, s, op);
      LoadedIsCoherent(base, s, op);
      LoadedKeepsDoomed(base, s, op);
      if Found(loaded, op) {
        ChangedKeepsDoomed(loaded, loaded.identity[Target(op)], op);
      }
    }
  }

  /** What is written or about to be deleted stays so. */
  ghost predicate Written(u: Unit, l: Ledger, k: Key) { k in u.session.overlay || k in l.doomed }

  lemma PerformStaysWritten(base: Table, u: Unit, op: Op, l: Ledger, k: Key)
    requires WellKeyed(base) && Follows(base, u, l) && Note(l, op).Some? && Perform(base, u, op).Some?
    requires Written(u, l, k)
    ensures Written(Perform(base, u, op).value, Note(l, op).value, k)
  {
    PerformIsPrepared(base, u, op);
    FlushesAlike(base, u, op, l);
    if Flushes(l, op) {
      WrittenIsTouched(base, u, op, l, k);
      FlushWrites(base, u.(session := Prepared(base, u.session, op)), k);
    } else {
      PreparedExtends(base, u.session, op);
      QuietKeepsDoomed(l, op, k);
    }
  }

  lemma QuietKeepsDoomed(l: Ledger, op: Op, k: Key)
    requires Note(l, op).Some? && !Flushes(l, op)
    ensures k in l.doomed ==> k in Note(l, op).value.doomed
  {
  }

  lemma WrittenIsTouched(base: Table, u: Unit, op: Op, l: Ledger, k: Key)
    requires WellKeyed(base) && Follows(base, u, l) && Written(u, l, k)
    ensures var p := Prepared(base, u.session, op); Mapped(p) && (k in p.overlay || k in Touched(p))
  {
    PreparedIsCoherent(base, u.session, op);
    PreparedExtends(base, u.session, op);
    PreparedKeepsDoomed(base, u.session, op);
    if k in l.doomed {
      DoomedIsTouched(u.session, Prepared(base, u.session, op), k);
    }
  }

  lemma {:induction false} StaysWritten(base: Table, u: Unit, ops: seq<Op>, l: Ledger, k: Key)
    requires WellKeyed(base) && Follows(base, u, l) && NoteAll(l, ops).Some? && PerformAll(base, u, ops).Some?
    requires Written(u, l, k)
    ensures Written(PerformAll(base, u, ops).value, NoteAll(l, ops).value, k)
    decreases |ops|
  {
    if ops != [] {
      PerformFollows(base, u, ops[0], l);
      PerformStaysWritten(base, u, ops[0], l, k);
      StaysWritten(base, Perform(base, u, ops[0]).value, ops[1..], Note(l, ops[0]).value, k);
    }
  }

  lemma UnwrittenBefore(base: Table, u: Unit, ops: seq<Op>, l: Ledger, k: Key)
    requires WellKeyed(base) && Follows(base, u, l) && NoteAll(l, ops).Some? && PerformAll(base, u, ops).Some?
    requires !Written(PerformAll(base, u, ops).value, NoteAll(l, ops).value, k)
    ensures !Written(u, l, k)
  {
    if Written(u, l, k) {
      StaysWritten(base, u, ops, l, k);
    }
  }

  lemma UnwrittenIsHeld(base: Table, u: Unit, l: Ledger, k: Key)
    requires Follows(base, u, l) && k in base && !Written(u, l, k)
    ensures k in l.table
  {
    assert Left(base, u.session, k) == Find(l.table, k);
  }

  /** A committed row that is not written in the end has been there all the time. */
  lemma {:induction false} UnwrittenWasHeld(base: Table, u: Unit, ops: seq<Op>, l: Ledger, k: Key)
    requires WellKeyed(base) && Follows(base, u, l) && NoteAll(l, ops).Some? && PerformAll(base, u, ops).Some?
    requires k in base && !Written(PerformAll(base, u, ops).value, NoteAll(l, ops).value, k)
    ensures AlwaysHeld(l.table, ops, k)
    decreases |ops|
  {
    UnwrittenBefore(base, u, ops, l, k);
    UnwrittenIsHeld(base, u, l, k);
    if ops != [] {
      PerformFollows(base, u, ops[0], l);
      NoteTable(l, ops[0]);
      UnwrittenWasHeld(base, Perform(base, u, ops[0]).value, ops[1..], Note(l, ops[0]).value, k);
    }
  }

  lemma LastFlushWrites(base: Table, u: Unit, l: Ledger, k: Key)
    requires Follows(base, u, l) && Flushable(base, u.session) && Written(u, l, k)
    ensures k in FlushUnit(base, u).value.session.overlay
  {
    if k in l.doomed {
      DoomedIsTouched(u.session, u.session, k);
    }
    FlushWrites(base, u, k);
  }

  /** In a stage, a committed row that ends unwritten has been there all the time. */
  lemma StageHeld(base: Table, ops: seq<Op>, u: Unit, after: Table, k: Key)
    requires Stages(base, ops, u, after) && k in base && k !in u.session.overlay
    ensures AlwaysHeld(base, ops, k)
  {
    StageIsNoted(base, ops, u, after);
    var last, l := PerformAll(base, NEW_UNIT, ops).value, NoteAll(Opened(base), ops).value;
    RunFollows(base, ops, last, l);
    if Written(last, l, k) {
      LastFlushWrites(base, last, l, k);
    }
    NewUnitFollows(base);
    UnwrittenWasHeld(base, NEW_UNIT, ops, Opened(base), k);
  }

  // ---------- Deletions ----------

  /** A key that is shown as deleted, and for no other object, has a row after the confirmation exactly when it had one
      all the time: then it is another row that is shown under it. */
  lemma DeletionHoldsIff(base: Table, ops: seq<Op>, u: Unit, after: Table, k: Key)
    requires Stages(base, ops, u, after) && k in DeletedKeys(u) && k !in LiveKeys(u)
    ensures k in after <==> AlwaysHeld(base, ops, k)
  {
    StagedState(base, ops, u, after);
    if k in after {
      if Find(base, k) != Find(after, k) || k in u.session.overlay {
        ChangedRowIsShown(base, u, FlushedLedger(base, ops, after), k);
      }
      StageHeld(base, ops, u, after, k);
    }
    if AlwaysHeld(base, ops, k) {
      HeldToTheEnd(base, ops, k);
    }
  }

  lemma {:induction false} HeldIsNotErased(l: Ledger, ops: seq<Op>, k: Key)
    requires NoteAll(l, ops).Some? && AlwaysHeld(l.table, ops, k) && NeverMovedTo(ops, k)
    requires k !in l.doomed && k !in l.erased
    ensures var m := NoteAll(l, ops).value; k !in m.doomed && k !in m.erased
    decreases |ops|
  {
    if ops != [] {
      assert AlwaysHeld(TableOp(l.table, ops[0]).value, ops[1..], k);
      var next := Note(l, ops[0]).value;
      assert k !in next.doomed && k !in next.erased;
      assert forall i :: 0 <= i < |ops| - 1 ==> ops[1..][i] == ops[i + 1];
      HeldIsNotErased(next, ops[1..], k);
    }
  }

  /** In particular, if no update moved a row to it, a key shown as deleted only has no row after the confirmation. */
  lemma DeletionHolds(base: Table, ops: seq<Op>, u: Unit, after: Table, k: Key)
    requires Stages(base, ops, u, after) && NeverMovedTo(ops, k)
    requires k in DeletedKeys(u) && k !in LiveKeys(u)
    ensures k !in after
  {
    DeletionHoldsIff(base, ops, u, after, k);
    StagedState(base, ops, u, after);
    if AlwaysHeld(base, ops, k) {
      HeldIsNotErased(Opened(base), ops, k);
    }
  }

  // ---------- Which rows that are there all the time are shown ----------

  /** The row of the key belongs to the transaction, about to be deleted or not. */
  predicate Present(l: Ledger, k: Key) { k in l.table || k in l.doomed }

  /** The operation marks the object of the key as modified. */
  predicate Modifies(l: Ledger, op: Op, k: Key) {
    || (op.Update? && Target(op) == k && (op.data.id.Some? || Deserialize(op.model, op.data.cols) != map[]))
    || (op.Append? && k in {Target(op), op.other} && Present(l, Target(op)) && Present(l, op.other))
  }

  predicate Modified(l: Ledger, ops: seq<Op>, k: Key)
    decreases |ops|
  {
    ops != [] && Note(l, ops[0]).Some? && (Modifies(l, ops[0], k) || Modified(Note(l, ops[0]).value, ops[1..], k))
  }

  /** The object of the key is modified or captured as modified. */
  ghost predicate LiveIn(u: Unit, k: Key) {
    k in u.session.identity && u.session.identity[k] in u.session.dirty + u.pendingDirty
  }

  /** The object of the key is captured as new. */
  ghost predicate NewIn(u: Unit, k: Key) {
    k in u.session.identity && u.session.identity[k] in u.pendingNew
  }

  lemma FetchKeepsLive(base: Table, u: Unit, j: Key, k: Key)
    requires WellKeyed(base) && Coherent(base, u.session) && ObjectsTracked(u)
    ensures var v := u.(session := Fetch(base, u.session, j));
      && ObjectsTracked(v) && Coherent(base, v.session)
      && (LiveIn(v, k) <==> LiveIn(u, k)) && (NewIn(v, k) <==> NewIn(u, k))
  {
    FetchKeepsCoherent(base, u.session, j);
    FetchExtends(base, u.session, j);
    FetchLoads(base, u.session, j);
  }

  lemma LoadedKeepsLive(base: Table, u: Unit, op: Op, k: Key)
    requires WellKeyed(base) && Coherent(base, u.session) && ObjectsTracked(u) && !op.Create? && !op.Flush?
    ensures LiveIn(u.(session := Loaded(base, u.session, op)), k) <==> LiveIn(u, k)
    ensures NewIn(u.(session := Loaded(base, u.session, op)), k) <==> NewIn(u, k)
  {
    FetchKeepsLive(base, u, Target(op), k);
    if op.Append? {
      FetchKeepsLive(base, u.(session := Fetch(base, u.session, Target(op))), op.other, k);
    }
  }

  lemma ChangedLive(base: Table, u: Unit, op: Op, l: Ledger, k: Key)
    requires Coherent(base, u.session) && !op.Create? && !op.Flush? && Found(u.session, op)
    requires op.Append? ==> Present(l, Target(op)) && Present(l, op.other)
    ensures LiveIn(u.(session := Changed(u.session, u.session.identity[Target(op)], op)), k)
            <==> LiveIn(u, k) || (k in u.session.identity && Modifies(l, op, k))
    ensures NewIn(u.(session := Changed(u.session, u.session.identity[Target(op)], op)), k) <==> NewIn(u, k)
  {
    var s := u.session;
    forall j | j in s.identity && j != k && k in s.identity ensures s.identity[j] != s.identity[k] {
      assert s.objs[s.identity[j]].ident == Some(j) && s.objs[s.identity[k]].ident == Some(k);
    }
  }

  lemma LoadedFinds(base: Table, s: Session, op: Op, l: Ledger)
    requires WellKeyed(base) && Stands(base, s, l) && !op.Create? && !op.Flush?
    ensures Stands(base, Loaded(base, s, op), l)
    ensures Found(Loaded(base, s, op), op) <==> Present(l, Target(op)) && (op.Append? ==> Present(l, op.other))
  {
    FetchStands(base, s, Target(op), l);
    if op.Append? {
      FetchStands(base, Fetch(base, s, Target(op)), op.other, l);
      FetchStays(base, Fetch(base, s, Target(op)), op.other, Target(op));
    }
  }

  lemma FetchStays(base: Table, s: Session, j: Key, k: Key)
    ensures k in s.identity ==> k in Fetch(base, s, j).identity
    ensures k != j ==> (k in Fetch(base, s, j).identity <==> k in s.identity)
  {
  }

  lemma PreparedLive(base: Table, u: Unit, op: Op, l: Ledger, k: Key)
    requires WellKeyed(base) && Follows(base, u, l) && k in l.table
    ensures LiveIn(u.(session := Prepared(base, u.session, op)), k) <==> LiveIn(u, k) || Modifies(l, op, k)
    ensures NewIn(u.(session := Prepared(base, u.session, op)), k) <==> NewIn(u, k)
  {
    if !op.Create? && !op.Flush? {
      LoadedLive(base, u, op, l, k);
    }
  }

  lemma LoadedLive(base: Table, u: Unit, op: Op, l: Ledger, k: Key)
    requires WellKeyed(base) && Stands(base, u.session, l) && ObjectsTracked(u) && k in l.table
    requires !op.Create? && !op.Flush?
    ensures LiveIn(u.(session := Prepared(base, u.session, op)), k) <==> LiveIn(u, k) || Modifies(l, op, k)
    ensures NewIn(u.(session := Prepared(base, u.session, op)), k) <==> NewIn(u, k)
  {
    var v := u.(session := Loaded(base, u.session, op));
    LoadedKeepsLive(base, u, op, k);
    LoadedFinds(base, u.session, op, l);
    FoundLive(base, v, op, l, k);
  }

  /** The session with the operation's change, if everything was found. */
  function ChangedIfFound(s: Session, op: Op): Session
    requires Mapped(s) && !op.Create? && !op.Flush?
  {
    if Found(s, op) then Changed(s, s.identity[Target(op)], op) else s
  }

  lemma FoundLive(base: Table, u: Unit, op: Op, l: Ledger, k: Key)
    requires Coherent(base, u.session) && !op.Create? && !op.Flush? && k in l.table
    requires Found(u.session, op) <==> Present(l, Target(op)) && (op.Append? ==> Present(l, op.other))
    requires op.Append? && Found(u.session, op) ==> Present(l, Target(op)) && Present(l, op.other)
    ensures LiveIn(u.(session := ChangedIfFound(u.session, op)), k) <==> LiveIn(u, k) || Modifies(l, op, k)
    ensures NewIn(u.(session := ChangedIfFound(u.session, op)), k) <==> NewIn(u, k)
  {
    if Found(u.session, op) {
      ChangedLive(base, u, op, l, k);
    } else {
      UnfoundModifiesNothing(l, op, k);
    }
  }

  lemma UnfoundModifiesNothing(l: Ledger, op: Op, k: Key)
    requires !op.Create? && !op.Flush? && k in l.table
    requires !(Present(l, Target(op)) && (op.Append? ==> Present(l, op.other)))
    ensures !Modifies(l, op, k)
  {
  }

  /** A flush leaves an object that keeps its key in its place. */
  lemma FlushKeepsPlace(base: Table, s: Session, k: Key)
    requires Coherent(base, s) && FlushOk(base, s) && Look(base, s, k).Some?
    requires k in s.identity ==> s.identity[k] !in s.doomed && KeyOf(s.objs[s.identity[k]]) == k
    ensures var f := Flushed(base, s);
      (k in f.identity <==> k in s.identity) && (k in s.identity ==> f.identity[k] == s.identity[k])
  {
    FlushIdentity(base, s);
    if k in s.identity {
      assert s.identity[k] in Survivors(s);
    } else if k in Flushed(base, s).identity {
      var h := Flushed(base, s).identity[k];
      if h !in Writes(s) {
        CleanKey(base, s, h);
      }
    }
  }

  lemma CapturedLive(u: Unit, f: Session, k: Key)
    requires (k in f.identity <==> k in u.session.identity) && f.dirty == {}
    requires k in u.session.identity ==>
      var h := u.session.identity[k]; f.identity[k] == h && h !in u.session.doomed && h !in u.session.added
    ensures LiveIn(Captured(u).(session := f), k) <==> LiveIn(u, k)
    ensures NewIn(Captured(u).(session := f), k) <==> NewIn(u, k)
  {
  }

  /** The key has a row, and its object, if loaded, keeps the key at the next flush. */
  ghost predicate HoldsIn(base: Table, s: Session, k: Key) {
    && Look(base, s, k).Some? && Mapped(s)
    && (k in s.identity ==> s.identity[k] !in s.doomed && KeyOf(s.objs[s.identity[k]]) == k)
  }

  lemma FlushKeepsLive(base: Table, u: Unit, k: Key)
    requires Coherent(base, u.session) && Flushable(base, u.session) && HoldsIn(base, u.session, k)
    ensures LiveIn(FlushUnit(base, u).value, k) <==> LiveIn(u, k)
    ensures NewIn(FlushUnit(base, u).value, k) <==> NewIn(u, k)
  {
    FlushKeepsPlace(base, u.session, k);
    NotAdded(u.session, k);
    CapturedLive(u, Flushed(base, u.session), k);
  }

  lemma NotAdded(s: Session, k: Key)
    requires Mapped(s)
    ensures k in s.identity ==> s.identity[k] !in s.added
  {
  }

  lemma StandingHolds(base: Table, s: Session, l: Ledger, k: Key)
    requires Stands(base, s, l) && k in l.table
    ensures HoldsIn(base, s, k)
  {
    SeenIs(base, s, l, k);
    LeftIs(base, s, l.table, k);
  }

  lemma AddHolds(base: Table, s: Session, model: Model, row: Row, k: Key)
    requires Coherent(base, s) && HoldsIn(base, s, k)
    ensures HoldsIn(base, Add(s, model, row), k)
  {
    AddKeepsMapped(s, model, row);
  }

  /** What an operation about to flush has prepared for a key that has a row before and after. */
  lemma PreparedHolds(base: Table, s: Session, op: Op, l: Ledger, k: Key)
    requires WellKeyed(base) && Stands(base, s, l) && Flushes(l, op) && Note(l, op).Some?
    requires k in l.table && k in Note(l, op).value.table
    ensures HoldsIn(base, Prepared(base, s, op), k)
  {
    StandingHolds(base, s, l, k);
    if op.Create? {
      AddHolds(base, s, op.model, Assign(op.model, op.defaults, op.data), k);
    } else if op.Update? {
      UpdateHolds(base, s, op, l, k);
    }
  }

  lemma UpdateHolds(base: Table, s: Session, op: Op, l: Ledger, k: Key)
    requires WellKeyed(base) && Stands(base, s, l) && op.Update? && Flushes(l, op) && Note(l, op).Some?
    requires k in l.table && k in Note(l, op).value.table
    ensures HoldsIn(base, Prepared(base, s, op), k)
  {
    var loaded := Fetch(base, s, Target(op));
    FetchStands(base, s, Target(op), l);
    StandingHolds(base, loaded, l, k);
    assert Prepared(base, s, op) == SetAttributes(loaded, loaded.identity[Target(op)], op.data);
    NoteTable(l, op);
    UpdatedHolds(base, loaded, op, l.table, Note(l, op).value.table, k);
  }

  lemma UpdatedHolds(base: Table, s: Session, op: Op, t: Table, after: Table, k: Key)
    requires Represents(base, s, t) && HoldsIn(base, s, k) && op.Update? && TableOp(t, op) == Some(after)
    requires k in t && k in after && Target(op) in s.identity
    ensures HoldsIn(base, SetAttributes(s, s.identity[Target(op)], op.data), k)
  {
    var o := s.objs[s.identity[Target(op)]];
    LeftIs(base, s, t, k);
    RewriteKeepsMapped(s, Target(op), Assign(o.model, o.row, op.data));
    if k in s.identity && Target(op) != k {
      OthersKeepRow(s, Target(op), Assign(o.model, o.row, op.data), k);
    }
  }

  /** What marks the object of a key that keeps its row. */
  lemma PerformLive(base: Table, u: Unit, op: Op, l: Ledger, k: Key)
    requires WellKeyed(base) && Follows(base, u, l) && Note(l, op).Some? && Perform(base, u, op).Some?
    requires k in l.table && k in Note(l, op).value.table
    ensures LiveIn(Perform(base, u, op).value, k) <==> LiveIn(u, k) || Modifies(l, op, k)
    ensures NewIn(Perform(base, u, op).value, k) <==> NewIn(u, k)
  {
    var p := u.(session := Prepared(base, u.session, op));
    PerformIsPrepared(base, u, op);
    FlushesAlike(base, u, op, l);
    PreparedLive(base, u, op, l, k);
    if Flushes(l, op) {
      PreparedHolds(base, u.session, op, l, k);
      PreparedIsCoherent(base, u.session, op);
      FlushKeepsLive(base, p, k);
    }
  }

  lemma {:induction false} PerformAllLive(base: Table, u: Unit, ops: seq<Op>, l: Ledger, k: Key)
    requires WellKeyed(base) && Follows(base, u, l) && NoteAll(l, ops).Some? && PerformAll(base, u, ops).Some?
    requires AlwaysHeld(l.table, ops, k)
    ensures LiveIn(PerformAll(base, u, ops).value, k) <==> LiveIn(u, k) || Modified(l, ops, k)
    ensures NewIn(PerformAll(base, u, ops).value, k) <==> NewIn(u, k)
    decreases |ops|
  {
    if ops != [] {
      assert AlwaysHeld(TableOp(l.table, ops[0]).value, ops[1..], k);
      NoteTable(l, ops[0]);
      PerformFollows(base, u, ops[0], l);
      PerformLive(base, u, ops[0], l, k);
      PerformAllLive(base, Perform(base, u, ops[0]).value, ops[1..], Note(l, ops[0]).value, k);
    }
  }

  lemma NoteTable(l: Ledger, op: Op)
    requires Note(l, op).Some?
    ensures TableOp(l.table, op) == Some(Note(l, op).value.table)
  {
  }

  lemma KeptObject(base: Table, u: Unit, l: Ledger, k: Key, h: Handle)
    requires Follows(base, u, l) && u.session.dirty == u.session.doomed == {}
    requires h in u.pendingNew + u.pendingDirty
    ensures h < |u.session.objs|
    ensures h !in u.pendingDeleted && KeyOf(u.session.objs[h]) == k <==>
            k in u.session.identity && u.session.identity[k] == h
  {
    var s := u.session;
    if s.objs[h].ident.Some? {
      assert s.identity[s.objs[h].ident.value] == h;
    }
  }

  lemma LiveInIsLive(base: Table, u: Unit, l: Ledger, k: Key)
    requires Follows(base, u, l) && u.session.dirty == u.session.doomed == {}
    ensures LiveIn(u, k) <==> k in ModifiedKeys(u)
    ensures NewIn(u, k) <==> k in NewKeys(u)
  {
    forall h | h in u.pendingNew + u.pendingDirty
      ensures h < |u.session.objs|
      ensures h !in u.pendingDeleted && KeyOf(u.session.objs[h]) == k <==>
              k in u.session.identity && u.session.identity[k] == h
    {
      KeptObject(base, u, l, k, h);
    }
  }

  /** A key with a row all the time is shown for an object that is kept exactly when an operation modified it, and then
      as modified and not as new. */
  lemma HeldIsLiveIffModified(base: Table, ops: seq<Op>, u: Unit, after: Table, k: Key)
    requires Stages(base, ops, u, after) && AlwaysHeld(base, ops, k)
    ensures k in ModifiedKeys(u) <==> Modified(Opened(base), ops, k)
    ensures k in LiveKeys(u) <==> k in ModifiedKeys(u)
    ensures k !in NewKeys(u)
  {
    StageIsNoted(base, ops, u, after);
    var last, l := PerformAll(base, NEW_UNIT, ops).value, NoteAll(Opened(base), ops).value;
    RunFollows(base, ops, last, l);
    NewUnitFollows(base);
    HeldToTheEnd(base, ops, k);
    PerformAllLive(base, NEW_UNIT, ops, Opened(base), k);
    LastFlushLive(base, last, l, k);
    LiveKeysAre(u);
  }

  lemma LastFlushLive(base: Table, u: Unit, l: Ledger, k: Key)
    requires WellKeyed(base) && Follows(base, u, l) && k in l.table
    ensures Flushable(base, u.session) && (k in ModifiedKeys(FlushUnit(base, u).value) <==> LiveIn(u, k))
    ensures k in NewKeys(FlushUnit(base, u).value) <==> NewIn(u, k)
  {
    FlushFollows(base, u, l);
    FlushClears(base, u);
    StandingHolds(base, u.session, l, k);
    FlushKeepsLive(base, u, k);
    LiveInIsLive(base, FlushUnit(base, u).value, FlushNoted(l, l.table, Flush), k);
  }

  // ---------- Rows that were created ----------

  /** A key without a committed row belongs, if to anything, to an object that is new. */
  ghost predicate OnlyNew(u: Unit, k: Key) {
    k in u.session.identity ==> u.session.identity[k] in u.pendingNew + u.session.added
  }

  lemma FetchLoadsNothing(base: Table, s: Session, j: Key, k: Key)
    requires WellKeyed(base) && Coherent(base, s) && k !in base
    ensures k in Fetch(base, s, j).identity <==> k in s.identity
    ensures k in s.identity ==> Fetch(base, s, j).identity[k] == s.identity[k]
  {
    FetchLoads(base, s, j);
  }

  lemma LoadedLoadsNothing(base: Table, s: Session, op: Op, k: Key)
    requires WellKeyed(base) && Coherent(base, s) && k !in base && !op.Create? && !op.Flush?
    ensures var p := Loaded(base, s, op);
      (k in p.identity <==> k in s.identity) && (k in s.identity ==> p.identity[k] == s.identity[k])
  {
    FetchLoadsNothing(base, s, Target(op), k);
    if op.Append? {
      FetchKeepsCoherent(base, s, Target(op));
      FetchLoadsNothing(base, Fetch(base, s, Target(op)), op.other, k);
    }
  }

  lemma ChangedKeepsIdentity(s: Session, h: Handle, op: Op)
    requires !op.Create? && !op.Flush? && h < |s.objs| && (op.Append? ==> op.other in s.identity)
    ensures Changed(s, h, op).identity == s.identity
  {
  }

  lemma PreparedLoadsNothing(base: Table, s: Session, op: Op, k: Key)
    requires WellKeyed(base) && Coherent(base, s) && k !in base
    ensures var p := Prepared(base, s, op);
      (k in p.identity <==> k in s.identity) && (k in s.identity ==> p.identity[k] == s.identity[k])
  {
    if !op.Create? && !op.Flush? {
      LoadedIsCoherent(base, s, op);
      LoadedLoadsNothing(base, s, op, k);
      var loaded := Loaded(base, s, op);
      if Found(loaded, op) {
        ChangedKeepsIdentity(loaded, loaded.identity[Target(op)], op);
      }
    }
  }

  /** The object that a flush puts under a key is new, was there already, or has been moved there. */
  lemma ArrivalIs(base: Table, s: Session, op: Op, k: Key)
    requires WellKeyed(base) && Calm(base, s) && EndsWithFlush(base, s, op)
    requires var p := Prepared(base, s, op); Coherent(base, p) && FlushOk(base, p) && k in Flushed(base, p).identity
    requires NeverMovedTo([op], k) && k !in base
    ensures var p := Prepared(base, s, op); var h := Flushed(base, p).identity[k];
      h in p.added || (k in s.identity && s.identity[k] == h)
  {
    var p := Prepared(base, s, op);
    var h := Flushed(base, p).identity[k];
    FlushIdentity(base, p);
    assert [op][0] == op;
    if h !in p.added {
      var j := p.objs[h].ident.value;
      assert p.identity[j] == h;
      KeptHandle(base, s, op, j);
      PreparedLoadsNothing(base, s, op, k);
    }
  }

  /** A persistent object keeps the key it is under in the course of an operation, unless an update moves it. */
  lemma KeptHandle(base: Table, s: Session, op: Op, j: Key)
    requires WellKeyed(base) && Calm(base, s) && EndsWithFlush(base, s, op) && j in Prepared(base, s, op).identity
    ensures var p := Prepared(base, s, op);
      && p.identity[j] < |p.objs|
      && (KeyOf(p.objs[p.identity[j]]) == j ||
          (op.Update? && !KeepsKey(op) && KeyOf(p.objs[p.identity[j]]) == Destination(op)))
  {
    if op.Update? {
      FetchIsCalm(base, s, Target(op));
      var loaded := Fetch(base, s, Target(op));
      assert Prepared(base, s, op) == SetAttributes(loaded, loaded.identity[Target(op)], op.data);
      UpdatedHandle(base, loaded, op, j);
    } else if op.Create? {
      AddedHandle(base, s, op, j);
    }
  }

  lemma AddedHandle(base: Table, s: Session, op: Op, j: Key)
    requires Calm(base, s) && j in s.identity && op.Create?
    ensures var p := Add(s, op.model, Assign(op.model, op.defaults, op.data));
      p.identity == s.identity && p.identity[j] < |p.objs| && KeyOf(p.objs[p.identity[j]]) == j
  {
  }

  lemma UpdatedHandle(base: Table, s: Session, op: Op, j: Key)
    requires Calm(base, s) && op.Update? && Target(op) in s.identity && j in s.identity
    ensures var p := SetAttributes(s, s.identity[Target(op)], op.data);
      && p.identity == s.identity && p.identity[j] < |p.objs|
      && (KeyOf(p.objs[p.identity[j]]) == j ||
          (!KeepsKey(op) && KeyOf(p.objs[p.identity[j]]) == Destination(op)))
  {
    var h, g := s.identity[Target(op)], s.identity[j];
    assert s.objs[h].ident == Some(Target(op)) && s.objs[g].ident == Some(j);
    assert s.objs[h].model == op.model;
    assert g == h ==> j == Target(op);
  }

  lemma FetchIsCalm(base: Table, s: Session, k: Key)
    requires WellKeyed(base) && Calm(base, s)
    ensures Calm(base, Fetch(base, s, k)) && (Look(base, s, k).Some? ==> k in Fetch(base, s, k).identity)
  {
    FetchKeepsCoherent(base, s, k);
    FetchLoads(base, s, k);
  }

  lemma PerformOnlyNew(base: Table, u: Unit, op: Op, k: Key)
    requires WellKeyed(base) && Calm(base, u.session) && Perform(base, u, op).Some?
    requires k !in base && NeverMovedTo([op], k) && OnlyNew(u, k)
    ensures OnlyNew(Perform(base, u, op).value, k)
  {
    var p := Prepared(base, u.session, op);
    PerformIsPrepared(base, u, op);
    PreparedIsCoherent(base, u.session, op);
    PreparedLoadsNothing(base, u.session, op, k);
    if EndsWithFlush(base, u.session, op) && k in Flushed(base, p).identity {
      ArrivalIs(base, u.session, op, k);
    }
  }

  lemma {:induction false} PerformAllOnlyNew(base: Table, u: Unit, ops: seq<Op>, l: Ledger, k: Key)
    requires WellKeyed(base) && Follows(base, u, l) && NoteAll(l, ops).Some? && PerformAll(base, u, ops).Some?
    requires k !in base && NeverMovedTo(ops, k) && OnlyNew(u, k)
    ensures OnlyNew(PerformAll(base, u, ops).value, k)
    decreases |ops|
  {
    if ops != [] {
      assert [ops[0]][0] == ops[0];
      assert forall i :: 0 <= i < |ops| - 1 ==> ops[1..][i] == ops[i + 1];
      PerformFollows(base, u, ops[0], l);
      PerformOnlyNew(base, u, ops[0], k);
      PerformAllOnlyNew(base, Perform(base, u, ops[0]).value, ops[1..], Note(l, ops[0]).value, k);
    }
  }

  lemma RunOnlyNew(base: Table, ops: seq<Op>, last: Unit, u: Unit, k: Key)
    requires WellKeyed(base) && Coherent(base, NEW_UNIT.session) && NoteAll(Opened(base), ops).Some?
    requires PerformAll(base, NEW_UNIT, ops) == Some(last) && FlushUnit(base, last) == Some(u)
    requires NeverMovedTo(ops, k) && k !in base
    ensures OnlyNew(u, k)
  {
    RunFollows(base, ops, last, NoteAll(Opened(base), ops).value);
    NewUnitFollows(base);
    PerformAllOnlyNew(base, NEW_UNIT, ops, Opened(base), k);
    LastOnlyNew(base, last, NoteAll(Opened(base), ops).value, u, k);
  }

  lemma LastOnlyNew(base: Table, last: Unit, l: Ledger, u: Unit, k: Key)
    requires WellKeyed(base) && Follows(base, last, l) && FlushUnit(base, last) == Some(u)
    requires k !in base && OnlyNew(last, k)
    ensures OnlyNew(u, k)
  {
    assert Perform(base, last, Flush) == Some(u);
    PerformOnlyNew(base, last, Flush, k);
  }

  /** A row that is there after the confirmation under a key that had none, and to which no update moved a row, is shown
      as new. */
  lemma CreatedIsShownAsNew(base: Table, ops: seq<Op>, u: Unit, after: Table, k: Key)
    requires Stages(base, ops, u, after) && NeverMovedTo(ops, k) && k !in base && k in after
    ensures k in NewKeys(u)
  {
    StagedState(base, ops, u, after);
    RunOnlyNew(base, ops, PerformAll(base, NEW_UNIT, ops).value, u, k);
    ArrivedIsNew(base, u, FlushedLedger(base, ops, after), k);
  }

  lemma ArrivedIsNew(base: Table, u: Unit, l: Ledger, k: Key)
    requires Follows(base, u, l) && u.session.dirty == u.session.doomed == {}
    requires k in l.table && k !in base && OnlyNew(u, k)
    ensures k in NewKeys(u)
  {
    HeldIsIdentified(base, u, l, k);
    LiveInIsLive(base, u, l, k);
  }

  lemma HeldIsIdentified(base: Table, u: Unit, l: Ledger, k: Key)
    requires Follows(base, u, l) && k in l.table && k !in base
    ensures k in u.session.identity && u.session.added == {}
  {
    assert Left(base, u.session, k) == Find(l.table, k);
  }

  // ---------- Whole previews ----------

  /** A key whose row the confirmation changes is shown as new, modified or deleted. */
  ghost predicate Complete(base: Table, u: Unit, after: Table) {
    forall k :: Find(base, k) != Find(after, k) ==> Shown(u, k)
  }

  /** A key shown as deleted, and for no object that is kept, has no row after the confirmation. */
  ghost predicate DeletionsHold(u: Unit, after: Table) {
    forall k :: k in DeletedKeys(u) && k !in LiveKeys(u) ==> k !in after
  }

  /** The preview of a stage misses nothing exactly when every committed key that ends without a row had a row when
      it was deleted. */
  lemma CompleteIffErased(base: Table, ops: seq<Op>, u: Unit, after: Table)
    requires Stages(base, ops, u, after)
    ensures Complete(base, u, after) <==> forall k :: k in base && k !in after ==> k in Erased(base, ops)
  {
    forall k | Find(base, k) != Find(after, k) ensures Shown(u, k) <==> k in after || k in Erased(base, ops) {
      PreviewIsExact(base, ops, u, after, k);
    }
  }

  /** The deletions that a preview lists take place exactly when none of the keys that rows had when they were deleted
      has had a row all the time, other than one that is shown as modified. */
  lemma DeletionsHoldIff(base: Table, ops: seq<Op>, u: Unit, after: Table)
    requires Stages(base, ops, u, after)
    ensures DeletionsHold(u, after) <==>
      forall k :: k in Erased(base, ops) && AlwaysHeld(base, ops, k) ==> Modified(Opened(base), ops, k)
  {
    StagedState(base, ops, u, after);
    forall k | k in Erased(base, ops)
      ensures AlwaysHeld(base, ops, k) ==> (k in LiveKeys(u) <==> Modified(Opened(base), ops, k))
      ensures k !in LiveKeys(u) ==> (k in after <==> AlwaysHeld(base, ops, k))
    {
      if AlwaysHeld(base, ops, k) {
        HeldIsLiveIffModified(base, ops, u, after, k);
      }
      if k !in LiveKeys(u) {
        DeletionHoldsIff(base, ops, u, after, k);
      }
    }
  }

  /** The preview of a stage that moves no row to another key misses no change, and its deletions take place. */
  lemma PreviewIsComplete(base: Table, ops: seq<Op>, u: Unit, after: Table)
    requires Stages(base, ops, u, after)
    requires forall i :: 0 <= i < |ops| ==> KeepsKey(ops[i])
    ensures Complete(base, u, after) && DeletionsHold(u, after)
  {
    forall k | Find(base, k) != Find(after, k) ensures Shown(u, k) {
      ChangeIsShown(base, ops, u, after, k);
    }
    forall k | k in DeletedKeys(u) && k !in LiveKeys(u) ensures k !in after {
      DeletionHolds(base, ops, u, after, k);
    }
  }

  lemma OneOp(base: Table, op: Op)
    ensures TableAll(base, [op]) == TableOp(base, op)
  {
    assert [op][1..] == [];
  }

  lemma MovedAway(base: Table, op: Op, after: Table)
    requires op.Update? && Target(op) in base && !KeepsKey(op) && TableOp(base, op) == Some(after)
    ensures Target(op) !in after && NeverDeleted([op], Target(op)) && NeverMovedTo([op], Target(op))
  {
  }

  /** An update that does move a committed row to another key makes the old key vanish unshown: the preview of a
      single update is complete exactly when its data leaves the key alone. */
  lemma SingleUpdatePreview(base: Table, op: Op, u: Unit, after: Table)
    requires op.Update? && Target(op) in base && Stages(base, [op], u, after)
    ensures Complete(base, u, after) <==> KeepsKey(op)
  {
    if KeepsKey(op) {
      PreviewIsComplete(base, [op], u, after);
    } else {
      OneOp(base, op);
      MovedAway(base, op, after);
      MovedKeyIsUnshown(base, [op], u, after, Target(op));
    }
  }

  // ---------- Association rows ----------

  /** What a confirmation can change, and what a preview can list: rows of mapped classes, and association rows. */
  datatype Entry = RowOf(key: Key) | LinkRow(link: Link)

  /** The entries of a preview are those of its objects. */
  function Entries(u: Unit): set<Entry> {
    set k | k in ShownKeys(u) + DeletedKeys(u) :: RowOf(k)
  }

  predicate Changes(before: Store, after: Store, e: Entry) {
    match e
    case RowOf(k) => Find(before.rows, k) != Find(after.rows, k)
    case LinkRow(x) => (x in before.links) != (x in after.links)
  }

  /** Everything that the confirmation changes is listed. */
  ghost predicate FullyComplete(db: Store, u: Unit, after: Store) {
    forall e :: Changes(db, after, e) ==> e in Entries(u)
  }

  /** What a stage of the operations ends with: its unit, and what is committed once it is confirmed. */
  ghost predicate StagesAll(db: Store, ops: seq<Op>, u: Unit, after: Store) {
    WellKeyed(db.rows) && StageUnit(db.rows, ops) == Some(u) && Committed(db, u) == Some(after)
  }

  lemma StagedStore(db: Store, ops: seq<Op>, u: Unit, after: Store)
    requires StagesAll(db, ops, u, after)
    ensures Stages(db.rows, ops, u, after.rows) && after.links == LinksAfter(db.rows, db.links, ops)
  {
    StagedStands(db.rows, ops);
    LedgerTable(Opened(db.rows), ops);
    var l := NoteAll(Opened(db.rows), ops).value;
    CommitRepresented(db, u, FlushNoted(l, l.table, Flush));
    FlushKeepsView(db.links, l, l.table, Flush);
  }

  /** No preview ever lists an association row that the confirmation changes. */
  lemma LinksAreNeverShown(db: Store, ops: seq<Op>, u: Unit, after: Store, x: Link)
    requires StagesAll(db, ops, u, after)
    ensures Changes(db, after, LinkRow(x)) <==> (x in db.links) != (x in LinksAfter(db.rows, db.links, ops))
    ensures LinkRow(x) !in Entries(u)
  {
    StagedStore(db, ops, u, after);
  }

  lemma RowsListed(db: Store, u: Unit, after: Store)
    ensures Complete(db.rows, u, after.rows)
            <==> forall k :: Changes(db, after, RowOf(k)) ==> RowOf(k) in Entries(u)
  {
    forall k ensures RowOf(k) in Entries(u) <==> Shown(u, k) {}
    forall k ensures Changes(db, after, RowOf(k)) <==> Find(db.rows, k) != Find(after.rows, k) {}
  }

  lemma SameLinks(before: Store, after: Store)
    ensures after.links == before.links <==> forall x :: !Changes(before, after, LinkRow(x))
  {
    if forall x :: !Changes(before, after, LinkRow(x)) {
      forall x ensures x in after.links <==> x in before.links {
        assert !Changes(before, after, LinkRow(x));
      }
    }
  }

  lemma FullySplit(db: Store, u: Unit, after: Store)
    ensures FullyComplete(db, u, after) <==> Complete(db.rows, u, after.rows) && after.links == db.links
  {
    RowsListed(db, u, after);
    SameLinks(db, after);
    assert forall x :: LinkRow(x) !in Entries(u);
    assert FullyComplete(db, u, after) <==>
      && (forall k :: Changes(db, after, RowOf(k)) ==> RowOf(k) in Entries(u))
      && (forall x :: !Changes(db, after, LinkRow(x)));
  }

  /** A preview lists everything that its confirmation changes exactly when every committed key that ends without a row
      had one when it was deleted, and the operations leave the association rows as they are. */
  lemma FullyCompleteIff(db: Store, ops: seq<Op>, u: Unit, after: Store)
    requires StagesAll(db, ops, u, after)
    ensures TableAll(db.rows, ops) == Some(after.rows)
    ensures FullyComplete(db, u, after) <==>
      && (forall k :: k in db.rows && k !in after.rows ==> k in Erased(db.rows, ops))
      && LinksAfter(db.rows, db.links, ops) == db.links
  {
    StagedStore(db, ops, u, after);
    CompleteIffErased(db.rows, ops, u, after.rows);
    FullySplit(db, u, after);
  }

  ghost predicate NoDeletes(ops: seq<Op>) { forall i :: 0 <= i < |ops| ==> !ops[i].Delete? }

  /** Every append finds one of its rows missing or the two linked already. */
  predicate AddsNoLink(t: Table, links: set<Link>, ops: seq<Op>)
    decreases |ops|
  {
    ops == [] || TableOp(t, ops[0]).None?
    || (LinkOp(t, links, ops[0]) == links && AddsNoLink(TableOp(t, ops[0]).value, links, ops[1..]))
  }

  lemma {:induction false} LinksOnlyGrow(t: Table, links: set<Link>, ops: seq<Op>)
    requires NoDeletes(ops)
    ensures links <= LinkAll(t, links, ops)
    ensures LinkAll(t, links, ops) == links <==> AddsNoLink(t, links, ops)
    decreases |ops|
  {
    if ops != [] && TableOp(t, ops[0]).Some? {
      var next := LinkOp(t, links, ops[0]);
      assert links <= next;
      assert forall i :: 0 <= i < |ops| - 1 ==> ops[1..][i] == ops[i + 1];
      LinksOnlyGrow(TableOp(t, ops[0]).value, next, ops[1..]);
    }
  }

  /** For a stage that neither deletes nor moves a row, the preview is complete exactly when no append adds a link. */
  lemma AppendsAreMissed(db: Store, ops: seq<Op>, u: Unit, after: Store)
    requires StagesAll(db, ops, u, after) && NoDeletes(ops)
    requires forall i :: 0 <= i < |ops| ==> KeepsKey(ops[i])
    ensures FullyComplete(db, u, after) <==> AddsNoLink(db.rows, db.links, ops)
  {
    StagedStore(db, ops, u, after);
    FullyCompleteIff(db, ops, u, after);
    PreviewIsComplete(db.rows, ops, u, after.rows);
    CompleteIffErased(db.rows, ops, u, after.rows);
    StageIsNoted(db.rows, ops, u, after.rows);
    KeptKeysLeaveAppended(Opened(db.rows), ops);
    LinksAfterAre(db.rows, db.links, ops);
    LinksOnlyGrow(db.rows, db.links, ops);
  }

  /** The operations of the user service's stage: a user, and the given roles appended to it. */
  function UserStage(user: Model, data: Data, defaults: Row, roles: seq<Key>): (ops: seq<Op>)
    ensures |ops| == 1 + |roles|
  {
    var id := Assign(user, defaults, data).id;
    [Create(user, data, defaults)] + RoleAppends(user, id, roles)
  }

  function RoleAppends(user: Model, id: string, roles: seq<Key>): (ops: seq<Op>)
    ensures |ops| == |roles| && forall i :: 0 <= i < |ops| ==> ops[i] == Append(user, id, roles[i])
    decreases |roles|
  {
    if roles == [] then [] else [Append(user, id, roles[0])] + RoleAppends(user, id, roles[1..])
  }

  lemma {:induction false} RolesAddNoLink(t: Table, links: set<Link>, user: Model, id: string, roles: seq<Key>)
    requires Key(user, id) in t && forall x :: x in links ==> x.owner != Key(user, id)
    ensures AddsNoLink(t, links, RoleAppends(user, id, roles)) <==> forall i :: 0 <= i < |roles| ==> roles[i] !in t
    decreases |roles|
  {
    if roles != [] {
      var ops := RoleAppends(user, id, roles);
      assert ops[1..] == RoleAppends(user, id, roles[1..]);
      assert ops[0] == Append(user, id, roles[0]) && TableOp(t, ops[0]) == Some(t);
      RolesAddNoLink(t, links, user, id, roles[1..]);
      assert Link(Key(user, id), roles[0]) !in links;
    }
  }

  /** The preview of a staged user lists everything exactly when none of the given roles exists: the association rows of
      those that do are inserted unseen. */
  lemma UserPreview(db: Store, user: Model, data: Data, defaults: Row, roles: seq<Key>, u: Unit, after: Store)
    requires StagesAll(db, UserStage(user, data, defaults, roles), u, after)
    requires forall x :: x in db.links ==> x.owner != Key(user, Assign(user, defaults, data).id)
    requires forall i :: 0 <= i < |roles| ==> roles[i].model != user
    ensures FullyComplete(db, u, after) <==> forall i :: 0 <= i < |roles| ==> roles[i] !in db.rows
  {
    var ops := UserStage(user, data, defaults, roles);
    StagedStore(db, ops, u, after);
    UserStageKeeps(user, data, defaults, roles);
    AppendsAreMissed(db, ops, u, after);
    UserStageAdds(db, user, data, defaults, roles);
  }

  lemma UserStageKeeps(user: Model, data: Data, defaults: Row, roles: seq<Key>)
    ensures var ops := UserStage(user, data, defaults, roles);
      NoDeletes(ops) && forall i :: 0 <= i < |ops| ==> KeepsKey(ops[i])
  {
    var ops := UserStage(user, data, defaults, roles);
    var appends := RoleAppends(user, Assign(user, defaults, data).id, roles);
    forall i | 0 <= i < |ops| ensures !ops[i].Delete? && !ops[i].Update? {
      assert i > 0 ==> ops[i] == appends[i - 1];
    }
  }

  lemma UserStageAdds(db: Store, user: Model, data: Data, defaults: Row, roles: seq<Key>)
    requires TableAll(db.rows, UserStage(user, data, defaults, roles)).Some?
    requires forall x :: x in db.links ==> x.owner != Key(user, Assign(user, defaults, data).id)
    requires forall i :: 0 <= i < |roles| ==> roles[i].model != user
    ensures AddsNoLink(db.rows, db.links, UserStage(user, data, defaults, roles))
            <==> forall i :: 0 <= i < |roles| ==> roles[i] !in db.rows
  {
    var ops, row := UserStage(user, data, defaults, roles), Assign(user, defaults, data);
    var k := Key(user, row.id);
    assert ops[1..] == RoleAppends(user, row.id, roles);
    assert TableOp(db.rows, ops[0]) == Some(db.rows[k := row]);
    RolesAddNoLink(db.rows[k := row], db.links, user, row.id, roles);
  }

  // ---------- Where a preview misleads ----------

  const USER := Model("User", {"username"}, {"username"})
  const ROLE := Model("Role", {"name"}, {"name"})

  /** A user is staged with the one role there is: the confirmation links them, and the preview does not say so. */
  lemma RoleIsMissed() returns (u: Unit, after: Store)
    ensures var role, user := Key(ROLE, "9"), Key(USER, "1");
      var db := Store(map[role := Row("9", map["name" := "admin"])], {});
      && StagesAll(db, UserStage(USER, Data(Some("1"), map["username" := "bob"]), Row("", map[]), [role]), u, after)
      && Link(user, role) in after.links && LinkRow(Link(user, role)) !in Entries(u)
  {
    var role, user := Key(ROLE, "9"), Key(USER, "1");
    var db := Store(map[role := Row("9", map["name" := "admin"])], {});
    var data, row := Data(Some("1"), map["username" := "bob"]), Row("1", map["username" := "bob"]);
    var make, link := Create(USER, data, Row("", map[])), Append(USER, "1", role);
    assert Deserialize(USER, data.cols) == data.cols && Assign(USER, make.defaults, data) == row;
    assert USER != ROLE by { assert "username" in USER.columns && "username" !in ROLE.columns; }
    var t := db.rows[user := row];
    assert !Taken(db.rows, user, row) && !Taken(map[], user, row);
    assert TableOp(db.rows, make) == Some(t);
    var l := FlushNoted(Opened(db.rows), t, make);
    assert Note(Opened(db.rows), make) == Some(l);
    var m := l.(appended := {Link(user, role)});
    assert l.appended + {Link(user, role)} == {Link(user, role)};
    assert Note(l, link) == Some(m);
    NoteTwo(Opened(db.rows), make, link);
    assert RoleAppends(USER, "1", [role]) == [link];
    assert UserStage(USER, data, Row("", map[]), [role]) == [make, link];
    u := StageOf(db.rows, [make, link], m);
    StagedStands(db.rows, [make, link]);
    CommitRepresented(db, u, FlushNoted(m, m.table, Flush));
    after := Committed(db, u).value;
    StagedStore(db, [make, link], u, after);
    assert Link(user, role) in LinkView({}, m);
  }

  const THING := Model("Thing", {}, {})

  /** Moving the row "a" to "b": the old key is gone and the preview says nothing of it. */
  lemma MoveIsMissed() returns (u: Unit, after: Table)
    ensures var a, base := Key(THING, "a"), map[Key(THING, "a") := Row("a", map[])];
      && Stages(base, [Update(THING, "a", Data(Some("b"), map[]))], u, after)
      && a in base && a !in after && !Shown(u, a)
  {
    var a, b, base := Key(THING, "a"), Key(THING, "b"), map[Key(THING, "a") := Row("a", map[])];
    var op := Update(THING, "a", Data(Some("b"), map[]));
    after := (base - {a})[b := Row("b", map[])];
    MoveIsNoted();
    u := StageOf(base, [op], FlushNoted(Opened(base), after, op));
    MovedAway(base, op, after);
    MovedKeyIsUnshown(base, [op], u, after, a);
  }

  lemma MoveIsNoted()
    ensures var a, base := Key(THING, "a"), map[Key(THING, "a") := Row("a", map[])];
      var op, after := Update(THING, "a", Data(Some("b"), map[])), (base - {a})[Key(THING, "b") := Row("b", map[])];
      && TableOp(base, op) == Some(after)
      && NoteAll(Opened(base), [op]) == Some(FlushNoted(Opened(base), after, op))
  {
    var a, base := Key(THING, "a"), map[Key(THING, "a") := Row("a", map[])];
    var op := Update(THING, "a", Data(Some("b"), map[]));
    assert "a" != "b" by { assert "a"[0] != "b"[0]; }
    var after := (base - {a})[Key(THING, "b") := Row("b", map[])];
    assert Assign(THING, base[a], op.data) == Row("b", map[]);
    assert TableOp(base, op) == Some(after);
    assert !Taken(base, a, Row("b", map[])) && !Taken(map[], a, Row("b", map[]));
    var l := FlushNoted(Opened(base), after, op);
    assert [op][1..] == [] && Note(Opened(base), op) == Some(l);
    assert NoteAll(Opened(base), [op]) == NoteAll(l, []);
  }

  lemma StageOf(base: Table, ops: seq<Op>, l: Ledger) returns (u: Unit)
    requires WellKeyed(base) && NoteAll(Opened(base), ops) == Some(l)
    ensures Stages(base, ops, u, l.table)
  {
    StagedIsSequential(base, ops);
    LedgerTable(Opened(base), ops);
    u := StageUnit(base, ops).value;
  }

  /** Deleting the row "a" and then updating it to the key "b" before the deletion is flushed: the preview lists the
      row "b" as deleted, and it stays. */
  lemma KeptRowIsListedAsDeleted() returns (u: Unit, after: Table)
    ensures var base := map[Key(THING, "a") := Row("a", map[]), Key(THING, "b") := Row("b", map[])];
      && Stages(base, [Delete(THING, "a"), Update(THING, "a", Data(Some("b"), map[]))], u, after)
      && Key(THING, "b") in DeletedKeys(u) && Key(THING, "b") in after && Key(THING, "a") !in DeletedKeys(u)
  {
    var a, b := Key(THING, "a"), Key(THING, "b");
    var base := map[a := Row("a", map[]), b := Row("b", map[])];
    var gone, move := Delete(THING, "a"), Update(THING, "a", Data(Some("b"), map[]));
    assert "a" != "b" by { assert "a"[0] != "b"[0]; }
    after := base - {a};
    var l := Ledger(after, map[a := base[a]], {}, {}, NO_RELINKING);
    assert {} + {a} == {a} && base - {Key(THING, "a")} == after;
    assert Apart({}, {a}) == {};
    assert Note(Opened(base), gone) == Some(l);
    assert DoomedAt(l.doomed, move) == {b} && {} + {b} == {b};
    assert Note(l, move) == Some(FlushNoted(l, after, move)) && FlushNoted(l, after, move).erased == {b};
    NoteTwo(Opened(base), gone, move);
    u := StageOf(base, [gone, move], FlushNoted(l, after, move));
    StagedState(base, [gone, move], u, after);
  }

  lemma NoteTwo(l: Ledger, first: Op, second: Op)
    requires Note(l, first).Some?
    ensures NoteAll(l, [first, second]) == Note(Note(l, first).value, second)
  {
    var m := Note(l, first).value;
    assert [first, second][1..] == [second] && [second][1..] == [];
    assert NoteAll(m, [second]) == Note(m, second);
  }
}
