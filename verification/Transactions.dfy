/** What a transaction does to the table its session stands for: the operations on the session against the same
    operations on a bare table, single and in sequence. */
module Transactions {
  import opened Wrappers
  import opened Orm
  import opened Ledgers

  /** Between two operations every loaded object shows its row, although some rows are about to be deleted. */
  ghost predicate Calm(base: Table, s: Session) {
    && Coherent(base, s) && s.added == {}
    && (forall k :: k in s.identity ==>
          KeyOf(s.objs[s.identity[k]]) == k && Look(base, s, k) == Some(s.objs[s.identity[k]].row))
  }

  /** What will be left under a key once the pending deletions are flushed. */
  function Left(base: Table, s: Session, k: Key): Option<Row> {
    if k in s.identity && s.identity[k] in s.doomed then None else Look(base, s, k)
  }

  /** The session stands for the table. */
  ghost predicate Represents(base: Table, s: Session, t: Table) {
    Calm(base, s) && forall k :: Left(base, s, k) == Find(t, k)
  }

  lemma FetchIsSilent(base: Table, s: Session, k: Key, t: Table)
    requires Represents(base, s, t) && WellKeyed(base)
    ensures Represents(base, Fetch(base, s, k), t)
  {
    var loaded := Fetch(base, s, k);
    FetchKeepsCoherent(base, s, k);
    FetchLoads(base, s, k);
    forall j ensures Left(base, loaded, j) == Left(base, s, j) {
    }
  }

  /** After a flush the session stands for any table that agrees with what the flush leaves visible. */
  lemma FlushRepresents(base: Table, s: Session, t: Table)
    requires Coherent(base, s) && FlushOk(base, s)
    requires var f := Flushed(base, s); forall k :: Find(t, k) == Look(base, f, k)
    ensures Represents(base, Flushed(base, s), t)
  {
    FlushKeepsCoherent(base, s);
    FlushIdentity(base, s);
    forall k | k in Flushed(base, s).identity {
      FlushedKey(base, s, k);
    }
  }

  lemma AddSurvivor(base: Table, s: Session, model: Model, row: Row, h: Handle)
    requires Calm(base, s)
    ensures var a := Add(s, model, row);
      h in Survivors(a) <==>
        || h == |s.objs|
        || (h < |s.objs| && KeyOf(a.objs[h]) in s.identity && s.identity[KeyOf(a.objs[h])] == h && h !in s.doomed)
    ensures KeyOf(Add(s, model, row).objs[|s.objs|]) == Key(model, row.id)
  {
  }

  lemma AddClashes(base: Table, s: Session, model: Model, row: Row, t: Table)
    requires Represents(base, s, t) && Key(model, row.id) in t
    ensures !FlushOk(base, Add(s, model, row))
  {
    var key, n, a := Key(model, row.id), |s.objs|, Add(s, model, row);
    assert Left(base, s, key) == Find(t, key);
    AddSurvivor(base, s, model, row, n);
    assert n in Writes(a);
    if key in s.identity {
      AddSurvivor(base, s, model, row, s.identity[key]);
    }
  }

  lemma AddPasses(base: Table, s: Session, model: Model, row: Row, t: Table)
    requires Represents(base, s, t) && Key(model, row.id) !in t
    ensures FlushOk(base, Add(s, model, row))
  {
    var key, n, a := Key(model, row.id), |s.objs|, Add(s, model, row);
    assert Left(base, s, key) == Find(t, key);
    forall g | g in Survivors(a) && g != n
      ensures KeyOf(a.objs[g]) in s.identity && s.identity[KeyOf(a.objs[g])] == g && g !in s.doomed
    {
      AddSurvivor(base, s, model, row, g);
    }
  }

  lemma AddFlushes(base: Table, s: Session, model: Model, row: Row, t: Table)
    requires Represents(base, s, t)
    ensures FlushOk(base, Add(s, model, row)) <==> Key(model, row.id) !in t
  {
    if Key(model, row.id) in t {
      AddClashes(base, s, model, row, t);
    } else {
      AddPasses(base, s, model, row, t);
    }
  }

  /** Which object a key belongs to after an insertion is flushed. */
  lemma AddIdentity(base: Table, s: Session, model: Model, row: Row, k: Key)
    requires Calm(base, s) && FlushOk(base, Add(s, model, row))
    ensures var f := Flushed(base, Add(s, model, row));
      if k == Key(model, row.id) then k in f.identity && f.identity[k] == |s.objs|
      else (k in f.identity <==> k in s.identity && s.identity[k] !in s.doomed)
           && (k in f.identity ==> f.identity[k] == s.identity[k])
  {
    var n, a := |s.objs|, Add(s, model, row);
    AddKeepsCoherent(base, s, model, row);
    FlushIdentity(base, a);
    if k == Key(model, row.id) {
      AddSurvivor(base, s, model, row, n);
    } else if k in s.identity {
      AddSurvivor(base, s, model, row, s.identity[k]);
    }
    var f := Flushed(base, a);
    if k in f.identity {
      AddSurvivor(base, s, model, row, f.identity[k]);
    }
  }

  lemma AddTouches(base: Table, s: Session, model: Model, row: Row, k: Key)
    requires Calm(base, s) && k != Key(model, row.id)
    ensures InRange(Add(s, model, row))
    ensures k in Touched(Add(s, model, row)) <==> k in s.identity && s.identity[k] in s.dirty + s.doomed
  {
    var a := Add(s, model, row);
    if k in s.identity && s.identity[k] in s.dirty + s.doomed {
      assert a.objs[s.identity[k]].ident == Some(k);
    }
  }

  lemma CreateAt(base: Table, s: Session, model: Model, row: Row, t: Table, k: Key)
    requires Represents(base, s, t) && FlushOk(base, Add(s, model, row))
    ensures Look(base, Flushed(base, Add(s, model, row)), k)
            == if k == Key(model, row.id) then Some(row) else Find(t, k)
  {
    AddKeepsCoherent(base, s, model, row);
    AddIdentity(base, s, model, row, k);
    FlushedKey(base, Add(s, model, row), k);
    if k != Key(model, row.id) {
      AddTouches(base, s, model, row, k);
      assert Left(base, s, k) == Find(t, k);
    }
  }

  lemma CreateRefines(base: Table, s: Session, model: Model, row: Row, t: Table)
    requires Represents(base, s, t) && Key(model, row.id) !in t
    ensures FlushOk(base, Add(s, model, row))
    ensures Represents(base, Flushed(base, Add(s, model, row)), t[Key(model, row.id) := row])
  {
    AddFlushes(base, s, model, row, t);
    AddKeepsCoherent(base, s, model, row);
    forall k {
      CreateAt(base, s, model, row, t, k);
    }
    FlushRepresents(base, Add(s, model, row), t[Key(model, row.id) := row]);
  }

  lemma RewriteSurvivor(base: Table, s: Session, k: Key, row: Row, g: Handle)
    requires Calm(base, s) && k in s.identity
    ensures var h := s.identity[k]; var r := Rewrite(s, h, row);
      && (h in Survivors(r) <==> h !in s.doomed) && KeyOf(r.objs[h]) == Key(k.model, row.id)
      && (g != h ==> (g in Survivors(r) <==>
            g < |s.objs| && KeyOf(r.objs[g]) in s.identity && s.identity[KeyOf(r.objs[g])] == g && g !in s.doomed))
  {
  }

  lemma RewriteClashes(base: Table, s: Session, k: Key, row: Row, t: Table)
    requires Represents(base, s, t) && k in s.identity && s.identity[k] !in s.doomed
    requires Key(k.model, row.id) != k && Key(k.model, row.id) in t
    ensures !FlushOk(base, Rewrite(s, s.identity[k], row))
  {
    var h, moved := s.identity[k], Key(k.model, row.id);
    var r := Rewrite(s, h, row);
    assert Left(base, s, moved) == Find(t, moved);
    RewriteSurvivor(base, s, k, row, h);
    assert h in Writes(r);
    if moved in s.identity {
      RewriteSurvivor(base, s, k, row, s.identity[moved]);
      assert KeyOf(r.objs[s.identity[moved]]) == moved;
    }
  }

  lemma RewritePasses(base: Table, s: Session, k: Key, row: Row, t: Table)
    requires Represents(base, s, t) && k in s.identity
    requires s.identity[k] in s.doomed || Key(k.model, row.id) == k || Key(k.model, row.id) !in t
    ensures FlushOk(base, Rewrite(s, s.identity[k], row))
  {
    var h, moved := s.identity[k], Key(k.model, row.id);
    var r := Rewrite(s, h, row);
    assert Left(base, s, moved) == Find(t, moved);
    RewriteSurvivor(base, s, k, row, h);
    forall g | g in Survivors(r) && g != h
      ensures KeyOf(r.objs[g]) in s.identity && s.identity[KeyOf(r.objs[g])] == g && g !in s.doomed
    {
      RewriteSurvivor(base, s, k, row, g);
    }
  }

  lemma RewriteFlushes(base: Table, s: Session, k: Key, row: Row, t: Table)
    requires Represents(base, s, t) && k in s.identity
    ensures FlushOk(base, Rewrite(s, s.identity[k], row))
            <==> s.identity[k] in s.doomed || Key(k.model, row.id) == k || Key(k.model, row.id) !in t
  {
    if s.identity[k] in s.doomed || Key(k.model, row.id) == k || Key(k.model, row.id) !in t {
      RewritePasses(base, s, k, row, t);
    } else {
      RewriteClashes(base, s, k, row, t);
    }
  }

  lemma RewriteIdentity(base: Table, s: Session, k: Key, row: Row, j: Key)
    requires Calm(base, s) && k in s.identity && FlushOk(base, Rewrite(s, s.identity[k], row))
    ensures var h := s.identity[k]; var f := Flushed(base, Rewrite(s, h, row));
      if j == Key(k.model, row.id) && h !in s.doomed then j in f.identity && f.identity[j] == h
      else (j in f.identity <==> j != k && j in s.identity && s.identity[j] !in s.doomed)
           && (j in f.identity ==> f.identity[j] == s.identity[j])
  {
    var h := s.identity[k];
    var r := Rewrite(s, h, row);
    var f := Flushed(base, r);
    RewriteKeepsCoherent(base, s, k, row);
    FlushIdentity(base, r);
    RewriteSurvivor(base, s, k, row, h);
    if j in s.identity {
      RewriteSurvivor(base, s, k, row, s.identity[j]);
    }
    if j in f.identity {
      RewriteSurvivor(base, s, k, row, f.identity[j]);
    }
  }

  lemma RewriteTouches(base: Table, s: Session, k: Key, row: Row, j: Key)
    requires Calm(base, s) && k in s.identity
    requires j != Key(k.model, row.id) || s.identity[k] in s.doomed
    ensures var r := Rewrite(s, s.identity[k], row);
      InRange(r) && (j in Touched(r) <==> j in s.identity && s.identity[j] in s.dirty + s.doomed + {s.identity[k]})
  {
    var h := s.identity[k];
    var r := Rewrite(s, h, row);
    RewriteKeepsMapped(s, k, row);
    TouchedIff(r, j);
    if j in s.identity {
      assert r.objs[s.identity[j]].ident == Some(j);
    }
    forall g | g in Writes(r) && KeyOf(r.objs[g]) == j ensures j in s.identity && s.identity[j] == g && g in s.dirty {
      assert g != h && r.objs[g] == s.objs[g];
    }
  }

  lemma TouchedIff(s: Session, j: Key)
    requires Mapped(s)
    ensures j in Touched(s) <==>
      (j in s.identity && s.identity[j] in s.dirty + s.doomed) || (exists g :: g in Writes(s) && KeyOf(s.objs[g]) == j)
  {
    if j in s.identity && s.identity[j] in s.dirty + s.doomed {
      assert s.objs[s.identity[j]].ident == Some(j);
    }
  }

  lemma RewriteAt(base: Table, s: Session, k: Key, row: Row, t: Table, j: Key)
    requires Represents(base, s, t) && k in s.identity && FlushOk(base, Rewrite(s, s.identity[k], row))
    ensures Look(base, Flushed(base, Rewrite(s, s.identity[k], row)), j) ==
            if s.identity[k] in s.doomed then Find(t, j)
            else if j == Key(k.model, row.id) then Some(row)
            else if j == k then None
            else Find(t, j)
  {
    if j == Key(k.model, row.id) && s.identity[k] !in s.doomed {
      RewriteAtTarget(base, s, k, row);
    } else {
      RewriteElsewhere(base, s, k, row, j);
      LeftIs(base, s, t, j);
    }
  }

  lemma RewriteAtTarget(base: Table, s: Session, k: Key, row: Row)
    requires Calm(base, s) && k in s.identity && s.identity[k] !in s.doomed
    requires FlushOk(base, Rewrite(s, s.identity[k], row))
    ensures Look(base, Flushed(base, Rewrite(s, s.identity[k], row)), Key(k.model, row.id)) == Some(row)
  {
    var j := Key(k.model, row.id);
    RewriteKeepsCoherent(base, s, k, row);
    RewriteIdentity(base, s, k, row, j);
    FlushedKey(base, Rewrite(s, s.identity[k], row), j);
  }

  lemma RewriteElsewhere(base: Table, s: Session, k: Key, row: Row, j: Key)
    requires Calm(base, s) && k in s.identity && FlushOk(base, Rewrite(s, s.identity[k], row))
    requires j != Key(k.model, row.id) || s.identity[k] in s.doomed
    ensures Look(base, Flushed(base, Rewrite(s, s.identity[k], row)), j) ==
            if j == k || (j in s.identity && s.identity[j] in s.doomed) then None
            else if j in s.identity then Some(s.objs[s.identity[j]].row)
            else Look(base, s, j)
  {
    var r := Rewrite(s, s.identity[k], row);
    RewriteKeepsCoherent(base, s, k, row);
    RewriteIdentity(base, s, k, row, j);
    RewriteTouches(base, s, k, row, j);
    FlushedKey(base, r, j);
    if j in s.identity && j != k {
      OthersKeepRow(s, k, row, j);
    }
  }

  lemma OthersKeepRow(s: Session, k: Key, row: Row, j: Key)
    requires Mapped(s) && k in s.identity && j in s.identity && j != k
    ensures Rewrite(s, s.identity[k], row).objs[s.identity[j]] == s.objs[s.identity[j]]
  {
  }

  /** What is left under a key, spelled out. */
  lemma LeftIs(base: Table, s: Session, t: Table, j: Key)
    requires Represents(base, s, t)
    ensures Find(t, j) == if j !in s.identity then Look(base, s, j)
                          else if s.identity[j] in s.doomed then None
                          else Some(s.objs[s.identity[j]].row)
  {
    assert Left(base, s, j) == Find(t, j);
  }

  lemma PlainFlush(base: Table, s: Session, t: Table)
    requires Represents(base, s, t)
    ensures FlushOk(base, s) && Represents(base, Flushed(base, s), t)
  {
    CalmFlushes(base, s);
    var f := Flushed(base, s);
    forall j ensures Find(t, j) == Look(base, f, j) {
      PlainFlushAt(base, s, t, j);
    }
    FlushRepresents(base, s, t);
  }

  /** Objects that show their rows flush without a clash. */
  lemma CalmFlushes(base: Table, s: Session)
    requires Calm(base, s)
    ensures FlushOk(base, s)
  {
    assert forall h :: h in Survivors(s) ==> s.objs[h].ident == Some(KeyOf(s.objs[h]));
  }

  lemma PlainFlushAt(base: Table, s: Session, t: Table, j: Key)
    requires Represents(base, s, t) && FlushOk(base, s)
    ensures Find(t, j) == Look(base, Flushed(base, s), j)
  {
    FlushedKey(base, s, j);
    LeftIs(base, s, t, j);
    if j in s.identity {
      PlainTouch(base, s, j);
    } else {
      PlainUntouched(base, s, j);
    }
  }

  lemma PlainUntouched(base: Table, s: Session, j: Key)
    requires Calm(base, s) && FlushOk(base, s) && j !in s.identity
    ensures j !in Touched(s) && j !in Flushed(base, s).identity
  {
    FlushIdentity(base, s);
    TouchedIff(s, j);
    forall h | h in Survivors(s) ensures KeyOf(s.objs[h]) in s.identity {
      assert s.objs[h].ident.Some? && s.identity[s.objs[h].ident.value] == h;
    }
    assert Writes(s) <= Survivors(s);
  }

  lemma PlainTouch(base: Table, s: Session, j: Key)
    requires Calm(base, s) && FlushOk(base, s) && j in s.identity
    ensures s.identity[j] in s.doomed ==> j in Touched(s) && j !in Flushed(base, s).identity
    ensures s.identity[j] !in s.doomed ==>
      j in Flushed(base, s).identity && Flushed(base, s).identity[j] == s.identity[j]
  {
    FlushIdentity(base, s);
    assert s.objs[s.identity[j]].ident == Some(j);
  }

  lemma DoomIsCalm(base: Table, s: Session, k: Key)
    requires Calm(base, s) && k in s.identity
    ensures Calm(base, s.(doomed := s.doomed + {s.identity[k]}))
  {
    DoomKeepsCoherent(base, s, k);
  }

  lemma LeftAfterDoom(base: Table, s: Session, k: Key, t: Table, j: Key)
    requires Represents(base, s, t) && k in s.identity
    ensures Left(base, s.(doomed := s.doomed + {s.identity[k]}), j) == Find(t - {k}, j)
  {
    assert Left(base, s, j) == Find(t, j);
    assert j in s.identity ==> s.objs[s.identity[j]].ident == Some(j);
  }

  lemma DoomRepresents(base: Table, s: Session, k: Key, t: Table)
    requires Represents(base, s, t) && k in s.identity
    ensures Represents(base, s.(doomed := s.doomed + {s.identity[k]}), t - {k})
  {
    DoomIsCalm(base, s, k);
    forall j ensures Left(base, s.(doomed := s.doomed + {s.identity[k]}), j) == Find(t - {k}, j) {
      LeftAfterDoom(base, s, k, t, j);
    }
  }

  // ---------- Statements against the pending deletions ----------

  /** The rows whose objects are about to be deleted. */
  ghost predicate DoomedAre(base: Table, s: Session, doomed: Table) {
    && (forall k :: k in doomed <==> k in s.identity && s.identity[k] in s.doomed)
    && (forall k :: k in doomed ==> Look(base, s, k) == Some(doomed[k]))
  }

  /** The session stands for the ledger. */
  ghost predicate Stands(base: Table, s: Session, l: Ledger) {
    && Represents(base, s, l.table) && DoomedAre(base, s, l.doomed)
    && NewLinks(s) == l.appended && s.relinking == l.relinking
  }

  /** The database still has the doomed rows beside those of the table. */
  lemma SeenIs(base: Table, s: Session, l: Ledger, j: Key)
    requires Stands(base, s, l)
    ensures j in l.table ==> j !in l.doomed
    ensures Find(Patched(base, s.overlay), j) == if j in l.table then Some(l.table[j]) else Find(l.doomed, j)
  {
    assert Left(base, s, j) == Find(l.table, j);
  }

  lemma TakenSeen(base: Table, s: Session, l: Ledger, k: Key, row: Row)
    requires Stands(base, s, l)
    ensures Taken(Patched(base, s.overlay), k, row) <==> Taken(l.table, k, row) || Taken(l.doomed, k, row)
  {
    var seen := Patched(base, s.overlay);
    forall j ensures (j in l.table ==> j !in l.doomed)
                     && Find(seen, j) == if j in l.table then Some(l.table[j]) else Find(l.doomed, j) {
      SeenIs(base, s, l, j);
    }
    TakenInEither(seen, l.table, l.doomed, k, row);
  }

  lemma TakenInEither(seen: Table, a: Table, b: Table, k: Key, row: Row)
    requires forall j :: (j in a ==> j !in b) && Find(seen, j) == if j in a then Some(a[j]) else Find(b, j)
    ensures Taken(seen, k, row) <==> Taken(a, k, row) || Taken(b, k, row)
  {
    assert forall j :: j in a ==> Find(seen, j) == Some(a[j]);
    assert forall j :: j in b ==> Find(seen, j) == Some(b[j]);
    assert forall j :: j in seen ==> j in a || j in b;
  }

  lemma CalmPasses(base: Table, s: Session)
    requires Calm(base, s)
    ensures StatementsPass(base, s)
  {
    forall h | h in Writes(s) ensures StatementPasses(base, s, s.objs[h]) {
      assert s.identity[s.objs[h].ident.value] == h;
    }
  }

  lemma AddStatements(base: Table, s: Session, model: Model, row: Row)
    requires Calm(base, s)
    ensures InRange(Add(s, model, row))
    ensures StatementsPass(base, Add(s, model, row)) <==> !Taken(Patched(base, s.overlay), Key(model, row.id), row)
  {
    var a, n := Add(s, model, row), |s.objs|;
    CalmPasses(base, s);
    assert n in Writes(a);
    forall h | h in Writes(a) && h != n ensures StatementPasses(base, a, a.objs[h]) {
      assert h in Writes(s) && a.objs[h] == s.objs[h] && StatementPasses(base, s, s.objs[h]);
      SameStatement(base, s, a, s.objs[h]);
    }
  }

  lemma SameStatement(base: Table, s: Session, t: Session, o: Obj)
    requires t.overlay == s.overlay
    ensures StatementPasses(base, t, o) == StatementPasses(base, s, o)
  {
  }

  lemma RewriteStatements(base: Table, s: Session, k: Key, row: Row)
    requires Calm(base, s) && k in s.identity
    ensures InRange(Rewrite(s, s.identity[k], row))
    ensures StatementsPass(base, Rewrite(s, s.identity[k], row))
            <==> s.identity[k] in s.doomed || StatementPasses(base, s, s.objs[s.identity[k]].(row := row))
  {
    var h := s.identity[k];
    var r := Rewrite(s, h, row);
    CalmPasses(base, s);
    forall g | g in Writes(r) && g != h ensures StatementPasses(base, r, r.objs[g]) {
      assert g in Writes(s) && r.objs[g] == s.objs[g] && StatementPasses(base, s, s.objs[g]);
      SameStatement(base, s, r, s.objs[g]);
    }
    SameStatement(base, s, r, r.objs[h]);
    assert h in Writes(r) <==> h !in s.doomed;
  }

  /** Objects other than the one an operation has added or changed show their rows, so that no flush sends more than
      one insert or update, and the order among statements of one kind does not matter. */
  lemma OneStatement(base: Table, s: Session, model: Model, row: Row, k: Key)
    requires Calm(base, s)
    ensures var a := Add(s, model, row); forall h :: h in Writes(a) && h != |s.objs| ==>
      h < |a.objs| && a.objs[h].ident.Some? && Look(base, a, a.objs[h].ident.value) == Some(a.objs[h].row)
    ensures k in s.identity ==>
      var r := Rewrite(s, s.identity[k], row); forall h :: h in Writes(r) && h != s.identity[k] ==>
      h < |r.objs| && r.objs[h].ident.Some? && Look(base, r, r.objs[h].ident.value) == Some(r.objs[h].row)
  {
    assert forall h :: h in s.dirty ==> s.identity[s.objs[h].ident.value] == h;
  }

  /** An insert passes exactly when neither the table nor a pending deletion is in its way. */
  lemma CreateFlushable(base: Table, s: Session, model: Model, row: Row, l: Ledger)
    requires Stands(base, s, l)
    ensures Flushable(base, Add(s, model, row)) <==>
      var k := Key(model, row.id); k !in l.table && !Taken(l.table, k, row) && !Taken(l.doomed, k, row)
  {
    AddFlushes(base, s, model, row, l.table);
    AddStatements(base, s, model, row);
    TakenSeen(base, s, l, Key(model, row.id), row);
  }

  /** An update of a row of the table passes exactly when neither the table nor a pending deletion is in its way. */
  lemma RewriteFlushable(base: Table, s: Session, k: Key, row: Row, l: Ledger)
    requires Stands(base, s, l) && k in s.identity && k in l.table
    ensures Flushable(base, Rewrite(s, s.identity[k], row)) <==>
      var moved := Key(k.model, row.id);
      && (moved == k || (moved !in l.table && moved !in l.doomed))
      && (row == l.table[k] || (!Taken(l.table, k, row) && !Taken(l.doomed, k, row)))
  {
    SeenIs(base, s, l, k);
    SeenIs(base, s, l, Key(k.model, row.id));
    RewriteFlushes(base, s, k, row, l.table);
    RewriteStatements(base, s, k, row);
    TakenSeen(base, s, l, k, row);
    LeftIs(base, s, l.table, k);
    RewrittenStatement(base, s, k, row);
  }

  lemma RewrittenStatement(base: Table, s: Session, k: Key, row: Row)
    requires Calm(base, s) && k in s.identity
    ensures var seen, moved := Patched(base, s.overlay), Key(k.model, row.id);
      StatementPasses(base, s, s.objs[s.identity[k]].(row := row))
      <==> Look(base, s, k) == Some(row) || ((moved == k || moved !in seen) && !Taken(seen, k, row))
  {
  }

  lemma DoomedFlushable(base: Table, s: Session, k: Key, row: Row, l: Ledger)
    requires Stands(base, s, l) && k in s.identity && k in l.doomed
    ensures Flushable(base, Rewrite(s, s.identity[k], row))
  {
    RewriteFlushes(base, s, k, row, l.table);
    RewriteStatements(base, s, k, row);
  }

  lemma UpdateNothing(t: Table, k: Key, data: Data)
    requires data.id.None? && Deserialize(k.model, data.cols) == map[]
    requires k in t ==> t[k].id == k.id
    ensures TableOp(t, Update(k.model, k.id, data)) == Some(t)
    ensures k in t ==> Assign(k.model, t[k], data) == t[k]
  {
    if k in t {
      assert Assign(k.model, t[k], data) == t[k];
      assert (t - {k})[k := t[k]] == t;
    }
  }

  lemma UpdateSomething(base: Table, s: Session, k: Key, row: Row, t: Table, after: Table)
    requires Represents(base, s, t) && k in s.identity && FlushOk(base, Rewrite(s, s.identity[k], row))
    requires after == if s.identity[k] in s.doomed then t else (t - {k})[Key(k.model, row.id) := row]
    ensures Represents(base, Flushed(base, Rewrite(s, s.identity[k], row)), after)
  {
    var r := Rewrite(s, s.identity[k], row);
    RewriteKeepsCoherent(base, s, k, row);
    forall j ensures Find(after, j) == Look(base, Flushed(base, r), j) {
      UpdateAt(base, s, k, row, t, after, j);
    }
    FlushRepresents(base, r, after);
  }

  lemma UpdateAt(base: Table, s: Session, k: Key, row: Row, t: Table, after: Table, j: Key)
    requires Represents(base, s, t) && k in s.identity && FlushOk(base, Rewrite(s, s.identity[k], row))
    requires after == if s.identity[k] in s.doomed then t else (t - {k})[Key(k.model, row.id) := row]
    ensures Find(after, j) == Look(base, Flushed(base, Rewrite(s, s.identity[k], row)), j)
  {
    RewriteAt(base, s, k, row, t, j);
    if s.identity[k] !in s.doomed {
      FindMoved(t, k, Key(k.model, row.id), row, j);
    }
  }

  lemma FindMoved(t: Table, k: Key, moved: Key, row: Row, j: Key)
    ensures Find((t - {k})[moved := row], j) == if j == moved then Some(row) else if j == k then None else Find(t, j)
  {
  }

  /** An update of a loaded object whose row is in the table. */
  lemma UpdateRefines(base: Table, s: Session, k: Key, data: Data, l: Ledger)
    requires Stands(base, s, l) && k in s.identity && k in l.table
    ensures var r, op := SetAttributes(s, s.identity[k], data), Update(k.model, k.id, data);
      && (Flushable(base, r) <==> TableOp(l.table, op).Some? && !Blocked(l, op))
      && (Flushable(base, r) ==> Represents(base, Flushed(base, r), TableOp(l.table, op).value))
  {
    LeftIs(base, s, l.table, k);
    assert s.objs[s.identity[k]].model == k.model;
    if data.id.None? && Deserialize(k.model, data.cols) == map[] {
      UpdateNothing(l.table, k, data);
      PlainFlush(base, s, l.table);
      CalmPasses(base, s);
    } else {
      var row := Assign(k.model, l.table[k], data);
      RewriteFlushable(base, s, k, row, l);
      if Flushable(base, Rewrite(s, s.identity[k], row)) {
        UpdateSomething(base, s, k, row, l.table, TableOp(l.table, Update(k.model, k.id, data)).value);
      }
    }
  }

  /** An update of an object that is about to be deleted is lost with it. */
  lemma DoomedUpdateRefines(base: Table, s: Session, k: Key, data: Data, l: Ledger)
    requires Stands(base, s, l) && k in s.identity && k in l.doomed
    ensures var r := SetAttributes(s, s.identity[k], data);
      Flushable(base, r) && Represents(base, Flushed(base, r), l.table)
  {
    if data.id.None? && Deserialize(s.objs[s.identity[k]].model, data.cols) == map[] {
      PlainFlush(base, s, l.table);
      CalmPasses(base, s);
    } else {
      var row := Assign(s.objs[s.identity[k]].model, s.objs[s.identity[k]].row, data);
      DoomedFlushable(base, s, k, row, l);
      UpdateSomething(base, s, k, row, l.table, l.table);
    }
  }

  // ---------- Links ----------

  lemma PurgesAre(base: Table, s: Session, doomed: Table)
    requires Mapped(s) && DoomedAre(base, s, doomed)
    ensures Purges(s) == doomed.Keys
  {
    forall k ensures k in Purges(s) <==> k in doomed {
      if k in doomed {
        assert s.objs[s.identity[k]].ident == Some(k);
      }
    }
  }

  lemma SurvivorIs(base: Table, s: Session, h: Handle)
    requires Calm(base, s)
    ensures h in Survivors(s) <==>
      h < |s.objs| && h !in s.doomed && KeyOf(s.objs[h]) in s.identity && s.identity[KeyOf(s.objs[h])] == h
  {
    if h in Survivors(s) {
      assert s.objs[h].ident.Some? && s.identity[s.objs[h].ident.value] == h;
    }
  }

  /** Which links a session has pending, object by object. */
  lemma LinkIsNew(s: Session, x: Link)
    ensures x in NewLinks(s) <==> exists p :: p in s.appends && p.0 in Survivors(s) && p.1 in Survivors(s)
                                          && x == Link(KeyOf(s.objs[p.0]), KeyOf(s.objs[p.1]))
  {
  }

  /** Objects that were there before keep their links when objects come behind them. */
  lemma LongerKeepsLinks(s: Session, t: Session)
    requires Mapped(s) && s.objs <= t.objs && t.appends == s.appends
    requires forall h :: 0 <= h < |s.objs| ==> (h in Survivors(s) <==> h in Survivors(t))
    ensures NewLinks(t) == NewLinks(s)
  {
    forall p | p in s.appends
      ensures p.0 in Survivors(s) <==> p.0 in Survivors(t)
      ensures p.1 in Survivors(s) <==> p.1 in Survivors(t)
    {
    }
  }

  lemma AddKeepsLinks(s: Session, model: Model, row: Row)
    requires Mapped(s)
    ensures NewLinks(Add(s, model, row)) == NewLinks(s) && Purges(Add(s, model, row)) == Purges(s)
  {
    LongerKeepsLinks(s, Add(s, model, row));
  }

  lemma FetchKeepsLinks(base: Table, s: Session, k: Key)
    requires Mapped(s)
    ensures NewLinks(Fetch(base, s, k)) == NewLinks(s) && Fetch(base, s, k).relinking == s.relinking
  {
    LongerKeepsLinks(s, Fetch(base, s, k));
  }

  lemma RewriteKeepsPurges(s: Session, k: Key, row: Row)
    requires Mapped(s) && k in s.identity
    ensures Purges(Rewrite(s, s.identity[k], row)) == Purges(s)
    ensures Survivors(Rewrite(s, s.identity[k], row)) == Survivors(s)
  {
  }

  /** The links of a row that moves move along. */
  lemma RewriteMovesLinks(base: Table, s: Session, k: Key, row: Row)
    requires Calm(base, s) && k in s.identity
    ensures NewLinks(Rewrite(s, s.identity[k], row)) ==
            if s.identity[k] in s.doomed then NewLinks(s) else Renamed(NewLinks(s), k, Key(k.model, row.id))
  {
    var h := s.identity[k];
    var r := Rewrite(s, h, row);
    RewriteKeepsPurges(s, k, row);
    forall p | p in s.appends && p.0 in Survivors(s) && p.1 in Survivors(s)
      ensures KeyOf(r.objs[p.0]) == if p.0 == h then Key(k.model, row.id) else KeyOf(s.objs[p.0])
      ensures KeyOf(r.objs[p.1]) == if p.1 == h then Key(k.model, row.id) else KeyOf(s.objs[p.1])
      ensures (p.0 == h <==> KeyOf(s.objs[p.0]) == k) && (p.1 == h <==> KeyOf(s.objs[p.1]) == k)
    {
      SurvivorIs(base, s, p.0);
      SurvivorIs(base, s, p.1);
    }
    RenamedByPairs(s, r, h, k, Key(k.model, row.id));
  }

  lemma RenamedByPairs(s: Session, r: Session, h: Handle, k: Key, moved: Key)
    requires r.appends == s.appends && Survivors(r) == Survivors(s)
    requires forall p :: p in s.appends && p.0 in Survivors(s) && p.1 in Survivors(s) ==>
      && KeyOf(r.objs[p.0]) == (if p.0 == h then moved else KeyOf(s.objs[p.0]))
      && KeyOf(r.objs[p.1]) == (if p.1 == h then moved else KeyOf(s.objs[p.1]))
      && (p.0 == h <==> KeyOf(s.objs[p.0]) == k) && (p.1 == h <==> KeyOf(s.objs[p.1]) == k)
    ensures NewLinks(r) == Renamed(NewLinks(s), k, moved)
    ensures h !in Survivors(s) ==> NewLinks(r) == NewLinks(s)
  {
    forall x ensures x in NewLinks(r) <==> x in Renamed(NewLinks(s), k, moved) {
      LinkIsNew(r, x);
      if p :| p in s.appends && p.0 in Survivors(s) && p.1 in Survivors(s)
              && x == Link(KeyOf(r.objs[p.0]), KeyOf(r.objs[p.1])) {
        assert Link(KeyOf(s.objs[p.0]), KeyOf(s.objs[p.1])) in NewLinks(s);
      }
      if y :| y in NewLinks(s) && x == Link(if y.owner == k then moved else y.owner,
                                            if y.target == k then moved else y.target) {
        LinkIsNew(s, y);
      }
    }
  }

  lemma RenamedToItself(links: set<Link>, k: Key)
    ensures Renamed(links, k, k) == links
  {
    assert forall x :: x in links ==> x in Renamed(links, k, k);
  }

  /** Setting attributes of an object moves its links as the ledger says. */
  lemma SetMovesLinks(base: Table, s: Session, op: Op, l: Ledger)
    requires Stands(base, s, l) && op.Update? && Target(op) in s.identity
    ensures var r := SetAttributes(s, s.identity[Target(op)], op.data);
      NewLinks(r) == AppendedAt(l, op) && Purges(r) == l.doomed.Keys && r.relinking == l.relinking
  {
    var k := Target(op);
    var o := s.objs[s.identity[k]];
    PurgesAre(base, s, l.doomed);
    SeenIs(base, s, l, k);
    LeftIs(base, s, l.table, k);
    if op.data.id.None? && Deserialize(o.model, op.data.cols) == map[] {
      RenamedToItself(l.appended, k);
    } else {
      RewriteMovesLinks(base, s, k, Assign(o.model, o.row, op.data));
      RewriteKeepsPurges(s, k, Assign(o.model, o.row, op.data));
    }
  }

  /** A doomed object takes its pending links along. */
  lemma DoomCutsLinks(base: Table, s: Session, k: Key)
    requires Calm(base, s) && k in s.identity
    ensures var d := s.(doomed := s.doomed + {s.identity[k]});
      NewLinks(d) == if s.identity[k] in s.doomed then NewLinks(s) else Apart(NewLinks(s), {k})
  {
    var h := s.identity[k];
    var d := s.(doomed := s.doomed + {h});
    forall g ensures g in Survivors(d) <==> g in Survivors(s) && g != h {
      SurvivorIs(base, s, g);
    }
    forall p | p in s.appends && p.0 in Survivors(s) && p.1 in Survivors(s)
      ensures (p.0 == h <==> KeyOf(s.objs[p.0]) == k) && (p.1 == h <==> KeyOf(s.objs[p.1]) == k)
    {
      SurvivorIs(base, s, p.0);
      SurvivorIs(base, s, p.1);
    }
    CutByPairs(s, d, h, k);
  }

  lemma CutByPairs(s: Session, d: Session, h: Handle, k: Key)
    requires d.objs == s.objs && d.appends == s.appends
    requires forall g :: g in Survivors(d) <==> g in Survivors(s) && g != h
    requires forall p :: p in s.appends && p.0 in Survivors(s) && p.1 in Survivors(s) ==>
      (p.0 == h <==> KeyOf(s.objs[p.0]) == k) && (p.1 == h <==> KeyOf(s.objs[p.1]) == k)
    ensures NewLinks(d) == if h in Survivors(s) then Apart(NewLinks(s), {k}) else NewLinks(s)
  {
    forall x ensures x in NewLinks(d) <==> x in NewLinks(s) && (h in Survivors(s) ==> x in Apart(NewLinks(s), {k})) {
      LinkIsNew(s, x);
      LinkIsNew(d, x);
    }
  }

  lemma AttachAddsLink(base: Table, s: Session, k: Key, j: Key)
    requires Calm(base, s) && k in s.identity && j in s.identity
    ensures NewLinks(Attach(s, s.identity[k], s.identity[j])) ==
            if s.identity[k] in s.doomed || s.identity[j] in s.doomed then NewLinks(s) else NewLinks(s) + {Link(k, j)}
  {
    var a := Attach(s, s.identity[k], s.identity[j]);
    assert Survivors(a) == Survivors(s);
    SurvivorIs(base, s, s.identity[k]);
    SurvivorIs(base, s, s.identity[j]);
    forall x ensures x in NewLinks(a) <==> x in NewLinks(s) || (x == Link(k, j) && s.identity[k] !in s.doomed
                                                                && s.identity[j] !in s.doomed) {
      LinkIsNew(s, x);
      LinkIsNew(a, x);
      assert (s.identity[k], s.identity[j]) in a.appends;
    }
  }

  // ---------- The operations ----------

  /** Each operation on the session does to the table it stands for what the reference does, and raises exactly when
      the reference does or a pending deletion is in its way. */
  lemma PerformRefines(base: Table, u: Unit, op: Op, l: Ledger)
    requires WellKeyed(base) && Stands(base, u.session, l)
    ensures Perform(base, u, op).Some? <==> Note(l, op).Some?
    ensures Perform(base, u, op).Some? ==> Stands(base, Perform(base, u, op).value.session, Note(l, op).value)
  {
    match op
    case Create(_, _, _) => CreateOpRefines(base, u, op, l);
    case Update(_, _, _) => UpdateOpRefines(base, u, op, l);
    case Delete(_, _) => DeleteOpRefines(base, u, op, l);
    case Get(_, _) => FetchStands(base, u.session, Target(op), l);
    case Append(_, _, _) => AppendOpRefines(base, u, op, l);
    case Flush => FlushOpRefines(base, u, l);
  }

  /** After a flush the session stands for a ledger with nothing pending, given what the flush does to the links. */
  lemma FlushedStands(base: Table, s: Session, l: Ledger, after: Table, op: Op)
    requires FlushOk(base, s) && Represents(base, Flushed(base, s), after)
    requires NewLinks(s) == AppendedAt(l, op) && Purges(s) == l.doomed.Keys && s.relinking == l.relinking
    ensures Stands(base, Flushed(base, s), FlushNoted(l, after, op))
    ensures Flushed(base, s).dirty == Flushed(base, s).doomed == {}
  {
  }

  lemma FlushStands(base: Table, s: Session, l: Ledger)
    requires Stands(base, s, l)
    ensures Flushable(base, s) && Stands(base, Flushed(base, s), FlushNoted(l, l.table, Flush))
  {
    PlainFlush(base, s, l.table);
    CalmPasses(base, s);
    PurgesAre(base, s, l.doomed);
    FlushedStands(base, s, l, l.table, Flush);
  }

  lemma FlushOpRefines(base: Table, u: Unit, l: Ledger)
    requires Stands(base, u.session, l)
    ensures Perform(base, u, Flush).Some? && Note(l, Flush).Some?
    ensures Stands(base, Perform(base, u, Flush).value.session, Note(l, Flush).value)
  {
    FlushStands(base, u.session, l);
    assert Note(l, Flush) == Some(FlushNoted(l, l.table, Flush));
    assert Perform(base, u, Flush).value.session == Flushed(base, u.session);
  }

  lemma CreateOpRefines(base: Table, u: Unit, op: Op, l: Ledger)
    requires Stands(base, u.session, l) && op.Create?
    ensures Perform(base, u, op).Some? <==> Note(l, op).Some?
    ensures Perform(base, u, op).Some? ==> Stands(base, Perform(base, u, op).value.session, Note(l, op).value)
  {
    var row := Assign(op.model, op.defaults, op.data);
    CreateIsNoted(l, op, row);
    AddRefines(base, u.session, op, row, l);
  }

  lemma CreateIsNoted(l: Ledger, op: Op, row: Row)
    requires op.Create? && row == Assign(op.model, op.defaults, op.data)
    ensures Note(l, op) ==
      var k := Key(op.model, row.id);
      if k in l.table || Taken(l.table, k, row) || Taken(l.doomed, k, row) then None
      else Some(FlushNoted(l, l.table[k := row], op))
  {
  }

  lemma AddRefines(base: Table, s: Session, op: Op, row: Row, l: Ledger)
    requires Stands(base, s, l) && op.Create?
    ensures var k, a := Key(op.model, row.id), Add(s, op.model, row);
      && (Flushable(base, a) <==> k !in l.table && !Taken(l.table, k, row) && !Taken(l.doomed, k, row))
      && (Flushable(base, a) ==> Stands(base, Flushed(base, a), FlushNoted(l, l.table[k := row], op)))
  {
    CreateFlushable(base, s, op.model, row, l);
    if Flushable(base, Add(s, op.model, row)) {
      AddStands(base, s, op, row, l);
    }
  }

  lemma AddStands(base: Table, s: Session, op: Op, row: Row, l: Ledger)
    requires Stands(base, s, l) && op.Create? && Flushable(base, Add(s, op.model, row))
    requires Key(op.model, row.id) !in l.table
    ensures Stands(base, Flushed(base, Add(s, op.model, row)), FlushNoted(l, l.table[Key(op.model, row.id) := row], op))
  {
    CreateRefines(base, s, op.model, row, l.table);
    PurgesAre(base, s, l.doomed);
    AddKeepsLinks(s, op.model, row);
    FlushedStands(base, Add(s, op.model, row), l, l.table[Key(op.model, row.id) := row], op);
  }

  lemma FetchKeepsDoomed(base: Table, s: Session, k: Key, doomed: Table)
    requires WellKeyed(base) && Coherent(base, s) && DoomedAre(base, s, doomed)
    ensures DoomedAre(base, Fetch(base, s, k), doomed)
  {
    FetchLoads(base, s, k);
  }

  /** Loading changes nothing of what the session stands for; it finds the rows of the table and the doomed ones. */
  lemma FetchStands(base: Table, s: Session, k: Key, l: Ledger)
    requires WellKeyed(base) && Stands(base, s, l)
    ensures Stands(base, Fetch(base, s, k), l)
    ensures k in Fetch(base, s, k).identity <==> k in l.table || k in l.doomed
    ensures k in l.table ==> k !in l.doomed
  {
    FetchLoads(base, s, k);
    FetchIsSilent(base, s, k, l.table);
    FetchKeepsDoomed(base, s, k, l.doomed);
    FetchKeepsLinks(base, s, k);
    SeenIs(base, s, l, k);
  }

  lemma UpdateOpRefines(base: Table, u: Unit, op: Op, l: Ledger)
    requires WellKeyed(base) && Stands(base, u.session, l) && op.Update?
    ensures Perform(base, u, op).Some? <==> Note(l, op).Some?
    ensures Perform(base, u, op).Some? ==> Stands(base, Perform(base, u, op).value.session, Note(l, op).value)
  {
    var k := Target(op);
    FetchStands(base, u.session, k, l);
    if k in l.table {
      UpdateHeld(base, Fetch(base, u.session, k), op, l);
    } else if k in l.doomed {
      UpdateDoomed(base, Fetch(base, u.session, k), op, l);
    }
  }

  lemma UpdateHeld(base: Table, s: Session, op: Op, l: Ledger)
    requires Stands(base, s, l) && op.Update? && Target(op) in s.identity && Target(op) in l.table
    ensures var r := SetAttributes(s, s.identity[Target(op)], op.data);
      && (Flushable(base, r) <==> Note(l, op).Some?)
      && (Flushable(base, r) ==> Stands(base, Flushed(base, r), Note(l, op).value))
  {
    var r := SetAttributes(s, s.identity[Target(op)], op.data);
    UpdateRefines(base, s, Target(op), op.data, l);
    HeldIsNoted(l, op);
    if Flushable(base, r) {
      SetMovesLinks(base, s, op, l);
      FlushedStands(base, r, l, TableOp(l.table, op).value, op);
    }
  }

  lemma HeldIsNoted(l: Ledger, op: Op)
    requires op.Update? && (Target(op) in l.table || Target(op) in l.doomed)
    ensures Note(l, op).Some? <==> TableOp(l.table, op).Some? && !Blocked(l, op)
    ensures Note(l, op).Some? ==> Note(l, op).value == FlushNoted(l, TableOp(l.table, op).value, op)
  {
  }

  lemma UpdateDoomed(base: Table, s: Session, op: Op, l: Ledger)
    requires Stands(base, s, l) && op.Update? && Target(op) in s.identity
    requires Target(op) in l.doomed && Target(op) !in l.table
    ensures var r := SetAttributes(s, s.identity[Target(op)], op.data);
      Flushable(base, r) && Note(l, op).Some? && Stands(base, Flushed(base, r), Note(l, op).value)
  {
    var r := SetAttributes(s, s.identity[Target(op)], op.data);
    DoomedUpdateRefines(base, s, Target(op), op.data, l);
    HeldIsNoted(l, op);
    SetMovesLinks(base, s, op, l);
    FlushedStands(base, r, l, l.table, op);
  }

  lemma DeleteOpRefines(base: Table, u: Unit, op: Op, l: Ledger)
    requires WellKeyed(base) && Stands(base, u.session, l) && op.Delete?
    ensures Perform(base, u, op).Some? && Note(l, op).Some?
    ensures Stands(base, Perform(base, u, op).value.session, Note(l, op).value)
  {
    FetchStands(base, u.session, Target(op), l);
    DeleteIfLoaded(base, Fetch(base, u.session, Target(op)), op, l);
  }

  lemma DeleteIfLoaded(base: Table, s: Session, op: Op, l: Ledger)
    requires Stands(base, s, l) && op.Delete? && (Target(op) in l.table ==> Target(op) in s.identity)
    ensures Mapped(s) && Note(l, op).Some?
    ensures var k := Target(op);
      Stands(base, if k in s.identity then s.(doomed := s.doomed + {s.identity[k]}) else s, Note(l, op).value)
  {
    if Target(op) in s.identity {
      DeleteLoaded(base, s, Target(op), l);
    } else {
      assert l.table - {Target(op)} == l.table;
    }
  }

  lemma DeleteLoaded(base: Table, s: Session, k: Key, l: Ledger)
    requires Stands(base, s, l) && k in s.identity
    ensures Stands(base, s.(doomed := s.doomed + {s.identity[k]}), Note(l, Delete(k.model, k.id)).value)
  {
    DoomRepresents(base, s, k, l.table);
    DoomedRow(base, s, k, l);
    DoomOne(base, s, k, l.doomed);
    DoomCutsLinks(base, s, k);
    SeenIs(base, s, l, k);
    NoteDelete(l, k, Look(base, s, k).value);
  }

  lemma NoteDelete(l: Ledger, k: Key, row: Row)
    requires if k in l.table then row == l.table[k] else k in l.doomed && row == l.doomed[k]
    ensures Note(l, Delete(k.model, k.id)) ==
            Some(l.(table := l.table - {k}, doomed := l.doomed[k := row],
                    appended := if k in l.table then Apart(l.appended, {k}) else l.appended))
  {
    assert k in l.doomed ==> l.doomed[k := l.doomed[k]] == l.doomed;
  }

  /** The row under a loaded key is the table's or the doomed one. */
  lemma DoomedRow(base: Table, s: Session, k: Key, l: Ledger)
    requires Stands(base, s, l) && k in s.identity
    ensures Look(base, s, k) == if k in l.table then Some(l.table[k]) else Find(l.doomed, k)
  {
    assert Left(base, s, k) == Find(l.table, k);
  }

  lemma DoomOne(base: Table, s: Session, k: Key, doomed: Table)
    requires Coherent(base, s) && DoomedAre(base, s, doomed) && k in s.identity
    ensures DoomedAre(base, s.(doomed := s.doomed + {s.identity[k]}), doomed[k := Look(base, s, k).value])
  {
    forall j | j in s.identity ensures s.identity[j] == s.identity[k] <==> j == k {
      assert s.objs[s.identity[j]].ident == Some(j) && s.objs[s.identity[k]].ident == Some(k);
    }
  }

  lemma AppendOpRefines(base: Table, u: Unit, op: Op, l: Ledger)
    requires WellKeyed(base) && Stands(base, u.session, l) && op.Append?
    ensures Perform(base, u, op).Some? && Note(l, op).Some?
    ensures Stands(base, Perform(base, u, op).value.session, Note(l, op).value)
  {
    FetchBothStands(base, u.session, Target(op), op.other, l);
    AppendIsNoted(l, op);
    var loaded := Fetch(base, Fetch(base, u.session, Target(op)), op.other);
    AttachIfLoaded(base, loaded, Target(op), op.other, l);
    AppendPerformed(base, u, op, loaded);
  }

  lemma AppendPerformed(base: Table, u: Unit, op: Op, loaded: Session)
    requires Coherent(base, u.session) && op.Append?
    requires loaded == Fetch(base, Fetch(base, u.session, Target(op)), op.other)
    ensures var k, j := Target(op), op.other;
      Perform(base, u, op) == Some(u.(session := if k !in loaded.identity || j !in loaded.identity then loaded
                                                 else Attach(loaded, loaded.identity[k], loaded.identity[j])))
  {
  }

  lemma AttachIfLoaded(base: Table, s: Session, k: Key, j: Key, l: Ledger)
    requires Stands(base, s, l) && (k in l.table ==> k in s.identity) && (j in l.table ==> j in s.identity)
    ensures Mapped(s)
    ensures Stands(base, if k !in s.identity || j !in s.identity then s else Attach(s, s.identity[k], s.identity[j]),
                   l.(appended := if k in l.table && j in l.table then l.appended + {Link(k, j)} else l.appended))
  {
    if k in s.identity && j in s.identity {
      AttachStands(base, s, k, j, l);
    }
  }

  lemma AppendIsNoted(l: Ledger, op: Op)
    requires op.Append?
    ensures Note(l, op) ==
      Some(l.(appended := if Target(op) in l.table && op.other in l.table then l.appended + {Link(Target(op), op.other)}
                          else l.appended))
  {
  }

  lemma FetchBothStands(base: Table, s: Session, k: Key, j: Key, l: Ledger)
    requires WellKeyed(base) && Stands(base, s, l)
    ensures var loaded := Fetch(base, Fetch(base, s, k), j);
      Stands(base, loaded, l) && (k in l.table ==> k in loaded.identity) && (j in l.table ==> j in loaded.identity)
  {
    FetchStands(base, s, k, l);
    FetchStands(base, Fetch(base, s, k), j, l);
    FetchLoads(base, Fetch(base, s, k), j);
  }

  lemma AttachStands(base: Table, s: Session, k: Key, j: Key, l: Ledger)
    requires Stands(base, s, l) && k in s.identity && j in s.identity
    ensures Stands(base, Attach(s, s.identity[k], s.identity[j]),
                   l.(appended := if k in l.table && j in l.table then l.appended + {Link(k, j)} else l.appended))
  {
    SeenIs(base, s, l, k);
    SeenIs(base, s, l, j);
    DoomedRow(base, s, k, l);
    DoomedRow(base, s, j, l);
    AttachRepresents(base, s, k, j, l.table);
    AttachKeepsDoomed(base, s, k, j, l.doomed);
    AttachAddsLink(base, s, k, j);
  }

  lemma AttachKeepsDoomed(base: Table, s: Session, k: Key, j: Key, doomed: Table)
    requires DoomedAre(base, s, doomed) && k in s.identity && j in s.identity
    ensures DoomedAre(base, Attach(s, s.identity[k], s.identity[j]), doomed)
  {
  }

  lemma AttachRepresents(base: Table, s: Session, k: Key, j: Key, t: Table)
    requires Represents(base, s, t) && k in s.identity && j in s.identity
    ensures Represents(base, Attach(s, s.identity[k], s.identity[j]), t)
  {
    var a := Attach(s, s.identity[k], s.identity[j]);
    AttachKeepsCoherent(base, s, k, j);
    forall i ensures Left(base, a, i) == Find(t, i) {
      assert Left(base, s, i) == Find(t, i);
    }
  }

  // ---------- Whole stages ----------

  lemma {:induction false} PerformAllRefines(base: Table, u: Unit, ops: seq<Op>, l: Ledger)
    requires WellKeyed(base) && Stands(base, u.session, l)
    ensures PerformAll(base, u, ops).Some? <==> NoteAll(l, ops).Some?
    ensures PerformAll(base, u, ops).Some? ==>
      Stands(base, PerformAll(base, u, ops).value.session, NoteAll(l, ops).value)
    decreases |ops|
  {
    if ops != [] {
      PerformRefines(base, u, ops[0], l);
      if Note(l, ops[0]).Some? {
        PerformAllRefines(base, Perform(base, u, ops[0]).value, ops[1..], Note(l, ops[0]).value);
      }
    }
  }

  lemma NewSessionStands(base: Table)
    ensures Stands(base, NEW_SESSION, Opened(base))
  {
    assert forall k :: Left(base, NEW_SESSION, k) == Find(base, k);
  }

  /** Staging any sequence of operations in one transaction and committing it leaves the table exactly as the same
      operations done one by one on the table would. It fails exactly when they would, or when one of them needs what
      a deletion that is not flushed yet still holds. */
  lemma StagedIsSequential(base: Table, ops: seq<Op>)
    requires WellKeyed(base)
    ensures StageUnit(base, ops).Some? <==> TableAll(base, ops).Some? && Unblocked(Opened(base), ops)
    ensures StageUnit(base, ops).Some? ==>
      var s := StageUnit(base, ops).value.session;
      Represents(base, s, TableAll(base, ops).value) && Patched(base, s.overlay) == TableAll(base, ops).value
      && s.dirty == s.doomed == {}
  {
    NewSessionStands(base);
    PerformAllRefines(base, NEW_UNIT, ops, Opened(base));
    LedgerTable(Opened(base), ops);
    if NoteAll(Opened(base), ops).Some? {
      StageEnds(base, PerformAll(base, NEW_UNIT, ops).value, NoteAll(Opened(base), ops).value);
    }
  }

  lemma StageEnds(base: Table, u: Unit, l: Ledger)
    requires Stands(base, u.session, l)
    ensures FlushUnit(base, u).Some?
    ensures var s := FlushUnit(base, u).value.session;
      && Stands(base, s, FlushNoted(l, l.table, Flush)) && s.dirty == s.doomed == {}
      && Patched(base, s.overlay) == l.table
      && s.relinking == Relink(l.relinking, l.doomed.Keys, l.appended)
  {
    FlushStands(base, u.session, l);
    PatchedIsSeen(base, Flushed(base, u.session), l.table);
  }

  /** A user is deleted, and another one of the same unique name is created: one by one that works, in one stage the
      new row is refused, because the old one is still there. */
  lemma ReplacementIsBlocked()
    ensures var user := Model("User", {"username"}, {"username"});
      var base := map[Key(user, "1") := Row("1", map["username" := "bob"])];
      var ops := [Delete(user, "1"), Create(user, Data(Some("2"), map["username" := "bob"]), Row("", map[]))];
      WellKeyed(base) && TableAll(base, ops).Some? && StageUnit(base, ops).None?
  {
    var user := Model("User", {"username"}, {"username"});
    var first, second := Key(user, "1"), Key(user, "2");
    var base := map[first := Row("1", map["username" := "bob"])];
    var gone, make := Delete(user, "1"), Create(user, Data(Some("2"), map["username" := "bob"]), Row("", map[]));
    var row := Row("2", map["username" := "bob"]);
    assert "1" != "2" by { assert "1"[0] != "2"[0]; }
    assert Assign(user, make.defaults, make.data) == row;
    assert "username" in user.unique && Clash(user, base[first], row) && Taken(base, second, row);
    assert base - {first} == map[];
    BlockedSecond(base, gone, make);
    StagedIsSequential(base, [gone, make]);
  }

  /** A create that is refused because of the deletion before it. */
  lemma BlockedSecond(base: Table, gone: Op, make: Op)
    requires gone.Delete? && make.Create? && Target(gone) in base && base - {Target(gone)} == map[]
    requires var row := Assign(make.model, make.defaults, make.data); Taken(base, Key(make.model, row.id), row)
    ensures TableAll(base, [gone, make]).Some? && !Unblocked(Opened(base), [gone, make])
  {
    assert [gone, make][1..] == [make] && [make][1..] == [];
    assert map[][Target(gone) := base[Target(gone)]] == base;
    assert Apart({}, {Target(gone)}) == {};
    assert Note(Opened(base), gone) == Some(Ledger(map[], base, {}, {}, NO_RELINKING));
    assert TableOp(base, gone) == Some(map[]);
    assert TableOp(map[], make).Some?;
    assert TableAll(base, [gone, make]) == TableAll(map[], [make]);
    assert TableAll(map[], [make]) == TableAll(TableOp(map[], make).value, []);
  }

  lemma PatchedIsSeen(base: Table, s: Session, t: Table)
    requires Represents(base, s, t) && s.doomed == {}
    ensures Patched(base, s.overlay) == t
  {
    forall k ensures Find(Patched(base, s.overlay), k) == Find(t, k) {
      assert Left(base, s, k) == Find(t, k);
    }
    forall k ensures k in t <==> k in Patched(base, s.overlay) {
      assert Find(Patched(base, s.overlay), k) == Find(t, k);
    }
    forall k | k in t ensures t[k] == Patched(base, s.overlay)[k] {
      assert Find(Patched(base, s.overlay), k) == Find(t, k);
    }
  }

  /** A flush of all that is pending merges into the view of the ledger. */
  lemma RelinkedView(links: set<Link>, l: Ledger)
    ensures Relinked(links, Relink(l.relinking, l.doomed.Keys, l.appended)) == LinkView(links, l)
  {
  }

  /** A commit makes of what is committed what the session stands for. */
  lemma CommitRepresented(db: Store, u: Unit, l: Ledger)
    requires Stands(db.rows, u.session, l)
    ensures Committed(db, u) == Some(Store(l.table, LinkView(db.links, l)))
  {
    StageEnds(db.rows, u, l);
    RelinkedView(db.links, l);
  }

  /** What a stage ends with: a unit that stands for the ledger of its operations, with everything flushed. */
  lemma StagedStands(base: Table, ops: seq<Op>)
    requires WellKeyed(base) && StageUnit(base, ops).Some?
    ensures NoteAll(Opened(base), ops).Some?
    ensures var l := NoteAll(Opened(base), ops).value;
      Stands(base, StageUnit(base, ops).value.session, FlushNoted(l, l.table, Flush))
  {
    NewSessionStands(base);
    PerformAllRefines(base, NEW_UNIT, ops, Opened(base));
    StageEnds(base, PerformAll(base, NEW_UNIT, ops).value, NoteAll(Opened(base), ops).value);
  }
}
