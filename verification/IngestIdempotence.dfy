/** Rows, calls, indexes, live counters and replay counts: what every step of the ingest
    machine keeps about them. */
module IngestIdempotence {
  import opened Wire
  import opened PitchTable
  import opened LiveCounters
  import opened Ingest
  import opened IngestSafety

  // --- uniqueness ----------------------------------------------------------

  lemma UniqueAppend(t: Table, row: Row)
    requires UniqueUids(t) && !Has(t, row.uid)
    ensures UniqueUids(t + [row])
  {
  }

  lemma HasAppend(t: Table, row: Row, uid: string)
    ensures Has(t + [row], uid) <==> Has(t, uid) || uid == row.uid
  {
    if Has(t, uid) {
      HasStays(t, [row], uid);
    }
    assert (t + [row])[|t|] == row;
  }

  lemma DifferentRowsDifferentUids(t: Table, a: Row, b: Row)
    requires UniqueUids(t) && a in t && b in t && a != b
    ensures a.uid != b.uid
  {
    var i :| 0 <= i < |t| && t[i] == a;
    var j :| 0 <= j < |t| && t[j] == b;
  }

  // --- rows ----------------------------------------------------------------

  /** A stored row is the reading its log entry carries, column by column. */
  predicate RowFaithful(s: State, row: Row) {
    && row.partition < |s.parts| && row.offset < |s.parts[row.partition].log|
    && var value := s.parts[row.partition].log[row.offset].value;
       && Storable(value)
       && var raw := PitchOf(value);
          && row.uid == PitchUid(raw) && row.session == raw.sessionUid
          && row.speed == raw.speed && row.spin == raw.spin && (row.whiff <==> raw.outcome == "SWINGING_STRIKE")
  }

  ghost predicate Rows(s: State) {
    && UniqueUids(s.table)
    && (forall i :: 0 <= i < |s.table| ==> RowFaithful(s, s.table[i]))
    && forall p :: 0 <= p < |s.parts| && Pending(s.parts[p].stage) ==> HoldsRow(s, p)
  }

  /** A reader between the transaction and the publish holds the row of its own message. */
  predicate HoldsRow(s: State, p: nat)
    requires p < |s.parts| && Pending(s.parts[p].stage)
  {
    var row := s.parts[p].stage.row;
    row in s.table && row.partition == p && row.offset == s.parts[p].position
  }

  lemma HoldingSettles(s: State, p: nat)
    requires Rows(s) && p < |s.parts| && Pending(s.parts[p].stage)
    ensures s.parts[p].position < |s.parts[p].log| && InTable(s.table, Current(s.parts[p]).value)
  {
    var i :| 0 <= i < |s.table| && s.table[i] == s.parts[p].stage.row;
    assert RowFaithful(s, s.table[i]);
  }

  lemma EnactKeepsRows(cfg: Config, s: State, p: nat, eff: Effect)
    requires p < |s.parts| && Placed(cfg, s) && Rows(s)
    requires LegalMove(cfg, s.table, s.parts[p], eff.part) && LegalEffect(cfg, s.table, p, s.parts[p], eff)
    ensures Rows(Enact(s, p, eff))
  {
    var t := Enact(s, p, eff);
    if eff.inserted != [] {
      UniqueAppend(s.table, eff.inserted[0]);
      assert t.table == s.table + [eff.inserted[0]];
    }
    forall i | 0 <= i < |t.table| ensures RowFaithful(t, t.table[i]) {
      if i < |s.table| {
        assert RowFaithful(s, s.table[i]);
      }
    }
    forall q | 0 <= q < |t.parts| && Pending(t.parts[q].stage) ensures HoldsRow(t, q) {
      if q != p || eff.part.stage == s.parts[p].stage {
        assert HoldsRow(s, q);
      } else if eff.recorded != [] {
        assert HoldsRow(s, p);
      }
    }
  }

  // --- calls ---------------------------------------------------------------

  /** Each pitch is counted and announced at most once, in that order, after its row. */
  ghost predicate Calls(s: State) {
    && UniqueUids(s.recorded) && UniqueUids(s.published)
    && (forall r :: r in s.recorded ==> r in s.table)
    && (forall r :: r in s.published ==> r in s.recorded)
    && forall p :: 0 <= p < |s.parts| ==> StageCalls(s, s.parts[p].stage)
  }

  predicate StageCalls(s: State, stage: Stage) {
    && (stage.Stored? ==> !Has(s.recorded, stage.row.uid))
    && (stage.Counted? ==> stage.row in s.recorded && !Has(s.published, stage.row.uid))
  }

  lemma SubsetHas(a: Table, b: Table, uid: string)
    requires forall r :: r in a ==> r in b
    requires Has(a, uid)
    ensures Has(b, uid)
  {
    var i :| 0 <= i < |a| && a[i].uid == uid;
    assert a[i] in b;
  }

  /** Two readers in the middle of a pitch are never in the middle of the same pitch. */
  lemma PendingRowsDiffer(s: State, p: nat, q: nat)
    requires Rows(s) && p < |s.parts| && q < |s.parts| && p != q
    requires Pending(s.parts[p].stage) && Pending(s.parts[q].stage)
    ensures s.parts[p].stage.row.uid != s.parts[q].stage.row.uid
  {
    assert HoldsRow(s, p) && HoldsRow(s, q);
    DifferentRowsDifferentUids(s.table, s.parts[p].stage.row, s.parts[q].stage.row);
  }

  lemma EnactKeepsCalls(cfg: Config, s: State, p: nat, eff: Effect)
    requires p < |s.parts| && Placed(cfg, s) && Rows(s) && Calls(s)
    requires LegalMove(cfg, s.table, s.parts[p], eff.part) && LegalEffect(cfg, s.table, p, s.parts[p], eff)
    ensures Calls(Enact(s, p, eff))
  {
    var part, t := s.parts[p], Enact(s, p, eff);
    assert StageCalls(s, part.stage);
    if eff.recorded != [] {
      assert HoldsRow(s, p);
      UniqueAppend(s.recorded, part.stage.row);
    }
    if eff.published != [] {
      UniqueAppend(s.published, part.stage.row);
    }
    forall q | 0 <= q < |t.parts| ensures StageCalls(t, t.parts[q].stage) {
      if q == p {
        OwnStageCalls(cfg, s, p, eff);
      } else {
        OtherStageCalls(cfg, s, p, eff, q);
      }
    }
  }

  lemma OwnStageCalls(cfg: Config, s: State, p: nat, eff: Effect)
    requires p < |s.parts| && Placed(cfg, s) && Rows(s) && Calls(s)
    requires LegalMove(cfg, s.table, s.parts[p], eff.part) && LegalEffect(cfg, s.table, p, s.parts[p], eff)
    ensures StageCalls(Enact(s, p, eff), eff.part.stage)
  {
    var part := s.parts[p];
    assert StageCalls(s, part.stage);
    if eff.inserted != [] {
      var uid := eff.inserted[0].uid;
      if Has(s.recorded, uid) {
        SubsetHas(s.recorded, s.table, uid);
      }
    } else if eff.recorded != [] {
      var uid := part.stage.row.uid;
      if Has(s.published, uid) {
        SubsetHas(s.published, s.recorded, uid);
      }
    }
  }

  lemma OtherStageCalls(cfg: Config, s: State, p: nat, eff: Effect, q: nat)
    requires p < |s.parts| && q < |s.parts| && p != q && Placed(cfg, s) && Rows(s) && Calls(s)
    requires LegalMove(cfg, s.table, s.parts[p], eff.part) && LegalEffect(cfg, s.table, p, s.parts[p], eff)
    ensures StageCalls(Enact(s, p, eff), s.parts[q].stage)
  {
    assert StageCalls(s, s.parts[q].stage);
    if Pending(s.parts[q].stage) && Pending(s.parts[p].stage) {
      PendingRowsDiffer(s, p, q);
      HasAppend(s.recorded, s.parts[p].stage.row, s.parts[q].stage.row.uid);
      HasAppend(s.published, s.parts[p].stage.row, s.parts[q].stage.row.uid);
    }
  }

  // --- routing and replay counts -------------------------------------------

  /** The partition of a message is a function of its key, which for a reading is the producer's. */
  ghost predicate RecordRouted(cfg: Config, p: nat, rec: Record) {
    && cfg.route(rec.key) == p
    && (Storable(rec.value) ==> rec.key == cfg.keying(PitchOf(rec.value)))
    && (cfg.maxReplays > 0 ==> ReplayCount(rec.headers) <= cfg.maxReplays)
  }

  ghost predicate LetterRouted(cfg: Config, letter: Letter) {
    && (Storable(letter.payload) ==> letter.key == cfg.keying(PitchOf(letter.payload)))
    && (cfg.maxReplays > 0 ==> letter.replayCount <= cfg.maxReplays)
  }

  ghost predicate Routed(cfg: Config, s: State) {
    && (forall p, o :: 0 <= p < |s.parts| && 0 <= o < |s.parts[p].log| ==> RecordRouted(cfg, p, s.parts[p].log[o]))
    && (forall i :: 0 <= i < |s.letters| ==> LetterRouted(cfg, s.letters[i]))
  }

  lemma EnactKeepsRouted(cfg: Config, s: State, p: nat, eff: Effect)
    requires p < |s.parts| && Placed(cfg, s) && Routed(cfg, s)
    requires LegalMove(cfg, s.table, s.parts[p], eff.part) && LegalEffect(cfg, s.table, p, s.parts[p], eff)
    ensures Routed(cfg, Enact(s, p, eff))
  {
    var t := Enact(s, p, eff);
    forall i | 0 <= i < |t.letters| ensures LetterRouted(cfg, t.letters[i]) {
      if i < |s.letters| {
        assert LetterRouted(cfg, s.letters[i]);
      } else {
        assert RecordRouted(cfg, p, s.parts[p].log[s.parts[p].position]);
      }
    }
    forall q, o | 0 <= q < |t.parts| && 0 <= o < |t.parts[q].log|
      ensures RecordRouted(cfg, q, t.parts[q].log[o])
    {
      assert RecordRouted(cfg, q, s.parts[q].log[o]);
    }
  }

  // --- session indexes -----------------------------------------------------

  /** Rows carry their rank, an index read inside an open transaction is still the next, and no
      two open transactions are of one session. */
  ghost predicate Indexes(s: State) {
    && Dense(s.table)
    && (forall p :: 0 <= p < |s.parts| ==> IndexFresh(s, s.parts[p]))
    && Exclusive(s)
  }

  predicate IndexFresh(s: State, part: Partition) {
    part.stage.Indexed? && part.position < |part.log| && Storable(Current(part).value) ==>
      part.stage.index == Count(s.table, PitchOf(Current(part).value).sessionUid) + 1
  }

  ghost predicate Exclusive(s: State) {
    forall p, session :: 0 <= p < |s.parts| && Holds(s.parts[p], session) ==> !HeldElsewhere(s, p, session)
  }

  /** A transaction that begins finds its session held by no other. */
  ghost predicate LockFree(s: State, p: nat, part: Partition)
    requires p < |s.parts|
  {
    part.stage.Indexed? && part.stage != s.parts[p].stage ==>
      forall session :: Holds(part, session) ==> !HeldElsewhere(s, p, session)
  }

  lemma EnactKeepsExclusive(cfg: Config, s: State, p: nat, eff: Effect)
    requires p < |s.parts| && Exclusive(s) && LockFree(s, p, eff.part)
    requires LegalMove(cfg, s.table, s.parts[p], eff.part)
    ensures Exclusive(Enact(s, p, eff))
  {
  }

  lemma EnactKeepsIndexes(cfg: Config, s: State, p: nat, eff: Effect)
    requires p < |s.parts| && Placed(cfg, s) && Indexes(s) && LockFree(s, p, eff.part)
    requires LegalMove(cfg, s.table, s.parts[p], eff.part) && LegalEffect(cfg, s.table, p, s.parts[p], eff)
    ensures Indexes(Enact(s, p, eff))
  {
    var part, t := s.parts[p], Enact(s, p, eff);
    assert IndexFresh(s, part);
    EnactKeepsExclusive(cfg, s, p, eff);
    if eff.inserted != [] {
      DenseAppend(s.table, eff.inserted[0]);
      assert t.table == s.table + [eff.inserted[0]];
    } else {
      assert t.table == s.table;
    }
    forall q | 0 <= q < |t.parts| ensures IndexFresh(t, t.parts[q]) {
      assert IndexFresh(s, s.parts[q]);
      if q == p && eff.part.stage.Indexed? && eff.part.stage != part.stage {
        DenseMax(s.table, PitchOf(Current(eff.part).value).sessionUid);
      } else if q != p && s.parts[q].stage.Indexed? && eff.inserted != [] {
        OtherSession(cfg, s, p, q);
        CountAppend(s.table, eff.inserted[0], PitchOf(Current(s.parts[q]).value).sessionUid);
      }
    }
  }

  /** Two open transactions are of different sessions. */
  lemma OtherSession(cfg: Config, s: State, p: nat, q: nat)
    requires Placed(cfg, s) && Exclusive(s)
    requires p < |s.parts| && q < |s.parts| && p != q
    requires s.parts[p].stage.Indexed? && s.parts[q].stage.Indexed?
    ensures PitchOf(Current(s.parts[p]).value).sessionUid != PitchOf(Current(s.parts[q]).value).sessionUid
  {
    assert Holds(s.parts[p], PitchOf(Current(s.parts[p]).value).sessionUid);
    assert Holds(s.parts[q], PitchOf(Current(s.parts[q]).value).sessionUid);
  }

  // --- live counters -------------------------------------------------------

  /** Each session's hash is the sum of exactly the increments credited to it; increments are
      credited only to recorded rows; and a session with no blemish has every row credited,
      but for one whose update is still to come. */
  ghost predicate Live(s: State) {
    && (forall session: string :: SessionLive(s, session))
    && (forall c :: c in s.credits ==> Has(s.recorded, c.uid))
    && (forall i :: 0 <= i < |s.table| && s.table[i].session !in s.blemished ==> Accounted(s, s.table[i]))
  }

  ghost predicate SessionLive(s: State, session: string) {
    && HashAgrees(HashOf(s.live, session), s.table, session, s.credits)
    && Shaped(HashOf(s.live, session))
  }

  predicate Accounted(s: State, row: Row) {
    RowCredited(row, s.credits) || UpdatePending(s, row)
  }

  predicate UpdatePending(s: State, row: Row) {
    exists p :: 0 <= p < |s.parts| && s.parts[p].stage.Stored? && s.parts[p].stage.row == row
  }

  lemma InsertKeepsSessionLive(cfg: Config, s: State, p: nat, eff: Effect, session: string)
    requires p < |s.parts| && Calls(s) && Live(s)
    requires LegalEffect(cfg, s.table, p, s.parts[p], eff) && eff.inserted != []
    ensures SessionLive(Enact(s, p, eff), session)
  {
    var row := eff.inserted[0];
    assert SessionLive(s, session);
    assert Enact(s, p, eff).table == s.table + [row];
    forall f: Field ensures Credit(row.session, row.uid, f) !in s.credits {
      if Credit(row.session, row.uid, f) in s.credits {
        SubsetHas(s.recorded, s.table, row.uid);
      }
    }
    AppendKeepsAgreement(HashOf(s.live, session), s.table, row, session, s.credits);
  }

  lemma RecordKeepsSessionLive(cfg: Config, s: State, p: nat, eff: Effect, session: string)
    requires p < |s.parts| && Rows(s) && Calls(s) && Live(s)
    requires LegalEffect(cfg, s.table, p, s.parts[p], eff) && eff.recorded != []
    ensures SessionLive(Enact(s, p, eff), session)
  {
    var t, row := Enact(s, p, eff), eff.recorded[0];
    assert SessionLive(s, session) && StageCalls(s, s.parts[p].stage) && HoldsRow(s, p);
    assert t.table == s.table;
    if session == row.session {
      forall f: Field ensures Credit(session, row.uid, f) !in s.credits {
        assert Credit(session, row.uid, f) in s.credits ==> Has(s.recorded, row.uid);
      }
      IncrementKeepsLive(s.table, HashOf(s.live, session), row, eff.executed, s.credits);
    } else {
      assert HashOf(t.live, session) == HashOf(s.live, session);
      forall f: Field {
        SameCreditsSameTotal(s.table, session, f, s.credits, t.credits);
      }
    }
  }

  lemma IncrementKeepsLive(t: Table, h: Hash, row: Row, k: nat, credits: set<Credit>)
    requires UniqueUids(t) && row in t && k <= |Commands(row)|
    requires HashAgrees(h, t, row.session, credits) && Shaped(h)
    requires forall f: Field :: Credit(row.session, row.uid, f) !in credits
    ensures HashAgrees(Execute(h, Prefix(row, k)), t, row.session, credits + CreditsUpTo(row, k))
    ensures Shaped(Execute(h, Prefix(row, k)))
  {
    var i :| 0 <= i < |t| && t[i] == row;
    assert Prefix(row, k) == Commands(row)[..k];
    ExecuteKeepsAgreement(h, t, i, k, row.session, credits);
    PrefixPaired(row, k);
    ExecuteKeepsShape(h, Commands(row)[..k]);
  }

  lemma PrefixPaired(row: Row, k: nat)
    requires k <= |Commands(row)|
    ensures Paired(Commands(row)[..k])
  {
    CommandsPaired(row);
    forall i | 0 <= i < k ensures PairedAt(Commands(row)[..k], i) {
      assert PairedAt(Commands(row), i);
    }
  }

  lemma EnactKeepsAccounts(cfg: Config, s: State, p: nat, eff: Effect)
    requires p < |s.parts| && Rows(s) && Live(s)
    requires LegalEffect(cfg, s.table, p, s.parts[p], eff)
    ensures
      var t := Enact(s, p, eff);
      forall i :: 0 <= i < |t.table| && t.table[i].session !in t.blemished ==> Accounted(t, t.table[i])
  {
    var t := Enact(s, p, eff);
    forall i | 0 <= i < |t.table| && t.table[i].session !in t.blemished ensures Accounted(t, t.table[i]) {
      var row := t.table[i];
      if i >= |s.table| {
        assert t.parts[p].stage.row == row;
      } else if !RowCredited(row, s.credits) {
        assert Accounted(s, s.table[i]);
        var q :| 0 <= q < |s.parts| && s.parts[q].stage.Stored? && s.parts[q].stage.row == row;
        if q == p && eff.recorded != [] {
          assert Prefix(row, eff.executed) == Commands(row);
          AllCommandsCredit(row);
        } else {
          assert t.parts[q].stage == s.parts[q].stage;
        }
      }
    }
  }

  lemma EnactKeepsLive(cfg: Config, s: State, p: nat, eff: Effect)
    requires p < |s.parts| && Rows(s) && Calls(s) && Live(s)
    requires LegalEffect(cfg, s.table, p, s.parts[p], eff)
    ensures Live(Enact(s, p, eff))
  {
    var t := Enact(s, p, eff);
    forall session: string ensures SessionLive(t, session) {
      if eff.inserted != [] {
        InsertKeepsSessionLive(cfg, s, p, eff, session);
      } else if eff.recorded != [] {
        RecordKeepsSessionLive(cfg, s, p, eff, session);
      } else {
        assert SessionLive(s, session);
        assert t.table == s.table;
      }
    }
    forall c | c in t.credits ensures Has(t.recorded, c.uid) {
      if c in s.credits {
        HasStays(s.recorded, eff.recorded, c.uid);
      } else {
        HasAppend(s.recorded, eff.recorded[0], c.uid);
      }
    }
    EnactKeepsAccounts(cfg, s, p, eff);
  }
}
