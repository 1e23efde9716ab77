/** The pitches table: append-only rows, the unique natural key, and the per-session index. */
module PitchTable {
  import opened Wrappers

  /** What inference answers for a pitch under the pitching variant: a score, and whether it
      comes with a class distribution or a whiff probability. */
  datatype Answer = Answer(score: real, probabilities: bool, whiff: bool)

  /** A stored pitch. answer is not among its columns: it is what the reader that stored it holds. */
  datatype Row = Row(
    uid: string, session: string, index: int, partition: nat, offset: nat,
    speed: Option<real>, spin: Option<real>, whiff: bool, answer: Option<Answer>)

  type Table = seq<Row>

  predicate Has(t: Table, uid: string) { exists i :: 0 <= i < |t| && t[i].uid == uid }

  predicate UniqueUids(t: Table) {
    forall i, j :: 0 <= i < j < |t| ==> t[i].uid != t[j].uid
  }

  function Count(t: Table, session: string): nat {
    if t == [] then 0
    else Count(t[..|t| - 1], session) + if t[|t| - 1].session == session then 1 else 0
  }

  /** COALESCE(max(session_pitch_index), 0) over one session. */
  function MaxIndex(t: Table, session: string): int {
    if t == [] then 0
    else
      var before := MaxIndex(t[..|t| - 1], session);
      var row := t[|t| - 1];
      if row.session != session then before
      else if Count(t[..|t| - 1], session) == 0 || row.index > before then row.index
      else before
  }

  /** NextSessionPitchIndex, with the clamp persist puts on it. */
  function NextIndex(t: Table, session: string): int {
    var next := MaxIndex(t, session) + 1;
    if next < 1 then 1 else next
  }

  /** Every row carries its rank within its session, in the order rows were stored. */
  predicate Dense(t: Table) {
    forall i :: 0 <= i < |t| ==> t[i].index == Count(t[..i], t[i].session) + 1
  }

  lemma {:induction false} DenseMax(t: Table, session: string)
    requires Dense(t)
    ensures MaxIndex(t, session) == Count(t, session)
    ensures NextIndex(t, session) == Count(t, session) + 1
  {
    if t != [] {
      var before := t[..|t| - 1];
      assert forall i :: 0 <= i < |before| ==> before[..i] == t[..i];
      DenseMax(before, session);
    }
  }

  lemma DenseAppend(t: Table, row: Row)
    requires Dense(t) && row.index == Count(t, row.session) + 1
    ensures Dense(t + [row])
  {
    var u := t + [row];
    forall i | 0 <= i < |u| ensures u[i].index == Count(u[..i], u[i].session) + 1 {
      if i < |t| {
        assert u[..i] == t[..i];
      } else {
        assert u[..i] == t;
      }
    }
  }

  lemma CountAppend(t: Table, row: Row, session: string)
    ensures Count(t + [row], session) == Count(t, session) + if row.session == session then 1 else 0
  {
    assert (t + [row])[..|t|] == t;
  }

  lemma {:induction false} CountMonotone(t: Table, i: nat, j: nat, session: string)
    requires i <= j <= |t|
    ensures Count(t[..i], session) <= Count(t[..j], session)
    ensures i < j && t[i].session == session ==> Count(t[..i], session) < Count(t[..j], session)
    decreases j
  {
    if i < j {
      assert t[..j][..j - 1] == t[..j - 1];
      CountMonotone(t, i, j - 1, session);
    }
  }

  predicate HasIndex(t: Table, session: string, k: int) {
    exists i :: 0 <= i < |t| && t[i].session == session && t[i].index == k
  }

  /** What density means: indexes grow with the order of storing, and they are exactly
      1, 2, ..., n for a session with n rows. */
  lemma DenseMeans(t: Table, session: string)
    requires Dense(t)
    ensures forall i, j :: 0 <= i < j < |t| && t[i].session == session && t[j].session == session
              ==> t[i].index < t[j].index
    ensures forall i :: 0 <= i < |t| && t[i].session == session ==> 1 <= t[i].index <= Count(t, session)
    ensures forall k :: 1 <= k <= Count(t, session) ==> HasIndex(t, session, k)
  {
    assert t[..|t|] == t;
    forall i, j | 0 <= i < j < |t| && t[i].session == session && t[j].session == session
      ensures t[i].index < t[j].index
    {
      CountMonotone(t, i, j, session);
    }
    forall i | 0 <= i < |t| && t[i].session == session
      ensures 1 <= t[i].index <= Count(t, session)
    {
      CountMonotone(t, i, |t|, session);
    }
    forall k | 1 <= k <= Count(t, session) ensures HasIndex(t, session, k) {
      var i := RowAt(t, session, k);
    }
  }

  lemma {:induction false} RowAt(t: Table, session: string, k: int) returns (i: nat)
    requires Dense(t) && 1 <= k <= Count(t, session)
    ensures i < |t| && t[i].session == session && t[i].index == k
  {
    var last := |t| - 1;
    var before := t[..last];
    assert forall j :: 0 <= j < |before| ==> before[..j] == t[..j];
    if k <= Count(before, session) {
      i := RowAt(before, session, k);
    } else {
      i := last;
    }
  }
}
