// The ledger of one handler's artifacts: what it stored, what it still has, and
// what a result refers to.
module Ledger {
  import opened Models
  import opened Lifecycle

  // What is known to be stored, as a list.
  function OptionSeq(id: Option<ArtifactId>): seq<ArtifactId> { if id.Some? then [id.value] else [] }

  predicate NoRepeats(ids: seq<ArtifactId>) { forall i, j :: 0 <= i < j < |ids| ==> ids[i] != ids[j] }

  function Elements(ids: seq<ArtifactId>): set<ArtifactId> { set id | id in ids }

  // Between l and m a handler stored exactly these artifacts, each under a new
  // identifier, and deleted none.
  predicate Gained(l: Local, m: Local, ids: seq<ArtifactId>) {
    && NoRepeats(ids)
    && (forall i :: 0 <= i < |ids| ==> ids[i] !in l.issued)
    && m == l.(live := l.live + Elements(ids), issued := l.issued + Elements(ids))
  }

  // Where a handler stands after storing an artifact, if it did.
  function Storing(l: Local, shot: Option<ArtifactId>): Local {
    if shot.Some? then l.(live := l.live + {shot.value}, issued := l.issued + {shot.value}) else l
  }

  // The handler stored that artifact, if any, under a new identifier.
  predicate Added(l: Local, m: Local, shot: Option<ArtifactId>) {
    m == Storing(l, shot) && (shot.Some? ==> shot.value !in l.issued)
  }

  lemma GainNothing(l: Local)
    ensures Gained(l, l, [])
  {
    assert Elements([]) == {};
  }

  lemma GainMore(l: Local, m: Local, ids: seq<ArtifactId>, shot: Option<ArtifactId>, n: Local)
    requires Gained(l, m, ids) && Added(m, n, shot)
    ensures Gained(l, n, ids + OptionSeq(shot))
    ensures Gained(l, n, OptionSeq(shot) + ids)
  {
    var after, before := ids + OptionSeq(shot), OptionSeq(shot) + ids;
    if shot.Some? {
      assert Elements(after) == Elements(ids) + {shot.value};
      assert Elements(before) == Elements(ids) + {shot.value};
      assert forall i :: 0 <= i < |ids| ==> ids[i] in Elements(ids);
      assert forall i :: 0 < i < |before| ==> before[i] == ids[i - 1];
    } else {
      assert after == ids && before == ids;
    }
  }

  // Between l and m a handler stored these artifacts under new identifiers and
  // still has them; whatever else it stored is deleted again.
  predicate Kept(l: Local, m: Local, ids: seq<ArtifactId>) {
    && NoRepeats(ids)
    && (forall i :: 0 <= i < |ids| ==> ids[i] !in l.issued)
    && l.issued + Elements(ids) <= m.issued
    && m == l.(live := l.live + Elements(ids), issued := m.issued)
  }

  // Storing one more artifact and deleting it again.
  lemma GainAndDelete(l: Local, m: Local, ids: seq<ArtifactId>, id: ArtifactId, n: Local)
    requires Gained(l, m, ids) && id !in m.issued && l.live <= l.issued
    requires n == m.(live := m.live + {id} - {id}, issued := m.issued + {id})
    ensures Kept(l, n, ids)
  {
    assert id !in Elements(ids);
    assert m.live + {id} - {id} == m.live;
  }

  lemma GainOne(l: Local, m: Local, shot: Option<ArtifactId>)
    requires Added(l, m, shot)
    ensures Gained(l, m, OptionSeq(shot))
  {
    GainNothing(l);
    GainMore(l, l, [], shot, m);
    assert [] + OptionSeq(shot) == OptionSeq(shot);
  }

  lemma KeptAfterGain(l: Local, m: Local, ids: seq<ArtifactId>, n: Local)
    requires Gained(l, m, ids) && Kept(m, n, [])
    ensures Kept(l, n, ids)
  {
    assert Elements([]) == {};
    assert m.live + {} == m.live;
  }

  // A final screenshot that is kept, or stored nothing that stays.
  lemma FinalLedger(start: Local, before: Local, ids: seq<ArtifactId>, id: Option<ArtifactId>, after: Local)
    requires Gained(start, before, ids)
    requires if id.Some? then Added(before, after, id) else Kept(before, after, [])
    ensures Kept(start, after, OptionSeq(id) + ids)
  {
    if id.Some? {
      GainMore(start, before, ids, id, after);
    } else {
      KeptAfterGain(start, before, ids, after);
      assert [] + ids == ids;
    }
  }

  lemma KeptAcross(l: Local, launched: Local, m: Local, closed: Local, ids: seq<ArtifactId>)
    requires Kept(launched, m, ids) && !l.profile && !l.browser
    requires launched == l.(profile := true, browser := true) && closed == m.(profile := false, browser := false)
    ensures Kept(l, closed, ids)
  {
  }

  // A stored artifact that the result does not mention is left behind.
  lemma LeftBehind(l: Local, m: Local, stored: Option<ArtifactId>, mentioned: Option<ArtifactId>)
    requires Gained(l, m, OptionSeq(stored)) && l.live <= l.issued && (mentioned.Some? ==> mentioned == stored)
    ensures Kept(l, m, OptionSeq(mentioned)) <==> mentioned == stored
  {
    GainNothing(l);
    if stored.Some? && mentioned.None? {
      assert stored.value in Elements(OptionSeq(stored)) && stored.value in m.live;
      assert stored.value !in l.live + Elements([]);
    }
  }
}
