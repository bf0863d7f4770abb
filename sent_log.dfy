/** The `AlreadySent` register of the storage: the ids of the profiling
    sessions already sent, oldest first. A session is sent only when its id is
    not registered; the register then forgets its oldest entry once it holds
    ten, so it remembers at most the last nine sessions sent. */
module SentLog {
  import opened Profiling

  /** The count at which the register drops its oldest entry. */
  const Capacity := 10

  predicate Distinct(ids: seq<Guid>) {
    forall i, j :: 0 <= i < j < |ids| ==> ids[i] != ids[j]
  }

  /** What the register always satisfies: no id twice, fewer than ten ids. */
  predicate WindowOk(ids: seq<Guid>) {
    Distinct(ids) && |ids| < Capacity
  }

  /** One save of session `id`: whether to send it, and the register after. */
  function Remember(ids: seq<Guid>, id: Guid): (bool, seq<Guid>) {
    var send := id !in ids;
    var added := if send then ids + [id] else ids;
    (send, if |added| >= Capacity then added[1..] else added)
  }

  /** A save sends exactly the sessions not registered; afterwards the id is
      registered, the register still satisfies `WindowOk`, and it is what
      the register plus the new id leaves once the oldest entries beyond nine
      are dropped. */
  lemma {:induction false} RememberFacts(ids: seq<Guid>, id: Guid)
    requires WindowOk(ids)
    ensures var (send, after) := Remember(ids, id);
      && (send <==> id !in ids)
      && WindowOk(after)
      && id in after
      && after == Window(if send then ids + [id] else ids)
  {
    var (send, after) := Remember(ids, id);
    var added := if send then ids + [id] else ids;
    assert Distinct(added) by {
      forall i, j | 0 <= i < j < |added| ensures added[i] != added[j] {
        if j == |ids| {
          assert added[i] == ids[i];
        }
      }
    }
    if |added| >= Capacity {
      assert added[|added| - 1] == id || id in ids;
      assert added[1..][|added| - 2] == added[|added| - 1];
      assert added[1..] == added[|added| - (Capacity - 1)..];
    }
  }

  /** The last nine entries of `s`, or all of them if there are fewer. */
  function Window(s: seq<Guid>): (r: seq<Guid>)
    ensures |r| == if |s| < Capacity then |s| else Capacity - 1
  {
    if |s| < Capacity then s else s[|s| - (Capacity - 1)..]
  }

  /** Saving the same session twice in a row sends it once. */
  lemma {:induction false} SecondSaveNotSent(ids: seq<Guid>, id: Guid)
    requires WindowOk(ids)
    ensures !Remember(Remember(ids, id).1, id).0
    ensures Remember(Remember(ids, id).1, id).1 == Remember(ids, id).1
  {
    RememberFacts(ids, id);
  }

  /** The register after saving the sessions `ids` one after another. */
  function RememberAll(log: seq<Guid>, ids: seq<Guid>): seq<Guid>
    decreases |ids|
  {
    if ids == [] then log else Remember(RememberAll(log, ids[..|ids| - 1]), ids[|ids| - 1]).1
  }

  /** Saving sessions that are all new keeps the last nine of all ids sent. */
  lemma {:induction false} RememberAllNew(log: seq<Guid>, ids: seq<Guid>)
    requires WindowOk(log)
    requires Distinct(log + ids)
    ensures RememberAll(log, ids) == Window(log + ids)
    ensures WindowOk(RememberAll(log, ids))
    decreases |ids|
  {
    if ids != [] {
      var init := ids[..|ids| - 1];
      var id := ids[|ids| - 1];
      assert log + ids == (log + init) + [id];
      assert Distinct(log + init) by {
        forall i, j | 0 <= i < j < |log + init| ensures (log + init)[i] != (log + init)[j] {
          assert (log + init)[i] == (log + ids)[i] && (log + init)[j] == (log + ids)[j];
        }
      }
      RememberAllNew(log, init);
      var w := RememberAll(log, init);
      RememberFacts(w, id);
      assert id !in w by {
        forall k | 0 <= k < |w| ensures w[k] != id {
          var s := log + init;
          var off := if |s| < Capacity then 0 else |s| - (Capacity - 1);
          assert w[k] == s[off + k] == (log + ids)[off + k];
          assert id == (log + ids)[|log + ids| - 1];
        }
      }
      WindowSnoc(log + init, id);
    }
  }

  lemma {:induction false} WindowSnoc(s: seq<Guid>, id: Guid)
    ensures Window(Window(s) + [id]) == Window(s + [id])
  {
    if |s| >= Capacity {
      assert Window(s) + [id] == (s + [id])[|s| - (Capacity - 1)..];
      assert (Window(s) + [id])[1..] == (s + [id])[|s + [id]| - (Capacity - 1)..];
    }
  }

  /** A session stays registered while fewer than nine new sessions are
      saved after it, and is forgotten, so would be sent again, after nine. */
  lemma {:induction false} Eviction(log: seq<Guid>, id: Guid, later: seq<Guid>)
    requires WindowOk(log)
    requires Distinct(log + [id] + later)
    ensures |later| < Capacity - 1 ==> id in RememberAll(log, [id] + later)
    ensures |later| == Capacity - 1 ==> id !in RememberAll(log, [id] + later)
  {
    assert log + ([id] + later) == log + [id] + later;
    RememberAllNew(log, [id] + later);
    var s := log + [id] + later;
    assert s[|log|] == id;
    if |later| < Capacity - 1 {
      assert |s| - (Capacity - 1) <= |log|;
      var w := Window(s);
      if |s| >= Capacity {
        assert w[|log| - (|s| - (Capacity - 1))] == id;
      }
    } else if |later| == Capacity - 1 {
      assert |s| - (Capacity - 1) == |log + [id]|;
      assert s[|log + [id]|..] == later;
      forall k | 0 <= k < |later| ensures later[k] != id {
        assert later[k] == s[|log| + 1 + k];
      }
    }
  }
}
