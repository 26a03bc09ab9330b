/** The journey-history view: saved journeys ordered by timestamp, newest
    first, with the ordering `(a, b) => b.timestamp - a.timestamp` and the
    stability of JavaScript's `Array.prototype.sort`. */
module History {
  import opened Types

  predicate NewestFirst(rs: seq<SavedRoute>)
  {
    forall i, j :: 0 <= i < j < |rs| ==> rs[i].timestamp >= rs[j].timestamp
  }

  /** The entries of `rs` with timestamp `t`, in their order in `rs`. */
  function WithTimestamp(rs: seq<SavedRoute>, t: int): seq<SavedRoute>
  {
    if rs == [] then []
    else (if rs[0].timestamp == t then [rs[0]] else []) + WithTimestamp(rs[1..], t)
  }

  /** No entry of `rs` is newer than `t`. */
  predicate NoneNewerThan(rs: seq<SavedRoute>, t: int)
  {
    forall i :: 0 <= i < |rs| ==> rs[i].timestamp <= t
  }

  lemma ConsNewestFirst(r: SavedRoute, rs: seq<SavedRoute>)
    requires NewestFirst(rs) && NoneNewerThan(rs, r.timestamp)
    ensures NewestFirst([r] + rs)
  {
    var out := [r] + rs;
    forall i, j | 0 <= i < j < |out| ensures out[i].timestamp >= out[j].timestamp {
      if i > 0 {
        assert out[i] == rs[i - 1] && out[j] == rs[j - 1];
      } else {
        assert out[j] == rs[j - 1];
      }
    }
  }

  lemma TailNotNewer(rs: seq<SavedRoute>)
    requires NewestFirst(rs) && rs != []
    ensures NewestFirst(rs[1..]) && NoneNewerThan(rs[1..], rs[0].timestamp)
  {
    forall i | 0 <= i < |rs[1..]| ensures rs[1..][i].timestamp <= rs[0].timestamp {
      assert rs[1..][i] == rs[i + 1];
    }
    forall i, j | 0 <= i < j < |rs[1..]| ensures rs[1..][i].timestamp >= rs[1..][j].timestamp {
      assert rs[1..][i] == rs[i + 1] && rs[1..][j] == rs[j + 1];
    }
  }

  lemma PermutationKeepsBound(out: seq<SavedRoute>, rs: seq<SavedRoute>, r: SavedRoute, b: int)
    requires multiset(out) == multiset(rs) + multiset{r}
    requires NoneNewerThan(rs, b) && r.timestamp <= b
    ensures NoneNewerThan(out, b)
  {
    forall i | 0 <= i < |out| ensures out[i].timestamp <= b {
      assert out[i] in multiset(out);
      if out[i] != r {
        assert out[i] in multiset(rs);
        assert out[i] in rs;
      }
    }
  }

  /** Places `r` before the first entry that is not newer than it, so `r`
      stays ahead of the entries with its own timestamp. */
  function Insert(r: SavedRoute, rs: seq<SavedRoute>): (out: seq<SavedRoute>)
    requires NewestFirst(rs)
    ensures NewestFirst(out)
    ensures multiset(out) == multiset(rs) + multiset{r}
    decreases |rs|
  {
    if rs == [] || r.timestamp >= rs[0].timestamp then
      assert NoneNewerThan(rs, r.timestamp) by {
        if rs != [] { TailNotNewer(rs); }
      }
      ConsNewestFirst(r, rs);
      [r] + rs
    else
      TailNotNewer(rs);
      var tail := Insert(r, rs[1..]);
      PermutationKeepsBound(tail, rs[1..], r, rs[0].timestamp);
      ConsNewestFirst(rs[0], tail);
      assert rs == [rs[0]] + rs[1..];
      [rs[0]] + tail
  }

  /** The history list: the saved journeys newest first; the same journeys,
      each as often as before. */
  function SortNewestFirst(rs: seq<SavedRoute>): (out: seq<SavedRoute>)
    ensures NewestFirst(out)
    ensures multiset(out) == multiset(rs)
    ensures |out| == |rs|
  {
    if rs == [] then []
    else
      assert rs == [rs[0]] + rs[1..];
      Insert(rs[0], SortNewestFirst(rs[1..]))
  }

  lemma WithTimestampCons(r: SavedRoute, rs: seq<SavedRoute>, t: int)
    ensures WithTimestamp([r] + rs, t) == (if r.timestamp == t then [r] else []) + WithTimestamp(rs, t)
  {
    assert ([r] + rs)[1..] == rs;
  }

  lemma {:induction false} InsertStable(r: SavedRoute, rs: seq<SavedRoute>, t: int)
    requires NewestFirst(rs)
    ensures WithTimestamp(Insert(r, rs), t) == (if r.timestamp == t then [r] else []) + WithTimestamp(rs, t)
    decreases |rs|
  {
    if rs != [] && r.timestamp < rs[0].timestamp {
      TailNotNewer(rs);
      var tail := Insert(r, rs[1..]);
      assert Insert(r, rs) == [rs[0]] + tail;
      InsertStable(r, rs[1..], t);
      WithTimestampCons(rs[0], tail, t);
      var head := if rs[0].timestamp == t then [rs[0]] else [];
      var mine := if r.timestamp == t then [r] else [];
      assert head == [] || mine == [];
      calc {
        WithTimestamp(Insert(r, rs), t);
        head + WithTimestamp(tail, t);
        head + (mine + WithTimestamp(rs[1..], t));
        mine + (head + WithTimestamp(rs[1..], t));
        mine + WithTimestamp(rs, t);
      }
    } else {
      assert Insert(r, rs) == [r] + rs;
      WithTimestampCons(r, rs, t);
    }
  }

  /** The sort is stable: journeys sharing a timestamp keep their relative
      order. With `NewestFirst` and the multiset equality this fixes the
      result completely. */
  lemma {:induction false} SortIsStable(rs: seq<SavedRoute>, t: int)
    ensures WithTimestamp(SortNewestFirst(rs), t) == WithTimestamp(rs, t)
    decreases |rs|
  {
    if rs != [] {
      var tail := SortNewestFirst(rs[1..]);
      SortIsStable(rs[1..], t);
      InsertStable(rs[0], tail, t);
      assert SortNewestFirst(rs) == Insert(rs[0], tail);
    }
  }
}
