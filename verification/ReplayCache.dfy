/**
The bounded replay cache of the audit middleware: an ordered dictionary of correlation ids.
Its specification is the history of the ids that were looked up, read backwards.
*/
module ReplayCache {
  import opened Wrappers

  const MAX_REPLAY_CACHE: nat := 1024

  ghost predicate Distinct(ids: seq<string>) {
    forall i, j :: 0 <= i < j < |ids| ==> ids[i] != ids[j]
  }

  function Without(ids: seq<string>, id: string): (rest: seq<string>)
    ensures |rest| <= |ids|
    ensures forall x :: x in rest <==> x in ids && x != id
  {
    if ids == [] then []
    else if ids[0] == id then Without(ids[1..], id)
    else [ids[0]] + Without(ids[1..], id)
  }

  lemma {:induction false} RemoveDistinct(ids: seq<string>, id: string)
    requires Distinct(ids)
    ensures Distinct(Without(ids, id))
    ensures |Without(ids, id)| == |ids| - if id in ids then 1 else 0
  {
    if ids != [] {
      RemoveDistinct(ids[1..], id);
      if ids[0] != id {
        assert Without(ids, id) == [ids[0]] + Without(ids[1..], id);
        assert ids[0] !in Without(ids[1..], id);
      }
    }
  }

  /** The distinct ids of the history in recency order, least recent first. */
  function Recency(history: seq<string>): (ids: seq<string>)
    ensures forall id :: id in ids <==> id in history
    ensures Distinct(ids)
    ensures |ids| <= |history|
  {
    if history == [] then []
    else
      var last := history[|history| - 1];
      RemoveDistinct(Recency(history[..|history| - 1]), last);
      Without(Recency(history[..|history| - 1]), last) + [last]
  }

  function Tail(ids: seq<string>, limit: nat): seq<string> {
    if |ids| <= limit then ids else ids[|ids| - limit..]
  }

  /** The at most `limit` most recent distinct ids of the history. */
  function Latest(history: seq<string>, limit: nat): seq<string> {
    Tail(Recency(history), limit)
  }

  lemma {:induction false} WithoutConcat(a: seq<string>, b: seq<string>, id: string)
    ensures Without(a + b, id) == Without(a, id) + Without(b, id)
  {
    if a == [] {
      assert a + b == b;
    } else {
      assert (a + b)[1..] == a[1..] + b;
      WithoutConcat(a[1..], b, id);
    }
  }

  lemma {:induction false} WithoutAbsent(a: seq<string>, id: string)
    requires id !in a
    ensures Without(a, id) == a
  {
    if a != [] {
      WithoutAbsent(a[1..], id);
    }
  }

  /** Removing an id commutes with dropping a prefix, up to the one place it may free. */
  lemma WithoutDrop(ids: seq<string>, id: string, n: nat)
    requires Distinct(ids) && n <= |ids|
    ensures id in ids[n..] ==> n <= |Without(ids, id)| && Without(ids, id)[n..] == Without(ids[n..], id)
    ensures id !in ids ==> Without(ids, id) == ids
    ensures id in ids[..n] ==> 0 < n <= |Without(ids, id)| + 1 && Without(ids, id)[n - 1..] == ids[n..]
  {
    assert ids == ids[..n] + ids[n..];
    WithoutConcat(ids[..n], ids[n..], id);
    RemoveDistinct(ids[..n], id);
    if id !in ids[..n] {
      WithoutAbsent(ids[..n], id);
    }
    if id !in ids[n..] {
      WithoutAbsent(ids[n..], id);
    }
  }

  /** Moving another id to the end leaves `id` between what it was between. */
  lemma SplitSurvives(older: seq<string>, id: string, newer: seq<string>, last: string)
    requires last != id
    ensures Without(older + [id] + newer, last) == Without(older, last) + [id] + Without(newer, last)
  {
    WithoutConcat(older + [id], newer, last);
    WithoutConcat(older, [id], last);
    WithoutAbsent([id], last);
  }

  /** After an id, the recency order continues with exactly what was looked up since. */
  lemma {:induction false} RecencySplits(before: seq<string>, id: string, since: seq<string>)
    returns (older: seq<string>)
    requires id !in since
    ensures Recency(before + [id] + since) == older + [id] + Recency(since)
  {
    var history := before + [id] + since;
    if since == [] {
      assert history[..|history| - 1] == before;
      older := Without(Recency(before), id);
    } else {
      var last, rest := since[|since| - 1], since[..|since| - 1];
      var mid := RecencySplits(before, id, rest);
      assert history[..|history| - 1] == before + [id] + rest;
      SplitSurvives(mid, id, Recency(rest), last);
      older := Without(mid, last);
      assert Recency(history) == Without(mid + [id] + Recency(rest), last) + [last];
    }
  }

  lemma {:induction false} DistinctCount(ids: seq<string>)
    requires Distinct(ids)
    ensures |set x | x in ids| == |ids|
  {
    if ids != [] {
      DistinctCount(ids[1..]);
      assert (set x | x in ids) == {ids[0]} + set x | x in ids[1..];
    }
  }

  /** An id is still known exactly when fewer than `limit` other distinct ids were looked up since
      its last sighting. A forgotten one, which reaches the handler again, was followed by that many. */
  lemma KnownIffFewSince(before: seq<string>, id: string, since: seq<string>, limit: nat)
    requires id !in since
    ensures id in Latest(before + [id] + since, limit) <==> |set x | x in since| < limit
  {
    var ids := Recency(before + [id] + since);
    var older := RecencySplits(before, id, since);
    DistinctCount(Recency(since));
    assert (set x | x in Recency(since)) == set x | x in since;
    assert ids[|older|] == id;
    if |ids| > limit {
      var n := |ids| - limit;
      assert n <= |older| ==> ids[n..][|older| - n] == id;
      assert n > |older| ==> id !in ids[n..];
    }
  }

  lemma TailOfKept(ids: seq<string>, id: string, limit: nat)
    requires Distinct(ids) && id in Tail(ids, limit)
    ensures Tail(Without(ids, id) + [id], limit) == Without(Tail(ids, limit), id) + [id]
  {
    var n := if |ids| <= limit then 0 else |ids| - limit;
    RemoveDistinct(ids, id);
    WithoutDrop(ids, id, n);
    assert ids[n..] == Tail(ids, limit);
    assert id in ids;
  }

  /** One more entry at the end pushes out the first of a full tail. */
  lemma TailOfLonger(ids: seq<string>, id: string, limit: nat)
    requires limit > 0
    ensures Tail(ids + [id], limit) ==
      if |ids| < limit then ids + [id] else Tail(ids, limit)[1..] + [id]
  {
    if |ids| >= limit {
      var n := |ids| - limit;
      assert ids[n..][1..] == ids[n + 1..];
      assert (ids + [id])[n + 1..] == ids[n + 1..] + [id];
    }
  }

  lemma TailOfForgotten(ids: seq<string>, id: string, limit: nat)
    requires Distinct(ids) && id in ids && id !in Tail(ids, limit) && limit > 0
    ensures |Tail(ids, limit)| == limit
    ensures Tail(Without(ids, id) + [id], limit) == Tail(ids, limit)[1..] + [id]
  {
    var n := |ids| - limit;
    assert ids == ids[..n] + ids[n..];
    RemoveDistinct(ids, id);
    WithoutDrop(ids, id, n);
    assert Tail(Without(ids, id), limit) == ids[n..];
    TailOfLonger(Without(ids, id), id, limit);
  }

  lemma TailOfNew(ids: seq<string>, id: string, limit: nat)
    requires id !in ids && limit > 0
    ensures Tail(Without(ids, id) + [id], limit) ==
      if |Tail(ids, limit)| < limit then Tail(ids, limit) + [id] else Tail(ids, limit)[1..] + [id]
  {
    WithoutAbsent(ids, id);
    TailOfLonger(ids, id, limit);
  }

  /** The order after a sighting of `id`. */
  function Touched(order: seq<string>, id: string, limit: nat): seq<string> {
    if id in order then Without(order, id) + [id]
    else if |order| < limit then order + [id]
    else (order + [id])[1..]
  }

  /** How one more sighting changes what is kept. */
  lemma LatestStep(history: seq<string>, id: string, limit: nat)
    requires limit > 0
    ensures Distinct(Latest(history, limit)) && |Latest(history, limit)| <= limit
    ensures Latest(history + [id], limit) == Touched(Latest(history, limit), id, limit)
  {
    var ids := Recency(history);
    assert (history + [id])[..|history|] == history;
    if id in Tail(ids, limit) {
      TailOfKept(ids, id, limit);
    } else if id in ids {
      TailOfForgotten(ids, id, limit);
    } else {
      TailOfNew(ids, id, limit);
    }
    var kept := Latest(history, limit);
    assert |kept| == limit ==> (kept + [id])[1..] == kept[1..] + [id];
  }

  function Members(ids: seq<string>): set<string> { set x | x in ids }

  lemma MembersMove(ids: seq<string>, id: string, limit: nat)
    requires Distinct(ids) && limit > 0
    ensures Members(Touched(ids, id, limit)) ==
      if id in ids || |ids| < limit then Members(ids) + {id} else Members(ids) + {id} - {ids[0]}
  {
    if id !in ids && |ids| >= limit {
      assert ids == [ids[0]] + ids[1..];
      assert (ids + [id])[1..] == ids[1..] + [id];
    }
  }

  class Cache {
    // An OrderedDict: its keys in order, and its values.
    var order: seq<string>
    var actions: map<string, string>
    ghost var history: seq<string>

    ghost predicate Valid()
      reads this
    {
      && order == Latest(history, MAX_REPLAY_CACHE)
      && actions.Keys == Members(order)
    }

    constructor ()
      ensures Valid() && history == []
    {
      order, actions, history := [], map[], [];
    }

    method Touch(id: string, action: string) returns (prior: Option<string>)
      requires Distinct(order) && |order| <= MAX_REPLAY_CACHE && actions.Keys == Members(order)
      modifies this`order, this`actions
      ensures order == Touched(old(order), id, MAX_REPLAY_CACHE) && actions.Keys == Members(order)
      ensures prior == Get(old(actions), id)
      ensures prior.Some? <==> id in old(order)
      ensures prior.Some? ==> actions == old(actions)
      ensures prior.None? ==> id in actions && actions[id] == action
    {
      MembersMove(order, id, MAX_REPLAY_CACHE);
      prior := Get(actions, id);
      if prior.Some? {
        order := Without(order, id) + [id];
      } else {
        order := order + [id];
        actions := actions[id := action];
        if |order| > MAX_REPLAY_CACHE {
          actions := actions - {order[0]};
          order := order[1..];
        }
      }
    }

    /** A look-up: a known id moves to the end and its action is reported; a new one is entered,
        and the least recent entry leaves when there are too many. */
    method Sight(id: string, action: string) returns (prior: Option<string>)
      requires Valid()
      modifies this
      ensures Valid() && history == old(history) + [id]
      ensures prior.Some? <==> id in Latest(old(history), MAX_REPLAY_CACHE)
      ensures prior.Some? ==> id in old(actions) && prior.value == old(actions)[id] && actions == old(actions)
      ensures prior.None? ==> id in actions && actions[id] == action
    {
      LatestStep(history, id, MAX_REPLAY_CACHE);
      prior := Touch(id, action);
      history := history + [id];
    }
  }
}
