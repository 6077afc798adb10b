/**
 * The statistics record of the trainer: session totals and one tally per
 * action label, updated by `updateStats` and cleared by `resetStats`
 * (src/App.js lines 70-72 and 122-136).
 */
module Statistics {

  /** One value of `stats.actions`: makes and attempts for one action. */
  datatype ActionStat = ActionStat(makes: nat, total: nat)

  /** `{ total, makes, actions }`, with `actions` keyed by the action label. */
  datatype Stats = Stats(total: nat, makes: nat, actions: map<string, ActionStat>)

  /** One recorded outcome: the action of the round and whether the shot was made. */
  datatype Outcome = Outcome(action: string, made: bool)

  /** Which of the two counters of a tally is meant. */
  datatype Counter = Makes | Total

  function Count(a: ActionStat, c: Counter): nat {
    match c
    case Makes => a.makes
    case Total => a.total
  }

  /** The tally of `action`, or an empty tally when the action has none yet. */
  function EntryOf(m: map<string, ActionStat>, action: string): (a: ActionStat)
    ensures action !in m ==> a == ActionStat(0, 0)
    ensures action in m ==> a == m[action]
  {
    if action in m then m[action] else ActionStat(0, 0)
  }

  /** What one outcome adds to a makes counter: 1 for a make, 0 for a miss. */
  function Point(made: bool): nat {
    if made then 1 else 0
  }

  /** The new stats record built by `updateStats(action, made)` from `prev`. */
  function UpdateStats(prev: Stats, action: string, made: bool): (r: Stats)
    ensures r.total == prev.total + 1
    ensures r.makes == prev.makes + Point(made)
    ensures r.actions.Keys == prev.actions.Keys + {action}
    ensures r.actions[action].total == EntryOf(prev.actions, action).total + 1
    ensures r.actions[action].makes == EntryOf(prev.actions, action).makes + Point(made)
    ensures forall a :: a in prev.actions && a != action ==> r.actions[a] == prev.actions[a]
  {
    var entry := EntryOf(prev.actions, action);
    Stats(prev.total + 1, prev.makes + Point(made),
          prev.actions[action := ActionStat(entry.makes + Point(made), entry.total + 1)])
  }

  /** The record `resetStats` installs, whatever the stats were before. */
  function ResetStats(): (r: Stats)
    ensures StatsValid(r)
    ensures r.total == 0 && r.makes == 0 && |r.actions| == 0
  {
    Stats(0, 0, map[])
  }

  /** Some key of a non-empty map; fixes the order in which `Sum` visits the keys. */
  ghost function PickKey(m: map<string, ActionStat>): (k: string)
    requires m != map[]
    ensures k in m
  {
    var k :| k in m; k
  }

  /** The sum of one counter over all the per-action tallies. */
  ghost function Sum(m: map<string, ActionStat>, c: Counter): nat
    decreases |m|
  {
    if m == map[] then 0
    else
      var k := PickKey(m);
      assert (m - {k}).Keys == m.Keys - {k};
      Count(m[k], c) + Sum(m - {k}, c)
  }

  /** The sum can be split at any key, not only at the one `Sum` picks. */
  lemma {:induction false} SumRemove(m: map<string, ActionStat>, k: string, c: Counter)
    requires k in m
    ensures Sum(m, c) == Count(m[k], c) + Sum(m - {k}, c)
    decreases |m|
  {
    var j := PickKey(m);
    if j != k {
      assert (m - {j}).Keys == m.Keys - {j};
      assert (m - {k}).Keys == m.Keys - {k};
      SumRemove(m - {j}, k, c);
      SumRemove(m - {k}, j, c);
      assert m - {j} - {k} == m - {k} - {j};
    }
  }

  /** Replacing (or adding) the tally of one key changes the sum by the difference of that tally. */
  lemma SumUpdate(m: map<string, ActionStat>, k: string, v: ActionStat, c: Counter)
    ensures Sum(m[k := v], c) == Sum(m, c) - Count(EntryOf(m, k), c) + Count(v, c)
  {
    SumRemove(m[k := v], k, c);
    if k in m {
      SumRemove(m, k, c);
      assert m[k := v] - {k} == m - {k};
    } else {
      assert m[k := v] - {k} == m;
    }
  }

  /** Every tally has no more makes than attempts. */
  ghost predicate TalliesBounded(m: map<string, ActionStat>) {
    forall a :: a in m ==> m[a].makes <= m[a].total
  }

  /** The invariant of the stats record: bounded tallies whose sums are the session totals. */
  ghost predicate StatsValid(s: Stats) {
    && TalliesBounded(s.actions)
    && s.total == Sum(s.actions, Total)
    && s.makes == Sum(s.actions, Makes)
  }

  lemma {:induction false} SumMakesBounded(m: map<string, ActionStat>)
    requires TalliesBounded(m)
    ensures Sum(m, Makes) <= Sum(m, Total)
    decreases |m|
  {
    if m != map[] {
      var k := PickKey(m);
      assert (m - {k}).Keys == m.Keys - {k};
      SumMakesBounded(m - {k});
    }
  }

  /** A valid record never has more makes than attempts, overall or per action. */
  lemma StatsValidBounded(s: Stats)
    requires StatsValid(s)
    ensures s.makes <= s.total
    ensures forall a :: a in s.actions ==> s.actions[a].makes <= s.actions[a].total
  {
    SumMakesBounded(s.actions);
  }

  /** `updateStats` keeps the invariant of the stats record. */
  lemma UpdateStatsValid(prev: Stats, action: string, made: bool)
    requires StatsValid(prev)
    ensures StatsValid(UpdateStats(prev, action, made))
  {
    var entry := EntryOf(prev.actions, action);
    var v := ActionStat(entry.makes + Point(made), entry.total + 1);
    SumUpdate(prev.actions, action, v, Total);
    SumUpdate(prev.actions, action, v, Makes);
  }

  /** The stats after recording `outs` in order, starting from `s`. */
  function Replay(s: Stats, outs: seq<Outcome>): Stats
    decreases |outs|
  {
    if outs == [] then s
    else
      var n := |outs| - 1;
      UpdateStats(Replay(s, outs[..n]), outs[n].action, outs[n].made)
  }

  /** Recording one more outcome is one more update. */
  lemma ReplaySnoc(s: Stats, outs: seq<Outcome>, o: Outcome)
    ensures Replay(s, outs + [o]) == UpdateStats(Replay(s, outs), o.action, o.made)
  {
    assert (outs + [o])[..|outs|] == outs;
  }

  /** Number of outcomes in `outs` that were makes. */
  function MadeCount(outs: seq<Outcome>): nat
    decreases |outs|
  {
    if outs == [] then 0 else MadeCount(outs[..|outs| - 1]) + Point(outs[|outs| - 1].made)
  }

  /** Number of outcomes in `outs` for `action`. */
  function TotalFor(outs: seq<Outcome>, action: string): nat
    decreases |outs|
  {
    if outs == [] then 0
    else TotalFor(outs[..|outs| - 1], action) + (if outs[|outs| - 1].action == action then 1 else 0)
  }

  /** Number of makes in `outs` for `action`. */
  function MakesFor(outs: seq<Outcome>, action: string): nat
    decreases |outs|
  {
    if outs == [] then 0
    else
      var o := outs[|outs| - 1];
      MakesFor(outs[..|outs| - 1], action) + (if o.action == action then Point(o.made) else 0)
  }

  /**
   * After a reset, the stats are the plain counts of the outcomes recorded since:
   * one attempt per outcome, one make per made shot, and per action exactly the
   * attempts and makes for that action, with an entry only for actions attempted.
   */
  lemma {:induction false} ReplayFromReset(outs: seq<Outcome>)
    ensures Replay(ResetStats(), outs).total == |outs|
    ensures Replay(ResetStats(), outs).makes == MadeCount(outs)
    ensures forall a :: a in Replay(ResetStats(), outs).actions <==> TotalFor(outs, a) > 0
    ensures forall a :: a in Replay(ResetStats(), outs).actions ==>
              Replay(ResetStats(), outs).actions[a] == ActionStat(MakesFor(outs, a), TotalFor(outs, a))
    decreases |outs|
  {
    if outs != [] {
      var n := |outs| - 1;
      ReplayFromReset(outs[..n]);
      MakesForBounded(outs[..n], outs[n].action);
    }
  }

  lemma {:induction false} MakesForBounded(outs: seq<Outcome>, action: string)
    ensures MakesFor(outs, action) <= TotalFor(outs, action)
    decreases |outs|
  {
    if outs != [] {
      MakesForBounded(outs[..|outs| - 1], action);
    }
  }

  /** Any sequence of recorded outcomes keeps the invariant of the stats record. */
  lemma {:induction false} ReplayValid(s: Stats, outs: seq<Outcome>)
    requires StatsValid(s)
    ensures StatsValid(Replay(s, outs))
    decreases |outs|
  {
    if outs != [] {
      var n := |outs| - 1;
      ReplayValid(s, outs[..n]);
      UpdateStatsValid(Replay(s, outs[..n]), outs[n].action, outs[n].made);
    }
  }

  /** Two updates commute: the record does not depend on the order of outcomes. */
  lemma UpdateStatsCommute(s: Stats, a: string, m: bool, b: string, n: bool)
    ensures UpdateStats(UpdateStats(s, a, m), b, n) == UpdateStats(UpdateStats(s, b, n), a, m)
  {
    if a == b {
      assert UpdateStats(UpdateStats(s, a, m), b, n).actions == UpdateStats(UpdateStats(s, b, n), a, m).actions;
    } else {
      assert UpdateStats(UpdateStats(s, a, m), b, n).actions == UpdateStats(UpdateStats(s, b, n), a, m).actions;
    }
  }
}
