/**
 * Kuhn's augmenting-path search, the nested `assign_prediction` of `_match_points`
 * (src/fh_agent/evals/spatial_perception_metrics.py), over candidate lists alone.
 */
module AugmentingPaths {
  import opened Prelude
  import opened Ordering

  // ----- the search state: target index -> prediction index -----

  type Assignment = map<nat, nat>

  ghost predicate Edges(m: Assignment, candidates: seq<seq<nat>>) {
    forall t :: t in m ==> m[t] < |candidates| && t in candidates[m[t]]
  }

  ghost predicate OneToOne(m: Assignment) {
    forall s, t :: s in m && t in m && m[s] == m[t] ==> s == t
  }

  ghost predicate Covers(m: Assignment, p: nat) {
    exists t :: t in m && m[t] == p
  }

  /**
   * The certificate left by failed searches: every candidate of a stuck prediction
   * is matched, and matched to a stuck prediction.
   */
  ghost predicate Stuck(stuck: set<nat>, m: Assignment, candidates: seq<seq<nat>>) {
    forall p :: p in stuck ==> p < |candidates| && forall t :: t in candidates[p] ==> t in m && m[t] in stuck
  }

  ghost predicate Targets(candidates: seq<seq<nat>>, universe: set<nat>) {
    forall p, t :: 0 <= p < |candidates| && t in candidates[p] ==> t in universe
  }

  /** Every target reached since `before` is matched, and its holder's candidates have been reached too. */
  ghost predicate Explored(m: Assignment, candidates: seq<seq<nat>>, before: set<nat>, seen: set<nat>) {
    forall t :: t in seen && t !in before ==> t in m && m[t] < |candidates| && AllSeen(candidates[m[t]], seen)
  }

  ghost predicate AllSeen(list: seq<nat>, seen: set<nat>) {
    forall t :: t in list ==> t in seen
  }

  /**
   * A successful search from `p`: one target more is matched, nobody loses their match, the targets
   * in `frozen` keep theirs, and `p` now holds a target outside `frozen`. `p` may still hold its
   * former target as well, which then lies in `frozen` and is about to be overwritten by the caller.
   */
  ghost predicate Augmented(m: Assignment, m': Assignment, p: nat, frozen: set<nat>, stuck: set<nat>) {
    && KeepsFrozen(m, m', frozen) && OneMore(m, m') && HoldsOutside(m', p, frozen) && CoversOneMore(m, m', p)
    && SharesOnly(m', p, frozen) && KeepsStuck(m, m', stuck)
  }

  ghost predicate KeepsFrozen(m: Assignment, m': Assignment, frozen: set<nat>) {
    forall t :: t in frozen ==> (t in m <==> t in m') && (t in m ==> m'[t] == m[t])
  }

  ghost predicate OneMore(m: Assignment, m': Assignment) {
    m.Keys <= m'.Keys && |m'.Keys| == |m.Keys| + 1
  }

  ghost predicate HoldsOutside(m': Assignment, p: nat, frozen: set<nat>) {
    exists t :: t in m' && t !in frozen && m'[t] == p
  }

  ghost predicate CoversOneMore(m: Assignment, m': Assignment, p: nat) {
    forall q :: Covers(m', q) <==> Covers(m, q) || q == p
  }

  ghost predicate SharesOnly(m': Assignment, p: nat, frozen: set<nat>) {
    forall s, t :: s in m' && t in m' && s != t && m'[s] == m'[t] ==> m'[s] == p && (s in frozen || t in frozen)
  }

  ghost predicate KeepsStuck(m: Assignment, m': Assignment, stuck: set<nat>) {
    forall t :: t in m && m[t] in stuck ==> t in m' && m'[t] == m[t]
  }

  /** `matched_targets` and the `seen_targets` of the running search, updated in place. */
  class Matcher {
    const candidates: seq<seq<nat>>
    var matched: Assignment
    var seen: set<nat>

    constructor (candidates: seq<seq<nat>>)
      ensures this.candidates == candidates && matched == map[] && seen == {}
    {
      this.candidates := candidates;
      matched := map[];
      seen := {};
    }

    /**
     * One augmenting-path search. `stuck` is the certificate of the earlier failed searches:
     * no search that starts outside it succeeds through it.
     */
    method AssignPrediction(p: nat, ghost universe: set<nat>, ghost stuck: set<nat>) returns (placed: bool)
      requires p < |candidates| && Targets(candidates, universe) && seen <= universe
      requires Edges(matched, candidates) && OneToOne(matched) && Stuck(stuck, matched, candidates)
      requires forall t :: t in matched && matched[t] == p ==> t in seen
      modifies this`matched, this`seen
      ensures old(seen) <= seen <= universe
      ensures !placed ==> matched == old(matched) && Explored(matched, candidates, old(seen), seen)
                          && AllSeen(candidates[p], seen)
      ensures placed ==> p !in stuck && Edges(matched, candidates)
                         && Augmented(old(matched), matched, p, old(seen), stuck)
      decreases universe - seen
    {
      hide Edges, OneToOne, Stuck, Augmented, Targets, Explored, AllSeen;
      ghost var before, start := matched, seen;
      NothingExplored(before, candidates, start);
      for i := 0 to |candidates[p]|
        invariant matched == before && start <= seen <= universe
        invariant AllSeen(candidates[p][..i], seen)
        invariant Explored(before, candidates, start, seen)
      {
        var t := candidates[p][i];
        SeenNext(candidates[p], i, seen);
        if t !in seen {
          ghost var reached := seen;
          CandidateInUniverse(candidates, universe, p, t);
          seen := seen + {t};
          if t !in matched {
            matched := matched[t := p];
            AugmentFree(before, matched, p, t, start, stuck, candidates);
            return true;
          }
          var current := matched[t];
          HolderOf(before, candidates, t);
          var freed := AssignPrediction(current, universe, stuck);
          if freed {
            ghost var middle := matched;
            matched := matched[t := p];
            AugmentThrough(before, middle, matched, p, t, start, reached + {t}, stuck, candidates);
            return true;
          }
          ExploredFurther(before, candidates, t, start, reached, seen);
          SeenMore(candidates[p][..i], t, reached, seen);
        }
      }
      assert candidates[p][..|candidates[p]|] == candidates[p];
      return false;
    }

    /** A search from every prediction in turn, each with a fresh set of seen targets. */
    method AssignInOrder(order: seq<nat>, ghost universe: set<nat>)
      requires matched == map[] && Targets(candidates, universe)
      requires NoDuplicates(order) && forall p: nat :: p in order <==> p < |candidates|
      modifies this`matched, this`seen
      ensures Edges(matched, candidates) && OneToOne(matched)
      ensures IsMatching(Pairs(matched), candidates) && |Pairs(matched)| == |matched|
      ensures forall rival :: IsMatching(rival, candidates) ==> |rival| <= |matched|
    {
      hide Certified, Augmented, Explored, AllSeen, Targets, Edges, OneToOne, Stuck, Covers, IsMatching, Pairs;
      ghost var stuck: set<nat>, done: set<nat> := {}, {};
      CertifiedStart(candidates);
      for i := 0 to |order|
        invariant Certified(matched, candidates, stuck, done)
        invariant forall j :: 0 <= j < |order| ==> (order[j] in done <==> j < i)
      {
        ghost var before := matched;
        var p := order[i];
        assert p in order;
        CertifiedReady(before, candidates, stuck, done, p);
        seen := {};
        var placed := AssignPrediction(p, universe, stuck);
        if placed {
          CertifiedAfterSuccess(before, matched, p, stuck, done, candidates);
        } else {
          stuck := CertifiedAfterFailure(before, p, stuck, done, seen, candidates);
        }
        done := done + {p};
      }
      assert forall p :: p in order ==> p in done;
      CertifiedEnd(matched, candidates, stuck, done);
      StuckMeansMaximum(matched, stuck, candidates);
    }
  }

  lemma NothingExplored(m: Assignment, candidates: seq<seq<nat>>, seen: set<nat>)
    ensures Explored(m, candidates, seen, seen) && AllSeen([], seen)
  {}

  lemma SeenNext(list: seq<nat>, i: nat, seen: set<nat>)
    requires i < |list| && AllSeen(list[..i], seen)
    ensures list[i] in list && list[..i + 1] == list[..i] + [list[i]]
    ensures list[i] in seen ==> AllSeen(list[..i + 1], seen)
  {}

  lemma SeenMore(list: seq<nat>, t: nat, reached: set<nat>, seen: set<nat>)
    requires AllSeen(list, reached) && reached + {t} <= seen
    ensures AllSeen(list + [t], seen)
  {}

  lemma CandidateInUniverse(candidates: seq<seq<nat>>, universe: set<nat>, p: nat, t: nat)
    requires Targets(candidates, universe) && p < |candidates| && t in candidates[p]
    ensures t in universe
  {}

  /** The holder of a target holds no other. */
  lemma HolderOf(m: Assignment, candidates: seq<seq<nat>>, t: nat)
    requires Edges(m, candidates) && OneToOne(m) && t in m
    ensures m[t] < |candidates| && forall s :: s in m && m[s] == m[t] ==> s == t
  {}

  lemma ExploredFurther(m: Assignment, candidates: seq<seq<nat>>, t: nat, start: set<nat>, reached: set<nat>,
                        seen: set<nat>)
    requires reached <= seen && t in m && m[t] < |candidates|
    requires Explored(m, candidates, start, reached) && Explored(m, candidates, reached + {t}, seen)
      && AllSeen(candidates[m[t]], seen)
    ensures Explored(m, candidates, start, seen)
  {}

  /** Success on an unmatched target. */
  lemma AugmentFree(m: Assignment, m': Assignment, p: nat, t: nat, start: set<nat>, stuck: set<nat>,
                    candidates: seq<seq<nat>>)
    requires p < |candidates| && t in candidates[p] && t !in m && t !in start && m' == m[t := p]
    requires Edges(m, candidates) && OneToOne(m) && Stuck(stuck, m, candidates)
    requires forall s :: s in m && m[s] == p ==> s in start
    ensures p !in stuck && Edges(m', candidates) && Augmented(m, m', p, start, stuck)
  {
    assert p !in stuck;
    hide Stuck, Edges, Augmented;
    EdgesWith(m, p, t, candidates);
    AugmentedWith(m, m', p, t, start, stuck);
  }

  lemma EdgesWith(m: Assignment, p: nat, t: nat, candidates: seq<seq<nat>>)
    requires Edges(m, candidates) && p < |candidates| && t in candidates[p]
    ensures Edges(m[t := p], candidates)
  {}

  lemma AugmentedWith(m: Assignment, m': Assignment, p: nat, t: nat, start: set<nat>, stuck: set<nat>)
    requires t !in m && t !in start && m' == m[t := p] && OneToOne(m)
    requires forall s :: s in m && m[s] == p ==> s in start
    ensures Augmented(m, m', p, start, stuck)
  {
    WithCovers(m, p, t);
    WithRest(m, p, t, start, stuck);
    WithShares(m, p, t, start);
    hide KeepsFrozen, OneMore, HoldsOutside, CoversOneMore, SharesOnly, KeepsStuck, OneToOne;
  }

  lemma WithRest(m: Assignment, p: nat, t: nat, start: set<nat>, stuck: set<nat>)
    requires t !in m && t !in start
    ensures var m' := m[t := p];
      KeepsFrozen(m, m', start) && OneMore(m, m') && HoldsOutside(m', p, start) && KeepsStuck(m, m', stuck)
  {
    var m' := m[t := p];
    assert m'.Keys == m.Keys + {t};
    assert t in m' && m'[t] == p;
  }

  lemma WithShares(m: Assignment, p: nat, t: nat, start: set<nat>)
    requires t !in m && OneToOne(m) && forall s :: s in m && m[s] == p ==> s in start
    ensures SharesOnly(m[t := p], p, start)
  {}

  lemma WithCovers(m: Assignment, p: nat, t: nat)
    requires t !in m
    ensures CoversOneMore(m, m[t := p], p)
  {
    var m' := m[t := p];
    assert t in m' && m'[t] == p;
    forall q ensures Covers(m', q) <==> Covers(m, q) || q == p {
      if Covers(m, q) {
        var s :| s in m && m[s] == q;
        assert s in m' && m'[s] == q;
      }
    }
  }

  /** Success by moving the prediction that held `t` elsewhere. */
  lemma AugmentThrough(m: Assignment, middle: Assignment, m': Assignment, p: nat, t: nat, start: set<nat>,
                       frozen: set<nat>, stuck: set<nat>,
                       candidates: seq<seq<nat>>)
    requires t in m && t !in start && start <= frozen && t in frozen && m' == middle[t := p]
    requires p < |candidates| && t in candidates[p] && Edges(middle, candidates) && Stuck(stuck, m, candidates)
    requires OneToOne(m) && m[t] !in stuck && Augmented(m, middle, m[t], frozen, stuck)
    requires forall s :: s in m && m[s] == p ==> s in start
    ensures p !in stuck && Edges(m', candidates) && Augmented(m, m', p, start, stuck)
  {
    assert p !in stuck;
    hide Stuck, Edges, Augmented, OneToOne;
    EdgesWith(middle, p, t, candidates);
    AugmentedThrough(m, middle, m', p, t, start, frozen, stuck);
  }

  lemma AugmentedThrough(m: Assignment, middle: Assignment, m': Assignment, p: nat, t: nat, start: set<nat>,
                         frozen: set<nat>, stuck: set<nat>)
    requires t in m && t !in start && start <= frozen && t in frozen && m' == middle[t := p]
    requires OneToOne(m) && m[t] !in stuck && Augmented(m, middle, m[t], frozen, stuck)
    requires forall s :: s in m && m[s] == p ==> s in start
    ensures Augmented(m, m', p, start, stuck)
  {
    MovedRest(m, middle, m', p, t, start, frozen, stuck);
    MovedCovering(m, middle, m', p, t, frozen);
    MovedShares(m, middle, m', p, t, start, frozen);
    hide KeepsFrozen, OneMore, HoldsOutside, CoversOneMore, SharesOnly, KeepsStuck, OneToOne;
  }

  lemma MovedRest(m: Assignment, middle: Assignment, m': Assignment, p: nat, t: nat, start: set<nat>,
                  frozen: set<nat>, stuck: set<nat>)
    requires t in m && t !in start && start <= frozen && t in frozen && m' == middle[t := p] && m[t] !in stuck
    requires KeepsFrozen(m, middle, frozen) && OneMore(m, middle) && KeepsStuck(m, middle, stuck)
    ensures t in middle && middle[t] == m[t]
    ensures KeepsFrozen(m, m', start) && OneMore(m, m') && HoldsOutside(m', p, start) && KeepsStuck(m, m', stuck)
  {
    assert t in middle && middle[t] == m[t];
    assert m'.Keys == middle.Keys;
    assert t in m' && m'[t] == p;
  }

  lemma MovedCovering(m: Assignment, middle: Assignment, m': Assignment, p: nat, t: nat, frozen: set<nat>)
    requires t in m && t in frozen && t in middle && middle[t] == m[t] && m' == middle[t := p]
    requires HoldsOutside(middle, m[t], frozen) && CoversOneMore(m, middle, m[t])
    ensures CoversOneMore(m, m', p)
  {
    hide HoldsOutside;
    forall q ensures Covers(m', q) <==> Covers(m, q) || q == p {
      MovedCovers(m, middle, m', p, t, frozen, q);
    }
  }

  lemma MovedShares(m: Assignment, middle: Assignment, m': Assignment, p: nat, t: nat, start: set<nat>,
                    frozen: set<nat>)
    requires t in m && t !in start && start <= frozen && t in frozen && t in middle && middle[t] == m[t]
      && m' == middle[t := p]
    requires KeepsFrozen(m, middle, frozen) && CoversOneMore(m, middle, m[t]) && SharesOnly(middle, m[t], frozen)
    requires OneToOne(m) && forall s :: s in m && m[s] == p ==> s in start
    ensures SharesOnly(m', p, start)
  {
    hide KeepsFrozen, CoversOneMore, OneToOne;
    forall s, u | s in m' && u in m' && s != u && m'[s] == m'[u] ensures m'[s] == p && (s in start || u in start) {
      MovedDistinct(m, middle, m', p, t, start, frozen, s, u);
    }
  }

  lemma MovedDistinct(m: Assignment, middle: Assignment, m': Assignment, p: nat, t: nat, start: set<nat>,
                      frozen: set<nat>, s: nat, u: nat)
    requires t in m && t !in start && start <= frozen && t in frozen && t in middle && middle[t] == m[t]
      && m' == middle[t := p]
    requires KeepsFrozen(m, middle, frozen) && CoversOneMore(m, middle, m[t]) && SharesOnly(middle, m[t], frozen)
    requires OneToOne(m) && forall s :: s in m && m[s] == p ==> s in start
    requires s in m' && u in m' && s != u && m'[s] == m'[u]
    ensures m'[s] == p && (s in start || u in start)
  {
    if s == t || u == t {
      var w := if s == t then u else s;
      assert middle[w] == p && p != m[t];
      assert Covers(middle, p);
      var x :| x in m && m[x] == p;
      assert x in frozen && middle[x] == p;
      assert w == x;
    }
  }

  lemma MovedCovers(m: Assignment, middle: Assignment, m': Assignment, p: nat, t: nat, frozen: set<nat>, q: nat)
    requires t in m && t in frozen && t in middle && middle[t] == m[t] && m' == middle[t := p]
    requires HoldsOutside(middle, m[t], frozen) && CoversOneMore(m, middle, m[t])
    ensures Covers(m', q) <==> Covers(m, q) || q == p
  {
    assert Covers(m, m[t]);
    assert t in m' && m'[t] == p;
    var moved :| moved in middle && moved !in frozen && middle[moved] == m[t];
    assert moved in m' && m'[moved] == m[t];
    assert Covers(middle, q) <==> Covers(m, q);
    if Covers(middle, q) && q != m[t] {
      var s :| s in middle && middle[s] == q;
      assert s in m' && m'[s] == q;
    }
    if Covers(m', q) && q != p {
      var s :| s in m' && m'[s] == q;
      assert s in middle && middle[s] == q;
    }
  }

  /** A one-to-one assignment of the predictions in `done`, except those whose failure `stuck` certifies. */
  ghost predicate Certified(m: Assignment, candidates: seq<seq<nat>>, stuck: set<nat>, done: set<nat>) {
    && Edges(m, candidates) && OneToOne(m) && Stuck(stuck, m, candidates)
    && (forall q :: Covers(m, q) ==> q in done)
    && (forall q :: q in done ==> Covers(m, q) || q in stuck)
  }

  lemma CertifiedAfterSuccess(m: Assignment, m': Assignment, p: nat, stuck: set<nat>, done: set<nat>,
                              candidates: seq<seq<nat>>)
    requires Certified(m, candidates, stuck, done)
    requires Edges(m', candidates) && Augmented(m, m', p, {}, stuck)
    ensures Certified(m', candidates, stuck, done + {p})
  {
    AugmentedKeepsStuck(m, m', p, stuck, candidates);
    AugmentedKeepsOneToOne(m, m', p, stuck);
  }

  lemma AugmentedKeepsStuck(m: Assignment, m': Assignment, p: nat, stuck: set<nat>, candidates: seq<seq<nat>>)
    requires Stuck(stuck, m, candidates) && Augmented(m, m', p, {}, stuck)
    ensures Stuck(stuck, m', candidates)
  {}

  lemma AugmentedKeepsOneToOne(m: Assignment, m': Assignment, p: nat, stuck: set<nat>)
    requires OneToOne(m) && Augmented(m, m', p, {}, stuck)
    ensures OneToOne(m')
  {}

  lemma CertifiedStart(candidates: seq<seq<nat>>)
    ensures Certified(map[], candidates, {}, {})
  {}

  lemma CertifiedReady(m: Assignment, candidates: seq<seq<nat>>, stuck: set<nat>, done: set<nat>, p: nat)
    requires Certified(m, candidates, stuck, done) && p !in done
    ensures Edges(m, candidates) && OneToOne(m) && Stuck(stuck, m, candidates)
    ensures forall t :: t in m ==> m[t] != p
  {
    assert !Covers(m, p);
  }

  lemma CertifiedEnd(m: Assignment, candidates: seq<seq<nat>>, stuck: set<nat>, done: set<nat>)
    requires Certified(m, candidates, stuck, done) && forall p :: 0 <= p < |candidates| ==> p in done
    ensures Edges(m, candidates) && OneToOne(m) && Stuck(stuck, m, candidates)
    ensures forall p :: 0 <= p < |candidates| ==> Covers(m, p) || p in stuck
  {}

  /** A failed search extends the certificate by its origin and by the holders of every target it reached. */
  lemma CertifiedAfterFailure(m: Assignment, p: nat, stuck: set<nat>, done: set<nat>, seen: set<nat>,
                              candidates: seq<seq<nat>>)
    returns (stuck': set<nat>)
    requires Certified(m, candidates, stuck, done) && p < |candidates|
    requires Explored(m, candidates, {}, seen) && AllSeen(candidates[p], seen)
    ensures Certified(m, candidates, stuck', done + {p})
  {
    stuck' := stuck + {p} + set t | t in seen && t in m :: m[t];
    assert Stuck(stuck', m, candidates);
  }

  // ----- from the certificate to maximality -----

  /** A set of (prediction, target) pairs, one-to-one, each target a candidate of its prediction. */
  ghost predicate IsMatching(pairs: set<(nat, nat)>, candidates: seq<seq<nat>>) {
    && (forall e :: e in pairs ==> e.0 < |candidates| && e.1 in candidates[e.0])
    && (forall e, f :: e in pairs && f in pairs ==> (e.0 == f.0 <==> e.1 == f.1))
  }

  ghost function Pairs(m: Assignment): (r: set<(nat, nat)>)
    ensures forall e :: e in r <==> e.1 in m && m[e.1] == e.0
  {
    set t | t in m :: (m[t], t)
  }

  lemma PairsCount(m: Assignment)
    ensures |Pairs(m)| == |m|
  {
    InjectionBound(m.Keys, Pairs(m), map t | t in m :: (m[t], t));
    InjectionBound(Pairs(m), m.Keys, map e: (nat, nat) | e in Pairs(m) :: e.1);
    assert |m.Keys| == |m|;
  }

  /** If every prediction without a target is stuck, no matching has more pairs than `m`. */
  lemma StuckMeansMaximum(m: Assignment, stuck: set<nat>, candidates: seq<seq<nat>>)
    requires Edges(m, candidates) && OneToOne(m) && Stuck(stuck, m, candidates)
    requires forall p :: 0 <= p < |candidates| ==> Covers(m, p) || p in stuck
    ensures IsMatching(Pairs(m), candidates) && |Pairs(m)| == |m|
    ensures forall rival :: IsMatching(rival, candidates) ==> |rival| <= |m|
  {
    PairsCount(m);
    forall rival | IsMatching(rival, candidates) ensures |rival| <= |m| {
      RivalFits(m, stuck, candidates, rival);
    }
  }

  /**
   * Each pair of a rival is sent to a target of `m`: its own if its prediction is stuck,
   * else the one `m` gives that prediction.
   */
  lemma RivalFits(m: Assignment, stuck: set<nat>, candidates: seq<seq<nat>>, rival: set<(nat, nat)>)
    requires Stuck(stuck, m, candidates)
    requires forall p :: 0 <= p < |candidates| ==> Covers(m, p) || p in stuck
    requires IsMatching(rival, candidates)
    ensures |rival| <= |m|
  {
    var f := map e: (nat, nat) | e in rival :: Image(m, stuck, e);
    forall e | e in rival ensures f[e] in m.Keys && (e.0 in stuck ==> f[e] == e.1 && m[f[e]] in stuck)
        && (e.0 !in stuck ==> m[f[e]] == e.0) {
      assert e.0 in stuck || Covers(m, e.0);
    }
    InjectionBound(rival, m.Keys, f);
    assert |m.Keys| == |m|;
  }

  ghost function Image(m: Assignment, stuck: set<nat>, e: (nat, nat)): nat {
    if e.0 in stuck || !Covers(m, e.0) then e.1 else (var t :| t in m && m[t] == e.0; t)
  }

  /** A matching has no more pairs than there are predictions, or targets. */
  lemma MatchingFits(pairs: set<(nat, nat)>, candidates: seq<seq<nat>>, universe: set<nat>)
    requires IsMatching(pairs, candidates) && Targets(candidates, universe)
    ensures |pairs| <= |candidates| && |pairs| <= |universe|
  {
    var left := map e: (nat, nat) | e in pairs :: e.0;
    var right := map e: (nat, nat) | e in pairs :: e.1;
    InjectionBound(pairs, IndexSet(|candidates|), left);
    InjectionBound(pairs, universe, right);
  }
}
