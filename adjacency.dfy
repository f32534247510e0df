/**
 * The variable-to-propagator table of config_populateVarPropHash: for each
 * variable, the indexes of the propagators that read it. Solved variables get
 * no entries, since nothing a propagator does can change them any more.
 */
module Adjacency {
  import opened Domain
  import opened Records

  predicate StrictlyIncreasing(s: seq<nat>)
  {
    forall i, j :: 0 <= i < j < |s| ==> s[i] < s[j]
  }

  /** _config_addVarConditionally: list propagator pi under v unless v is solved or already lists it. */
  method AddVarConditionally(hash: seq<seq<nat>>, v: nat, doms: seq<Dom>, pi: nat) returns (h: seq<seq<nat>>)
    requires v < |hash| == |doms|
    ensures |h| == |hash|
    ensures forall u :: 0 <= u < |hash| && u != v ==> h[u] == hash[u]
    ensures h[v] == if !IsSolved(doms[v]) && pi !in hash[v] then hash[v] + [pi] else hash[v]
  {
    h := hash;
    if !IsSolved(doms[v]) {
      if pi !in h[v] {
        h := h[v := h[v] + [pi]];
      }
    }
  }

  /** The three calls for one propagator, whose index exceeds every entry so far. */
  method AddParticipants(hash: seq<seq<nat>>, p: Propagator, doms: seq<Dom>, pi: nat) returns (h: seq<seq<nat>>)
    requires |hash| == |doms| && InRange(p, |doms|)
    requires forall u, k :: 0 <= u < |hash| && 0 <= k < |hash[u]| ==> hash[u][k] < pi
    ensures |h| == |hash|
    ensures forall u :: 0 <= u < |h| ==>
              h[u] == hash[u] + (if u in Participants(p) && !IsSolved(doms[u]) then [pi] else [])
  {
    h := AddVarConditionally(hash, p.index1 as nat, doms, pi);
    if p.index2 >= 0 {
      h := AddVarConditionally(h, p.index2 as nat, doms, pi);
    }
    if p.index3 >= 0 {
      h := AddVarConditionally(h, p.index3 as nat, doms, pi);
    }
  }

  /** Every entry of the first |hash| lists names one of the first pi propagators reading that unsolved variable. */
  ghost predicate ListsSound(hash: seq<seq<nat>>, props: seq<Propagator>, doms: seq<Dom>, pi: nat)
    requires pi <= |props|
  {
    |hash| == |doms|
    && forall v, k :: 0 <= v < |hash| && 0 <= k < |hash[v]| ==>
         hash[v][k] < pi && v in Participants(props[hash[v][k]]) && !IsSolved(doms[v])
  }

  /** Each of the first pi propagators is listed under each unsolved variable it reads. */
  ghost predicate ListsComplete(hash: seq<seq<nat>>, props: seq<Propagator>, doms: seq<Dom>, pi: nat)
    requires pi <= |props| && |hash| == |doms|
  {
    forall q, v :: 0 <= q < pi && 0 <= v < |doms| && v in Participants(props[q]) && !IsSolved(doms[v]) ==> q in hash[v]
  }

  ghost predicate ListsSorted(hash: seq<seq<nat>>)
  {
    forall v :: 0 <= v < |hash| ==> StrictlyIncreasing(hash[v])
  }

  /**
   * The table config_populateVarPropHash builds: for each variable, exactly
   * the propagators that read it when it is unsolved, in propagator order
   * and without repeats.
   */
  ghost predicate IsVarPropHash(hash: seq<seq<nat>>, props: seq<Propagator>, doms: seq<Dom>)
  {
    ListsSound(hash, props, doms, |props|) && ListsComplete(hash, props, doms, |props|) && ListsSorted(hash)
  }

  /** How one propagator's pass changes the table: pi is appended under its unsolved participants. */
  ghost predicate Listed(hash: seq<seq<nat>>, h: seq<seq<nat>>, p: Propagator, doms: seq<Dom>, pi: nat)
    requires |hash| == |doms|
  {
    |h| == |hash|
    && forall u :: 0 <= u < |h| ==> h[u] == hash[u] + (if u in Participants(p) && !IsSolved(doms[u]) then [pi] else [])
  }

  lemma SoundStep(hash: seq<seq<nat>>, h: seq<seq<nat>>, props: seq<Propagator>, doms: seq<Dom>, pi: nat)
    requires pi < |props| && ListsSound(hash, props, doms, pi) && Listed(hash, h, props[pi], doms, pi)
    ensures ListsSound(h, props, doms, pi + 1)
  {
    forall v, k | 0 <= v < |h| && 0 <= k < |h[v]|
      ensures h[v][k] < pi + 1 && v in Participants(props[h[v][k]]) && !IsSolved(doms[v])
    {
      if k < |hash[v]| {
        assert h[v][k] == hash[v][k];
      }
    }
  }

  lemma CompleteStep(hash: seq<seq<nat>>, h: seq<seq<nat>>, props: seq<Propagator>, doms: seq<Dom>, pi: nat)
    requires pi < |props| && |hash| == |doms| && ListsComplete(hash, props, doms, pi) && Listed(hash, h, props[pi], doms, pi)
    ensures ListsComplete(h, props, doms, pi + 1)
  {
    forall q, v | 0 <= q < pi + 1 && 0 <= v < |doms| && v in Participants(props[q]) && !IsSolved(doms[v])
      ensures q in h[v]
    {
      if q < pi {
        assert q in hash[v];
      } else {
        assert h[v][|hash[v]|] == pi;
      }
    }
  }

  lemma SortedStep(hash: seq<seq<nat>>, h: seq<seq<nat>>, props: seq<Propagator>, doms: seq<Dom>, pi: nat)
    requires pi < |props| && ListsSound(hash, props, doms, pi) && ListsSorted(hash) && Listed(hash, h, props[pi], doms, pi)
    ensures ListsSorted(h)
  {
    forall v | 0 <= v < |h| ensures StrictlyIncreasing(h[v]) {
      assert StrictlyIncreasing(hash[v]);
      forall k | 0 <= k < |hash[v]| ensures hash[v][k] < pi {
      }
    }
  }

  /**
   * config_populateVarPropHash. Each propagator is listed under each of its
   * unsolved participants exactly once, lists are in propagator order, and
   * nothing is listed under a solved variable or one it does not read.
   */
  method BuildVarPropHash(props: seq<Propagator>, doms: seq<Dom>) returns (hash: seq<seq<nat>>)
    requires forall p :: p in props ==> InRange(p, |doms|)
    ensures |hash| == |doms| && IsVarPropHash(hash, props, doms)
  {
    hash := seq(|doms|, _ => []);
    var pi := 0;
    while pi < |props|
      invariant 0 <= pi <= |props|
      invariant ListsSound(hash, props, doms, pi) && ListsComplete(hash, props, doms, pi) && ListsSorted(hash)
    {
      assert InRange(props[pi], |doms|);
      var next := AddParticipants(hash, props[pi], doms, pi);
      SoundStep(hash, next, props, doms, pi);
      CompleteStep(hash, next, props, doms, pi);
      SortedStep(hash, next, props, doms, pi);
      hash := next;
      pi := pi + 1;
    }
  }

}
