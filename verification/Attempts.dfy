/** Simultaneous compromise attempts with the first-success tie-break that
    `propagation`, `adaptive_attacker` and the model-driven step share. */
module Attempts {
  import opened Wrappers
  import opened World

  /** One attempt and its outcome: a draw below the probability, or a leaked token. */
  datatype Attempt = Attempt(source: AgentId, target: AgentId, probability: real, hit: bool)

  /** Who wins each target: the earliest successful attempt on it. */
  function Claims(attempts: seq<Attempt>): map<AgentId, AgentId> {
    if |attempts| == 0 then map[] else
      var earlier := Claims(attempts[..|attempts| - 1]);
      var a := attempts[|attempts| - 1];
      if a.hit && a.target !in earlier then earlier[a.target := a.source] else earlier
  }

  function OutcomeDrafts(tick: nat, a: Attempt, claimed: bool): seq<Draft> {
    [Draft(tick, CompromiseAttempted(a.source, a.target, a.probability)),
     Draft(tick, if a.hit then CompromiseSucceeded(Some(a.source), a.target, claimed)
                 else CompromiseFailed(a.source, a.target, false))]
  }

  function Drafts(tick: nat, attempts: seq<Attempt>): seq<Draft> {
    if |attempts| == 0 then [] else
      var earlier := attempts[..|attempts| - 1];
      var a := attempts[|attempts| - 1];
      Drafts(tick, earlier) + OutcomeDrafts(tick, a, a.target in Claims(earlier))
  }

  /** The node table after the claims are applied. */
  function Infect(nodes: map<AgentId, Agent>, claims: map<AgentId, AgentId>, tick: nat): (r: map<AgentId, Agent>)
    ensures r.Keys == nodes.Keys
  {
    map a | a in nodes :: if a in claims
      then nodes[a].(state := Compromised, compromisedBy := Some(claims[a]), tickCompromised := Some(tick))
      else nodes[a]
  }

  /** Each claim goes to the first attempt that hit the target, and every hit target is claimed. */
  lemma {:induction false} ClaimsAreFirstHits(attempts: seq<Attempt>)
    ensures forall t :: t in Claims(attempts) <==> exists i :: 0 <= i < |attempts| && attempts[i].hit && attempts[i].target == t
    ensures forall t | t in Claims(attempts) :: exists i ::
      && 0 <= i < |attempts| && attempts[i].hit && attempts[i].target == t
      && attempts[i].source == Claims(attempts)[t]
      && forall j | 0 <= j < i :: !(attempts[j].hit && attempts[j].target == t)
  {
    if |attempts| > 0 {
      var n := |attempts| - 1;
      var earlier := attempts[..n];
      ClaimsAreFirstHits(earlier);
      assert forall i | 0 <= i < n :: attempts[i] == earlier[i];
      forall t | t in Claims(attempts)
        ensures exists i ::
          && 0 <= i < |attempts| && attempts[i].hit && attempts[i].target == t
          && attempts[i].source == Claims(attempts)[t]
          && forall j | 0 <= j < i :: !(attempts[j].hit && attempts[j].target == t)
      {
        if t in Claims(earlier) {
          var i :| 0 <= i < n && earlier[i].hit && earlier[i].target == t
            && earlier[i].source == Claims(earlier)[t]
            && forall j | 0 <= j < i :: !(earlier[j].hit && earlier[j].target == t);
          assert attempts[i] == earlier[i];
        } else {
          assert attempts[n].hit && attempts[n].target == t;
        }
      }
      forall t
        ensures t in Claims(attempts) <==> exists i :: 0 <= i < |attempts| && attempts[i].hit && attempts[i].target == t
      {
        if exists i :: 0 <= i < |attempts| && attempts[i].hit && attempts[i].target == t {
          var i :| 0 <= i < |attempts| && attempts[i].hit && attempts[i].target == t;
          if i < n { assert earlier[i] == attempts[i]; }
        }
      }
    }
  }

  /** The sources come in id order. */
  ghost predicate SourcesAscend(attempts: seq<Attempt>) {
    forall i, j | 0 <= i < j < |attempts| :: attempts[i].source <= attempts[j].source
  }

  predicate Hits(a: Attempt, t: AgentId) { a.hit && a.target == t }

  /** Who wins a target, said without the loop: the lowest-numbered attacker that hit it. */
  lemma LowestSourceWins(attempts: seq<Attempt>, t: AgentId)
    requires SourcesAscend(attempts)
    ensures t in Claims(attempts) <==> exists a :: a in attempts && Hits(a, t)
    ensures t in Claims(attempts) ==>
      && (exists a :: a in attempts && Hits(a, t) && a.source == Claims(attempts)[t])
      && (forall a | a in attempts && Hits(a, t) :: Claims(attempts)[t] <= a.source)
  {
    ClaimsAreFirstHits(attempts);
    if t in Claims(attempts) {
      var i :| 0 <= i < |attempts| && attempts[i].hit && attempts[i].target == t
        && attempts[i].source == Claims(attempts)[t]
        && forall j | 0 <= j < i :: !(attempts[j].hit && attempts[j].target == t);
      assert attempts[i] in attempts && Hits(attempts[i], t);
      forall a | a in attempts && Hits(a, t) ensures Claims(attempts)[t] <= a.source {
        var j :| 0 <= j < |attempts| && attempts[j] == a;
        assert j >= i;
      }
    }
    if exists a :: a in attempts && Hits(a, t) {
      var a :| a in attempts && Hits(a, t);
      var j :| 0 <= j < |attempts| && attempts[j] == a;
      assert attempts[j].hit && attempts[j].target == t;
    }
  }

  /** Rows of one source each, appended in ascending order of their sources. */
  lemma RowsAscend(earlier: seq<Attempt>, row: seq<Attempt>, source: AgentId)
    requires SourcesAscend(earlier) && (forall a | a in earlier :: a.source <= source) && (forall a | a in row :: a.source == source)
    ensures SourcesAscend(earlier + row)
  {
    var all := earlier + row;
    forall i, j | 0 <= i < j < |all| ensures all[i].source <= all[j].source {
      if i < |earlier| && |earlier| <= j { assert earlier[i] in earlier && row[j - |earlier|] in row; }
      if |earlier| <= i { assert row[i - |earlier|] in row && row[j - |earlier|] in row; }
    }
  }

  /** The loop body's effect on the running claims and drafts. */
  lemma Extend(tick: nat, attempts: seq<Attempt>, a: Attempt)
    ensures Claims(attempts + [a]) ==
      if a.hit && a.target !in Claims(attempts) then Claims(attempts)[a.target := a.source] else Claims(attempts)
    ensures Drafts(tick, attempts + [a]) == Drafts(tick, attempts) + OutcomeDrafts(tick, a, a.target in Claims(attempts))
  {
    assert (attempts + [a])[..|attempts|] == attempts;
  }

  /** `for target, source in claims.items(): new_nodes[target] = replace(...)`. */
  method ApplyClaims(nodes: map<AgentId, Agent>, claims: map<AgentId, AgentId>, tick: nat)
    returns (newNodes: map<AgentId, Agent>)
    requires claims.Keys <= nodes.Keys
    ensures newNodes == Infect(nodes, claims, tick)
  {
    newNodes := nodes;
    var todo := claims.Keys;
    while todo != {}
      invariant todo <= claims.Keys
      invariant newNodes == Infect(nodes, claims - todo, tick)
    {
      var t :| t in todo;
      newNodes := newNodes[t := newNodes[t].(
        state := Compromised, compromisedBy := Some(claims[t]), tickCompromised := Some(tick))];
      todo := todo - {t};
    }
  }
}
