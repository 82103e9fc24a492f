/** Parent links as a graph: a unit's id to the id it reports to, "" for a root. Knots and dangling links
    are possible; what keeps them out is proved here. */
module ParentGraph {
  import opened Sets

  type Graph = map<string, string>

  /** One step up; off the graph, or above a root, there is nothing. */
  function Step(g: Graph, id: string): string {
    if id != "" && id in g then g[id] else ""
  }

  function Up(g: Graph, id: string, k: nat): string {
    if k == 0 then id else Step(g, Up(g, id, k - 1))
  }

  /** The climb from `id` ends. */
  ghost predicate Rooted(g: Graph, id: string) {
    exists k: nat :: Up(g, id, k) == ""
  }

  /** A unit `k` steps up from `id` reports to `ancestor`. */
  ghost predicate BelowAt(g: Graph, ancestor: string, id: string, k: nat) {
    Up(g, id, k) != "" && Up(g, id, k) in g && g[Up(g, id, k)] == ancestor
  }

  /** `id` reaches `ancestor` by one or more steps up. */
  ghost predicate Below(g: Graph, ancestor: string, id: string) {
    exists k: nat :: BelowAt(g, ancestor, id, k)
  }

  /** No unit is above itself. */
  ghost predicate Forest(g: Graph) {
    forall id | id in g :: Rooted(g, id)
  }

  /** Every parent named is a unit. */
  ghost predicate Closed(g: Graph) {
    forall id | id in g :: g[id] == "" || g[id] in g
  }

  lemma {:induction false} UpJoins(g: Graph, id: string, j: nat, k: nat)
    ensures Up(g, id, j + k) == Up(g, Up(g, id, j), k)
    decreases k
  {
    if k > 0 {
      UpJoins(g, id, j, k - 1);
    }
  }

  lemma {:induction false} NothingAboveNothing(g: Graph, k: nat)
    ensures Up(g, "", k) == ""
  {
    if k > 0 {
      NothingAboveNothing(g, k - 1);
    }
  }

  /** Along a climb that is still going, everything below it was a unit. */
  lemma {:induction false} StillClimbing(g: Graph, id: string, j: nat, k: nat)
    requires j < k && Up(g, id, k) != ""
    ensures Up(g, id, j) != "" && Up(g, id, j) in g
  {
    UpJoins(g, id, j + 1, k - j - 1);
    if Up(g, id, j + 1) == "" {
      NothingAboveNothing(g, k - j - 1);
    }
  }

  // ------------------------------------------------------------------ a bounded walk is enough

  /** The ids met in the first `k + 1` places of a climb. */
  ghost function Path(g: Graph, id: string, k: nat): set<string> {
    if k == 0 then {id} else Path(g, id, k - 1) + {Up(g, id, k)}
  }

  lemma {:induction false} OnPath(g: Graph, id: string, k: nat, x: string) returns (j: nat)
    requires x in Path(g, id, k)
    ensures j <= k && Up(g, id, j) == x
  {
    if k > 0 && x in Path(g, id, k - 1) {
      j := OnPath(g, id, k - 1, x);
    } else {
      j := k;
    }
  }

  lemma {:induction false} PathSize(g: Graph, id: string, k: nat)
    requires forall i: nat, j: nat | i < j <= k :: Up(g, id, i) != Up(g, id, j)
    ensures |Path(g, id, k)| == k + 1
  {
    if k > 0 {
      PathSize(g, id, k - 1);
      if Up(g, id, k) in Path(g, id, k - 1) {
        var j := OnPath(g, id, k - 1, Up(g, id, k));
        assert false;
      }
    }
  }

  /** A climb that repeats itself meets what is above the repetition earlier already. */
  lemma {:induction false} MetBefore(g: Graph, ancestor: string, id: string, i: nat, j: nat, k: nat)
    requires i < j <= k && Up(g, id, i) == Up(g, id, j) && BelowAt(g, ancestor, id, k)
    ensures BelowAt(g, ancestor, id, i + (k - j)) && i + (k - j) < k
  {
    UpJoins(g, id, i, k - j);
    UpJoins(g, id, j, k - j);
  }

  /** The first place where the ancestor is met lies within as many places as there are units: before it
      the climb never meets a unit twice. */
  lemma {:induction false} MetSoon(g: Graph, ancestor: string, id: string, k: nat)
    requires BelowAt(g, ancestor, id, k) && forall j: nat | j < k :: !BelowAt(g, ancestor, id, j)
    ensures k < |g|
  {
    forall i: nat, j: nat | i < j <= k ensures Up(g, id, i) != Up(g, id, j) {
      if Up(g, id, i) == Up(g, id, j) {
        MetBefore(g, ancestor, id, i, j, k);
        assert false;
      }
    }
    PathSize(g, id, k);
    forall x | x in Path(g, id, k) ensures x in g.Keys {
      var j := OnPath(g, id, k, x);
      if j < k {
        StillClimbing(g, id, j, k);
      }
    }
    Smaller(Path(g, id, k), g.Keys);
  }

  lemma {:induction false} FirstMeeting(g: Graph, ancestor: string, id: string, k: nat) returns (first: nat)
    requires BelowAt(g, ancestor, id, k)
    ensures first <= k && BelowAt(g, ancestor, id, first) && forall j: nat | j < first :: !BelowAt(g, ancestor, id, j)
  {
    if j: nat :| j < k && BelowAt(g, ancestor, id, j) {
      first := FirstMeeting(g, ancestor, id, j);
    } else {
      first := k;
    }
  }

  /** On every parent graph, knotted or not: somewhere up there exactly when within as many steps as there
      are units. */
  lemma {:induction false} BelowIsSoon(g: Graph, ancestor: string, id: string)
    ensures Below(g, ancestor, id) <==> exists k: nat :: k < |g| && BelowAt(g, ancestor, id, k)
  {
    if Below(g, ancestor, id) {
      var k: nat :| BelowAt(g, ancestor, id, k);
      var first := FirstMeeting(g, ancestor, id, k);
      MetSoon(g, ancestor, id, first);
    }
  }

  // ------------------------------------------------------------------ moving a unit

  /** A climb that never passes `unit` does not notice where it is moved. */
  lemma {:induction false} Unmoved(g: Graph, unit: string, parent: string, id: string, k: nat)
    requires forall j: nat | j < k :: Up(g, id, j) != unit
    ensures Up(g[unit := parent], id, k) == Up(g, id, k)
  {
    if k > 0 {
      Unmoved(g, unit, parent, id, k - 1);
    }
  }

  /** Climbing from a unit that is not below `unit`, nor it itself, never passes it. */
  lemma {:induction false} NeverPasses(g: Graph, unit: string, id: string, k: nat)
    requires id != unit && unit != "" && !Below(g, unit, id)
    ensures Up(g, id, k) != unit
  {
    if k > 0 && Up(g, id, k) == unit {
      PassedIsAbove(g, unit, id, k);
      assert false;
    }
  }

  lemma {:induction false} PassedIsAbove(g: Graph, unit: string, id: string, k: nat)
    requires k > 0 && unit != "" && Up(g, id, k) == unit
    ensures Below(g, unit, id)
  {
    StillClimbing(g, id, k - 1, k);
    assert BelowAt(g, unit, id, k - 1);
  }

  lemma {:induction false} ParentStaysRooted(g: Graph, unit: string, parent: string)
    requires Forest(g) && unit != "" && (parent == "" || (parent in g && parent != unit && !Below(g, unit, parent)))
    ensures Rooted(g[unit := parent], parent)
  {
    if parent == "" {
      assert Up(g[unit := parent], parent, 0) == "";
    } else {
      var k: nat :| Up(g, parent, k) == "";
      forall j: nat | j < k ensures Up(g, parent, j) != unit {
        NeverPasses(g, unit, parent, j);
      }
      Unmoved(g, unit, parent, parent, k);
    }
  }

  lemma {:induction false} RootedThrough(g: Graph, id: string, k: nat, via: string)
    requires Up(g, id, k) == via && Rooted(g, via)
    ensures Rooted(g, id)
  {
    var n: nat :| Up(g, via, n) == "";
    UpJoins(g, id, k, n);
  }

  lemma {:induction false} FirstPass(g: Graph, unit: string, id: string, k: nat) returns (first: nat)
    requires Up(g, id, k) == unit
    ensures first <= k && Up(g, id, first) == unit && forall j: nat | j < first :: Up(g, id, j) != unit
  {
    if j: nat :| j < k && Up(g, id, j) == unit {
      first := FirstPass(g, unit, id, j);
    } else {
      first := k;
    }
  }

  lemma {:induction false} OtherStaysRooted(g: Graph, unit: string, parent: string, id: string)
    requires Forest(g) && unit != "" && unit in g && id in g
    requires Rooted(g[unit := parent], parent)
    ensures Rooted(g[unit := parent], id)
  {
    var h := g[unit := parent];
    var k: nat :| Up(g, id, k) == "";
    if j: nat :| j < k && Up(g, id, j) == unit {
      var first := FirstPass(g, unit, id, j);
      Unmoved(g, unit, parent, id, first);
      assert Up(h, id, first + 1) == Step(h, unit) == parent;
      RootedThrough(h, id, first + 1, parent);
    } else {
      Unmoved(g, unit, parent, id, k);
    }
  }

  /** A knot never ends. */
  lemma {:induction false} KnotNeverEnds(g: Graph, id: string, n: nat, k: nat)
    requires n > 0 && Up(g, id, n) == id && id != ""
    ensures Up(g, id, k) != ""
    decreases k
  {
    if k >= n {
      UpJoins(g, id, n, k - n);
      KnotNeverEnds(g, id, n, k - n);
    } else if Up(g, id, k) == "" {
      UpJoins(g, id, k, n - k);
      NothingAboveNothing(g, n - k);
    }
  }

  /** Moved under itself or below itself, a unit is knotted. */
  lemma {:induction false} MovedBelowItself(g: Graph, unit: string, parent: string)
    requires unit in g && unit != "" && (parent == unit || (parent != "" && Below(g, unit, parent)))
    ensures !Rooted(g[unit := parent], unit)
  {
    var h := g[unit := parent];
    var n: nat := 1;
    assert Up(h, unit, 0) == unit;
    assert Up(h, unit, 1) == parent;
    if parent != unit {
      var k: nat :| BelowAt(g, unit, parent, k);
      var pass := FirstPass(g, unit, parent, k + 1);
      Unmoved(g, unit, parent, parent, pass);
      UpJoins(h, unit, 1, pass);
      n := 1 + pass;
    }
    assert Up(h, unit, n) == unit;
    forall k: nat ensures Up(h, unit, k) != "" {
      KnotNeverEnds(h, unit, n, k);
    }
  }

  /** Moving a unit keeps the forest exactly when the new parent is none, or neither the unit nor below it. */
  lemma {:induction false} MoveKeepsForestIff(g: Graph, unit: string, parent: string)
    requires Forest(g) && unit in g && unit != "" && (parent == "" || parent in g)
    ensures Forest(g[unit := parent]) <==> (parent == "" || (parent != unit && !Below(g, unit, parent)))
  {
    if parent == "" || (parent != unit && !Below(g, unit, parent)) {
      ParentStaysRooted(g, unit, parent);
      var h := g[unit := parent];
      forall id | id in h ensures Rooted(h, id) {
        OtherStaysRooted(g, unit, parent, id);
      }
    } else {
      MovedBelowItself(g, unit, parent);
    }
  }

  // ------------------------------------------------------------------ adding and removing

  lemma {:induction false} InsideStays(g: Graph, unit: string, id: string, k: nat)
    requires Closed(g) && id in g && unit !in g
    ensures Up(g, id, k) == "" || Up(g, id, k) in g
  {
    if k > 0 {
      InsideStays(g, unit, id, k - 1);
    }
  }

  /** A new unit under an existing one, or none, is a new leaf. */
  lemma {:induction false} AddKeepsForest(g: Graph, unit: string, parent: string)
    requires Forest(g) && Closed(g) && unit !in g && unit != "" && (parent == "" || parent in g)
    ensures Forest(g[unit := parent]) && Closed(g[unit := parent])
  {
    var h := g[unit := parent];
    forall id | id in g ensures Rooted(h, id) {
      var k: nat :| Up(g, id, k) == "";
      forall j: nat | j < k ensures Up(g, id, j) != unit {
        InsideStays(g, unit, id, j);
      }
      Unmoved(g, unit, parent, id, k);
    }
    assert Up(h, unit, 0) == unit;
    assert Up(h, unit, 1) == parent;
    if parent == "" {
      assert Rooted(h, unit);
    } else {
      RootedThrough(h, unit, 1, parent);
    }
  }

  /** Removing a unit nothing reports to. */
  lemma {:induction false} RemoveKeepsForest(g: Graph, unit: string)
    requires Forest(g) && Closed(g) && unit != "" && forall id | id in g :: g[id] != unit
    ensures Forest(g - {unit}) && Closed(g - {unit})
  {
    var h := g - {unit};
    forall id | id in h ensures Rooted(h, id) {
      var k: nat :| Up(g, id, k) == "";
      RemovedClimb(g, unit, id, k);
    }
  }

  lemma {:induction false} RemovedClimb(g: Graph, unit: string, id: string, k: nat)
    requires id != unit && unit != "" && forall x | x in g :: g[x] != unit
    ensures Up(g - {unit}, id, k) == Up(g, id, k) && Up(g, id, k) != unit
  {
    if k > 0 {
      RemovedClimb(g, unit, id, k - 1);
    }
  }
}
