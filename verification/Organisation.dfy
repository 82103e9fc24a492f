/** The organisation's store and rules (domain/organisation/memory/memory.go, service.go).

    Rows of several tenants share the tables; every lookup names its tenant. A lookup takes the first row that matches,
    and where rows are unique that is the only one. The tables are good when ids and codes are unique within a tenant,
    every reference is to a row of the same tenant, and the units of each tenant form a forest; the lemmas say of each
    write, guarded or not, when it keeps them so. */
module Organisation {
  import opened Wrappers
  import opened Sets
  import opened Text
  import opened Decimal
  import opened ParentGraph

  datatype Person = Person(membershipId: string, userId: string, jobTitle: string, departmentId: string, active: bool,
      isAdmin: bool, tenant: string)

  datatype Department = Department(id: string, code: string, name: string, parentId: string, managerId: string,
      active: bool, tenant: string)

  datatype PersonEdit = PersonEdit(jobTitle: Option<string>, departmentId: Option<string>)

  datatype DepartmentEdit = DepartmentEdit(code: string, name: string, parentId: Option<string>,
      managerId: Option<string>)

  datatype Error =
    | CrossTenant | ForeignDepartment | ForeignUnit | NotFound | NameRequired | InvalidCode | DuplicateCode
    | SelfParent | Cycle | SelfDeactivation | LastAdministrator
    | ArchivedParent(name: string)
    | NotEmpty(people: nat, children: nat)

  /** An absent or blank identifier is nothing. */
  function TrimmedOrNone(value: Option<string>): Option<string> {
    if value.None? || Trim(value.value) == "" then None else Some(Trim(value.value))
  }

  function OrBlank(value: Option<string>): string {
    if value.Some? then value.value else ""
  }

  // ------------------------------------------------------------------ the tables as values

  predicate IsUnit(d: Department, tenant: string, id: string) { d.id == id && d.tenant == tenant }

  predicate IsMember(p: Person, tenant: string, id: string) { p.membershipId == id && p.tenant == tenant }

  /** The first matching row, or -1. */
  function FirstUnit(ds: seq<Department>, tenant: string, id: string): (r: int)
    ensures -1 <= r < |ds|
    ensures r >= 0 ==> IsUnit(ds[r], tenant, id)
    ensures forall j | 0 <= j < (if r < 0 then |ds| else r) :: !IsUnit(ds[j], tenant, id)
  {
    if ds == [] then -1
    else
      var r := FirstUnit(ds[..|ds| - 1], tenant, id);
      if r >= 0 then r else if IsUnit(ds[|ds| - 1], tenant, id) then |ds| - 1 else -1
  }

  /** The first matching membership, or -1. */
  function FirstPerson(people: seq<Person>, tenant: string, id: string): (r: int)
    ensures -1 <= r < |people|
    ensures r >= 0 ==> IsMember(people[r], tenant, id)
    ensures forall j | 0 <= j < (if r < 0 then |people| else r) :: !IsMember(people[j], tenant, id)
  {
    if people == [] then -1
    else
      var r := FirstPerson(people[..|people| - 1], tenant, id);
      if r >= 0 then r else if IsMember(people[|people| - 1], tenant, id) then |people| - 1 else -1
  }

  ghost predicate HasUnit(ds: seq<Department>, tenant: string, id: string) {
    FirstUnit(ds, tenant, id) >= 0
  }

  ghost function UnitIds(ds: seq<Department>, tenant: string): set<string> {
    set i | 0 <= i < |ds| && ds[i].tenant == tenant :: ds[i].id
  }

  /** Who reports to whom in one tenant; the first row of each id counts. */
  ghost function Parents(ds: seq<Department>, tenant: string): Graph {
    map id | id in UnitIds(ds, tenant) && HasUnit(ds, tenant, id) :: ds[FirstUnit(ds, tenant, id)].parentId
  }

  lemma {:induction false} InParents(ds: seq<Department>, tenant: string, id: string)
    ensures id in Parents(ds, tenant) <==> HasUnit(ds, tenant, id)
    ensures HasUnit(ds, tenant, id) ==> Parents(ds, tenant)[id] == ds[FirstUnit(ds, tenant, id)].parentId
  {
    var i := FirstUnit(ds, tenant, id);
    if i >= 0 {
      assert ds[i].id in UnitIds(ds, tenant);
    }
  }

  lemma {:induction false} IdsAreFewer(ds: seq<Department>, tenant: string)
    ensures |UnitIds(ds, tenant)| <= |ds|
  {
    if ds != [] {
      var init, last := ds[..|ds| - 1], ds[|ds| - 1];
      IdsAreFewer(init, tenant);
      forall x | x in UnitIds(ds, tenant) ensures x in UnitIds(init, tenant) + {last.id} {
        var i :| 0 <= i < |ds| && ds[i].tenant == tenant && ds[i].id == x;
        assert i < |init| ==> init[i] == ds[i];
      }
      Smaller(UnitIds(ds, tenant), UnitIds(init, tenant) + {last.id});
    }
  }

  lemma {:induction false} NoMoreUnitsThanRows(ds: seq<Department>, tenant: string)
    ensures |Parents(ds, tenant)| <= |ds|
  {
    IdsAreFewer(ds, tenant);
    Smaller(Parents(ds, tenant).Keys, UnitIds(ds, tenant));
  }

  // ------------------------------------------------------------------ what the organisation keeps

  ghost predicate UniqueIds(ds: seq<Department>) {
    forall i, j | 0 <= i < j < |ds| :: ds[i].id != ds[j].id
  }

  /** Every id was handed out by the counter. */
  ghost predicate Numbered(ds: seq<Department>, nextId: nat) {
    forall i | 0 <= i < |ds| :: exists n: nat :: n <= nextId && ds[i].id == Itoa(n)
  }

  ghost predicate UniqueCodes(ds: seq<Department>) {
    forall i, j | 0 <= i < j < |ds| && ds[i].tenant == ds[j].tenant :: ds[i].code != ds[j].code
  }

  ghost predicate ForestIn(ds: seq<Department>, tenant: string) {
    Forest(Parents(ds, tenant)) && Closed(Parents(ds, tenant))
  }

  /** No knot and no dangling parent in any tenant, no id or code twice. */
  ghost predicate GoodUnits(ds: seq<Department>, nextId: nat) {
    && UniqueIds(ds) && Numbered(ds, nextId) && UniqueCodes(ds)
    && forall tenant :: ForestIn(ds, tenant)
  }

  /** Nobody works in a unit that is not there. */
  ghost predicate PeopleFit(people: seq<Person>, ds: seq<Department>) {
    forall i | 0 <= i < |people| ::
        people[i].departmentId == "" || HasUnit(ds, people[i].tenant, people[i].departmentId)
  }

  lemma {:induction false} FoundAt(ds: seq<Department>, j: nat)
    requires UniqueIds(ds) && j < |ds|
    ensures FirstUnit(ds, ds[j].tenant, ds[j].id) == j
  {}

  lemma {:induction false} SameGraph(a: Graph, b: Graph)
    requires forall id :: id in a <==> id in b
    requires forall id | id in a :: a[id] == b[id]
    ensures a == b
  {
    assert (forall id :: id in a <==> id in b) ==> a.Keys == b.Keys;
  }

  lemma {:induction false} ReplacedLookup(ds: seq<Department>, i: nat, d: Department, tenant: string, id: string)
    requires i < |ds| && d.id == ds[i].id && d.tenant == ds[i].tenant
    ensures FirstUnit(ds[i := d], tenant, id) == FirstUnit(ds, tenant, id)
  {
    hide FirstUnit;
    var es := ds[i := d];
    assert forall k | 0 <= k < |ds| :: IsUnit(es[k], tenant, id) <==> IsUnit(ds[k], tenant, id);
    var a, b := FirstUnit(ds, tenant, id), FirstUnit(es, tenant, id);
    assert a >= 0 ==> IsUnit(es[a], tenant, id);
    assert b >= 0 ==> IsUnit(ds[b], tenant, id);
  }

  function Relinked(g: Graph, d: Department, tenant: string): Graph {
    if tenant == d.tenant then g[d.id := d.parentId] else g
  }

  lemma {:induction false} ReplacedAt(ds: seq<Department>, i: nat, d: Department, tenant: string, id: string)
    requires UniqueIds(ds) && i < |ds| && d.id == ds[i].id && d.tenant == ds[i].tenant
    ensures HasUnit(ds[i := d], tenant, id) <==> HasUnit(ds, tenant, id)
    ensures id in Parents(ds[i := d], tenant) <==> id in Relinked(Parents(ds, tenant), d, tenant)
    ensures id in Parents(ds[i := d], tenant)
            ==> Parents(ds[i := d], tenant)[id] == Relinked(Parents(ds, tenant), d, tenant)[id]
  {
    FoundAt(ds, i);
    ReplacedLookup(ds, i, d, tenant, id);
    InParents(ds, tenant, id);
    InParents(ds[i := d], tenant, id);
    hide FirstUnit, Parents;
  }

  /** A row replaced in place by one of the same id and tenant: the same units, one link changed. */
  lemma {:induction false} ReplacedUnit(ds: seq<Department>, i: nat, d: Department, tenant: string)
    requires UniqueIds(ds) && i < |ds| && d.id == ds[i].id && d.tenant == ds[i].tenant
    ensures Parents(ds[i := d], tenant) == Relinked(Parents(ds, tenant), d, tenant)
    ensures forall id :: HasUnit(ds[i := d], tenant, id) <==> HasUnit(ds, tenant, id)
  {
    hide FirstUnit, Parents, HasUnit, Relinked, UniqueIds;
    forall id ensures HasUnit(ds[i := d], tenant, id) <==> HasUnit(ds, tenant, id)
              ensures id in Parents(ds[i := d], tenant) <==> id in Relinked(Parents(ds, tenant), d, tenant)
              ensures id in Parents(ds[i := d], tenant)
                      ==> Parents(ds[i := d], tenant)[id] == Relinked(Parents(ds, tenant), d, tenant)[id]
    {
      ReplacedAt(ds, i, d, tenant, id);
    }
    SameGraph(Parents(ds[i := d], tenant), Relinked(Parents(ds, tenant), d, tenant));
  }

  lemma {:induction false} AppendedLookup(ds: seq<Department>, d: Department, tenant: string, id: string)
    ensures FirstUnit(ds + [d], tenant, id)
            == if FirstUnit(ds, tenant, id) >= 0 then FirstUnit(ds, tenant, id) else if IsUnit(d, tenant, id) then |ds|
                else -1
  {
    assert (ds + [d])[..|ds|] == ds;
  }

  lemma {:induction false} AppendedAt(ds: seq<Department>, d: Department, tenant: string, id: string)
    requires forall i | 0 <= i < |ds| :: ds[i].id != d.id
    ensures HasUnit(ds + [d], tenant, id) <==> HasUnit(ds, tenant, id) || IsUnit(d, tenant, id)
    ensures id in Parents(ds + [d], tenant) <==> id in Relinked(Parents(ds, tenant), d, tenant)
    ensures id in Parents(ds + [d], tenant)
            ==> Parents(ds + [d], tenant)[id] == Relinked(Parents(ds, tenant), d, tenant)[id]
  {
    AppendedLookup(ds, d, tenant, id);
    InParents(ds, tenant, id);
    InParents(ds + [d], tenant, id);
    hide FirstUnit, Parents;
  }

  lemma {:induction false} AppendedUnit(ds: seq<Department>, d: Department, tenant: string)
    requires forall i | 0 <= i < |ds| :: ds[i].id != d.id
    ensures Parents(ds + [d], tenant) == Relinked(Parents(ds, tenant), d, tenant)
    ensures forall id :: HasUnit(ds + [d], tenant, id) <==> HasUnit(ds, tenant, id) || IsUnit(d, tenant, id)
  {
    hide FirstUnit, Parents, HasUnit, Relinked;
    forall id ensures HasUnit(ds + [d], tenant, id) <==> HasUnit(ds, tenant, id) || IsUnit(d, tenant, id)
              ensures id in Parents(ds + [d], tenant) <==> id in Relinked(Parents(ds, tenant), d, tenant)
              ensures id in Parents(ds + [d], tenant)
                      ==> Parents(ds + [d], tenant)[id] == Relinked(Parents(ds, tenant), d, tenant)[id]
    {
      AppendedAt(ds, d, tenant, id);
    }
    SameGraph(Parents(ds + [d], tenant), Relinked(Parents(ds, tenant), d, tenant));
  }

  function Without(ds: seq<Department>, i: nat): seq<Department>
    requires i < |ds|
  {
    ds[..i] + ds[i + 1..]
  }

  lemma {:induction false} RemovedLookup(ds: seq<Department>, i: nat, tenant: string, id: string)
    requires UniqueIds(ds) && i < |ds|
    ensures HasUnit(Without(ds, i), tenant, id) <==> HasUnit(ds, tenant, id) && !IsUnit(ds[i], tenant, id)
    ensures HasUnit(Without(ds, i), tenant, id) ==>
              Without(ds, i)[FirstUnit(Without(ds, i), tenant, id)] == ds[FirstUnit(ds, tenant, id)]
  {
    hide FirstUnit;
    var es := Without(ds, i);
    var a, b := FirstUnit(ds, tenant, id), FirstUnit(es, tenant, id);
    if b >= 0 {
      var k := if b < i then b else b + 1;
      assert es[b] == ds[k];
    }
    if a >= 0 && a != i {
      var k := if a < i then a else a - 1;
      assert es[k] == ds[a];
    }
  }

  function Unlinked(g: Graph, d: Department, tenant: string): Graph {
    if tenant == d.tenant then g - {d.id} else g
  }

  lemma {:induction false} RemovedAt(ds: seq<Department>, i: nat, tenant: string, id: string)
    requires UniqueIds(ds) && i < |ds|
    ensures HasUnit(Without(ds, i), tenant, id) <==> HasUnit(ds, tenant, id) && !IsUnit(ds[i], tenant, id)
    ensures id in Parents(Without(ds, i), tenant) <==> id in Unlinked(Parents(ds, tenant), ds[i], tenant)
    ensures id in Parents(Without(ds, i), tenant)
            ==> Parents(Without(ds, i), tenant)[id] == Unlinked(Parents(ds, tenant), ds[i], tenant)[id]
  {
    RemovedLookup(ds, i, tenant, id);
    InParents(ds, tenant, id);
    InParents(Without(ds, i), tenant, id);
    hide FirstUnit, Parents, Without;
  }

  lemma {:induction false} RemovedUnit(ds: seq<Department>, i: nat, tenant: string)
    requires UniqueIds(ds) && i < |ds|
    ensures Parents(Without(ds, i), tenant) == Unlinked(Parents(ds, tenant), ds[i], tenant)
    ensures forall id :: HasUnit(Without(ds, i), tenant, id) <==> HasUnit(ds, tenant, id) && !IsUnit(ds[i], tenant, id)
  {
    hide FirstUnit, Parents, HasUnit, Unlinked, UniqueIds, Without;
    forall id ensures HasUnit(Without(ds, i), tenant, id) <==> HasUnit(ds, tenant, id) && !IsUnit(ds[i], tenant, id)
              ensures id in Parents(Without(ds, i), tenant) <==> id in Unlinked(Parents(ds, tenant), ds[i], tenant)
              ensures id in Parents(Without(ds, i), tenant)
                      ==> Parents(Without(ds, i), tenant)[id] == Unlinked(Parents(ds, tenant), ds[i], tenant)[id]
    {
      RemovedAt(ds, i, tenant, id);
    }
    SameGraph(Parents(Without(ds, i), tenant), Unlinked(Parents(ds, tenant), ds[i], tenant));
  }

  // ------------------------------------------------------------------ which changes keep it

  lemma {:induction false} IdIsNotBlank(ds: seq<Department>, nextId: nat, i: nat)
    requires Numbered(ds, nextId) && i < |ds|
    ensures ds[i].id != ""
  {
    var n: nat :| n <= nextId && ds[i].id == Itoa(n);
    hide Itoa;
  }

  lemma {:induction false} NextIdIsFresh(ds: seq<Department>, nextId: nat, i: nat)
    requires Numbered(ds, nextId) && i < |ds|
    ensures ds[i].id != Itoa(nextId + 1)
  {
    var n: nat :| n <= nextId && ds[i].id == Itoa(n);
    if ds[i].id == Itoa(nextId + 1) {
      ItoaIsInjective(n, nextId + 1);
    }
    hide Itoa;
  }

  /** Where a unit may be moved. */
  ghost predicate MayReportTo(ds: seq<Department>, d: Department) {
    d.parentId == "" || (d.parentId != d.id && !Below(Parents(ds, d.tenant), d.id, d.parentId))
  }

  lemma {:induction false} MovedForest(ds: seq<Department>, i: nat, d: Department, nextId: nat, tenant: string)
    requires GoodUnits(ds, nextId) && i < |ds| && d.id == ds[i].id && d.tenant == ds[i].tenant
    requires d.parentId == "" || HasUnit(ds, d.tenant, d.parentId)
    ensures ForestIn(ds[i := d], tenant) <==> (tenant == d.tenant ==> MayReportTo(ds, d))
  {
    hide FirstUnit, Parents, Below, Forest, UniqueIds, Numbered, UniqueCodes;
    assert ForestIn(ds, tenant);
    ReplacedUnit(ds, i, d, tenant);
    FoundAt(ds, i);
    InParents(ds, d.tenant, d.id);
    InParents(ds, d.tenant, d.parentId);
    IdIsNotBlank(ds, nextId, i);
    if tenant == d.tenant {
      MoveKeepsForestIff(Parents(ds, tenant), d.id, d.parentId);
    }
  }

  lemma {:induction false} MovedRows(ds: seq<Department>, i: nat, d: Department, nextId: nat)
    requires GoodUnits(ds, nextId) && i < |ds| && d.id == ds[i].id && d.tenant == ds[i].tenant && d.code == ds[i].code
    ensures UniqueIds(ds[i := d]) && Numbered(ds[i := d], nextId) && UniqueCodes(ds[i := d])
  {
    hide ForestIn, Itoa;
    var es := ds[i := d];
    forall k | 0 <= k < |es| ensures exists n: nat :: n <= nextId && es[k].id == Itoa(n) {
      var n: nat :| n <= nextId && ds[k].id == Itoa(n);
      assert es[k].id == Itoa(n);
    }
  }

  /** The store's update, unguarded, keeps the organisation in order exactly when the unit may report there. */
  lemma {:induction false} UpdateIsGoodIff(ds: seq<Department>, i: nat, d: Department, nextId: nat)
    requires GoodUnits(ds, nextId) && i < |ds| && d.id == ds[i].id && d.tenant == ds[i].tenant && d.code == ds[i].code
    requires d.parentId == "" || HasUnit(ds, d.tenant, d.parentId)
    ensures GoodUnits(ds[i := d], nextId) <==> MayReportTo(ds, d)
  {
    var es := ds[i := d];
    MovedRows(ds, i, d, nextId);
    forall tenant ensures ForestIn(es, tenant) <==> (tenant == d.tenant ==> MayReportTo(ds, d)) {
      MovedForest(ds, i, d, nextId, tenant);
    }
    hide ForestIn, MayReportTo, UniqueIds, Numbered, UniqueCodes, HasUnit;
    if !MayReportTo(ds, d) {
      assert !ForestIn(es, d.tenant);
    }
  }

  lemma {:induction false} AddedForest(ds: seq<Department>, d: Department, nextId: nat, tenant: string)
    requires GoodUnits(ds, nextId) && d.id != "" && forall i | 0 <= i < |ds| :: ds[i].id != d.id
    requires d.parentId == "" || HasUnit(ds, d.tenant, d.parentId)
    ensures ForestIn(ds + [d], tenant)
  {
    assert ForestIn(ds, tenant);
    AppendedUnit(ds, d, tenant);
    InParents(ds, d.tenant, d.id);
    InParents(ds, d.tenant, d.parentId);
    hide FirstUnit, Parents, Forest, Closed, UniqueIds, Numbered, UniqueCodes;
    if tenant == d.tenant {
      AddKeepsForest(Parents(ds, tenant), d.id, d.parentId);
    }
  }

  lemma {:induction false} CreateIsGood(ds: seq<Department>, d: Department, nextId: nat)
    requires GoodUnits(ds, nextId) && d.id == Itoa(nextId + 1)
    requires forall i | 0 <= i < |ds| && ds[i].tenant == d.tenant :: ds[i].code != d.code
    requires d.parentId == "" || HasUnit(ds, d.tenant, d.parentId)
    ensures GoodUnits(ds + [d], nextId + 1)
  {
    forall i | 0 <= i < |ds| ensures ds[i].id != d.id {
      NextIdIsFresh(ds, nextId, i);
    }
    forall tenant ensures ForestIn(ds + [d], tenant) {
      AddedForest(ds, d, nextId, tenant);
    }
    hide ForestIn, Itoa;
    var es := ds + [d];
    forall k | 0 <= k < |es| ensures exists n: nat :: n <= nextId + 1 && es[k].id == Itoa(n) {
      if k < |ds| {
        var n: nat :| n <= nextId && ds[k].id == Itoa(n);
        assert es[k].id == Itoa(n);
      } else {
        assert es[k].id == Itoa(nextId + 1);
      }
    }
  }

  lemma {:induction false} DeletedForest(ds: seq<Department>, i: nat, nextId: nat, tenant: string)
    requires GoodUnits(ds, nextId) && i < |ds|
    requires forall j | 0 <= j < |ds| && ds[j].tenant == ds[i].tenant :: ds[j].parentId != ds[i].id
    ensures ForestIn(Without(ds, i), tenant)
  {
    assert ForestIn(ds, tenant);
    RemovedUnit(ds, i, tenant);
    IdIsNotBlank(ds, nextId, i);
    var g := Parents(ds, tenant);
    if tenant == ds[i].tenant {
      forall id | id in g ensures g[id] != ds[i].id {
        InParents(ds, tenant, id);
      }
      hide FirstUnit, Parents, Forest, Closed;
      RemoveKeepsForest(g, ds[i].id);
    }
  }

  lemma {:induction false} DeleteIsGood(ds: seq<Department>, i: nat, nextId: nat)
    requires GoodUnits(ds, nextId) && i < |ds|
    requires forall j | 0 <= j < |ds| && ds[j].tenant == ds[i].tenant :: ds[j].parentId != ds[i].id
    ensures GoodUnits(Without(ds, i), nextId)
  {
    forall tenant ensures ForestIn(Without(ds, i), tenant) {
      DeletedForest(ds, i, nextId, tenant);
    }
    hide ForestIn, Itoa;
    var es := Without(ds, i);
    assert forall k | 0 <= k < |es| :: es[k] == ds[if k < i then k else k + 1];
    forall k | 0 <= k < |es| ensures exists n: nat :: n <= nextId && es[k].id == Itoa(n) {
      var j := if k < i then k else k + 1;
      var n: nat :| n <= nextId && ds[j].id == Itoa(n);
      assert es[k].id == Itoa(n);
    }
  }

  // ------------------------------------------------------------------ two moves at once

  /** Two units, each moved under the other on what its own handler had just checked: both guards pass, and
      the second write ties the knot. */
  lemma {:induction false} ConcurrentMovesKnot(a: Department, b: Department)
    requires a.id == "1" && b.id == "2" && a.tenant == b.tenant && a.parentId == b.parentId == "" && a.code != b.code
    ensures var ds := [a, b];
            && GoodUnits(ds, 2)
            && MayReportTo(ds, a.(parentId := "2")) && MayReportTo(ds, b.(parentId := "1"))
            && !GoodUnits([a.(parentId := "2"), b.(parentId := "1")], 2)
  {
    var ds := [a, b];
    TwoRoots(a, b);
    var first := ds[0 := a.(parentId := "2")];
    UpdateIsGoodIff(ds, 0, a.(parentId := "2"), 2);
    Reports(first, a.tenant, 0);
    UpdateIsGoodIff(first, 1, b.(parentId := "1"), 2);
    assert first[1 := b.(parentId := "1")] == [a.(parentId := "2"), b.(parentId := "1")];
    hide GoodUnits, Below, Parents, Itoa;
  }

  lemma {:induction false} TwoRoots(a: Department, b: Department)
    requires a.id == "1" && b.id == "2" && a.tenant == b.tenant && a.parentId == b.parentId == "" && a.code != b.code
    ensures var ds := [a, b];
            && GoodUnits(ds, 2) && HasUnit(ds, a.tenant, "1") && HasUnit(ds, a.tenant, "2")
            && MayReportTo(ds, a.(parentId := "2")) && MayReportTo(ds, b.(parentId := "1"))
  {
    var ds := [a, b];
    NobodyIsGood();
    assert Itoa(1) == "1" && Itoa(2) == "2";
    CreateIsGood([], a, 0);
    assert [] + [a] == [a];
    CreateIsGood([a], b, 1);
    assert [a] + [b] == ds;
    NotBelow(ds, a.tenant, "1", "2");
    NotBelow(ds, a.tenant, "2", "1");
    assert IsUnit(ds[0], a.tenant, "1") && IsUnit(ds[1], a.tenant, "2");
    hide GoodUnits, Below, Parents, Itoa;
  }

  lemma {:induction false} NobodyIsGood()
    ensures GoodUnits([], 0)
  {
    forall tenant ensures ForestIn([], tenant) {
      assert UnitIds([], tenant) == {};
    }
  }

  lemma {:induction false} NotBelow(ds: seq<Department>, tenant: string, ancestor: string, id: string)
    requires ancestor != "" && forall i | 0 <= i < |ds| :: ds[i].parentId == ""
    ensures !Below(Parents(ds, tenant), ancestor, id)
  {
    forall k: nat ensures !BelowAt(Parents(ds, tenant), ancestor, id, k) {
      InParents(ds, tenant, Up(Parents(ds, tenant), id, k));
    }
  }

  lemma {:induction false} Reports(ds: seq<Department>, tenant: string, i: nat)
    requires UniqueIds(ds) && i < |ds| && ds[i].tenant == tenant && ds[i].id != ""
    ensures Below(Parents(ds, tenant), ds[i].parentId, ds[i].id)
  {
    FoundAt(ds, i);
    InParents(ds, tenant, ds[i].id);
    assert Up(Parents(ds, tenant), ds[i].id, 0) == ds[i].id;
    assert BelowAt(Parents(ds, tenant), ds[i].parentId, ds[i].id, 0);
  }
}
