/** The organisation's handlers racing one another (domain/organisation/service.go over
    domain/organisation/memory/memory.go): what a handler has checked may no longer be so when its write lands.

    Every write of the store is one step here, guarded by nothing but what the store itself looks at: a code that is
    taken, a parent, manager or department of another organisation. The walk before a move and the count before a
    deletion belong to the handlers, and are asked here at the write. */
module OrganisationRaces {
  import opened Wrappers
  import opened Decimal
  import opened ParentGraph
  import opened Organisation
  import opened OrganisationService

  /** No unit twice, no knot, no dangling parent, and nobody in a unit that is not there. */
  ghost predicate Good(t: Tables) {
    GoodUnits(t.departments, t.nextId) && PeopleFit(t.people, t.departments)
  }

  /** What the handler had checked, asked at the write: the walk of a move, the count of a deletion. */
  ghost predicate GuardHolds(t: Tables, w: Write) {
    match w
    case Move(tenant, id, edit) =>
      var i := FirstUnit(t.departments, tenant, id);
      i < 0 || ForeignEdit(t.people, t.departments, tenant, edit)
          || MayReportTo(t.departments, Moved(t.departments[i], edit))
    case Delete(tenant, id) =>
      || FirstUnit(t.departments, tenant, id) < 0
      || (PeopleIn(t.people, tenant, id) == 0 && UnitsUnder(t.departments, tenant, id) == 0)
    case _ => true
  }

  // ------------------------------------------------------------------ one write

  lemma {:induction false} MoveIsGoodIff(t: Tables, tenant: string, id: string, edit: DepartmentEdit)
    requires Good(t)
    ensures Good(Written(t, Move(tenant, id, edit))) <==> GuardHolds(t, Move(tenant, id, edit))
  {
    var i := FirstUnit(t.departments, tenant, id);
    if i >= 0 && !ForeignEdit(t.people, t.departments, tenant, edit) {
      hide FirstUnit, PeopleFit, GoodUnits, MayReportTo;
      var d := Moved(t.departments[i], edit);
      UpdateIsGoodIff(t.departments, i, d, t.nextId);
      if MayReportTo(t.departments, d) {
        GuardedMove(t.people, t.departments, i, d, t.nextId);
      }
    }
  }

  /** A unit that reports to itself would be a knot. */
  lemma {:induction false} NotUnderItself(ds: seq<Department>, i: nat, nextId: nat)
    requires GoodUnits(ds, nextId) && i < |ds|
    ensures ds[i].parentId != ds[i].id
  {
    SamePlace(ds, i, nextId);
    IdIsNotBlank(ds, nextId, i);
  }

  lemma {:induction false} OrphanIsNotGood(ds: seq<Department>, i: nat, j: nat, nextId: nat)
    requires GoodUnits(ds, nextId) && i < |ds| && j < |ds| && ds[j].tenant == ds[i].tenant && ds[j].parentId == ds[i].id
    ensures !GoodUnits(Without(ds, i), nextId)
  {
    var tenant := ds[i].tenant;
    NotUnderItself(ds, i, nextId);
    IdIsNotBlank(ds, nextId, i);
    FoundAt(ds, i);
    FoundAt(ds, j);
    RemovedUnit(ds, i, tenant);
    InParents(ds, tenant, ds[j].id);
    hide FirstUnit, Parents, Without;
    var g := Parents(Without(ds, i), tenant);
    assert ds[j].id in g && g[ds[j].id] == ds[i].id && ds[i].id !in g;
    assert !Closed(g);
    assert !ForestIn(Without(ds, i), tenant);
  }

  lemma {:induction false} HomelessDoNotFit(people: seq<Person>, ds: seq<Department>, i: nat, k: nat)
    requires UniqueIds(ds) && i < |ds| && k < |people| && people[k].tenant == ds[i].tenant
             && people[k].departmentId == ds[i].id != ""
    ensures !PeopleFit(people, Without(ds, i))
  {
    RemovedLookup(ds, i, people[k].tenant, people[k].departmentId);
    hide FirstUnit, Without;
  }

  lemma {:induction false} DeleteIsGoodIff(t: Tables, tenant: string, id: string)
    requires Good(t)
    ensures Good(Written(t, Delete(tenant, id))) <==> GuardHolds(t, Delete(tenant, id))
  {
    var ds, i := t.departments, FirstUnit(t.departments, tenant, id);
    if i >= 0 {
      NobodyIn(t.people, tenant, id);
      NoUnitUnder(ds, tenant, id);
      IdIsNotBlank(ds, t.nextId, i);
      hide FirstUnit, PeopleIn, UnitsUnder, PeopleFit, Without;
      if GuardHolds(t, Delete(tenant, id)) {
        DeletedUnit(t.people, ds, i, t.nextId);
      } else if UnitsUnder(ds, tenant, id) > 0 {
        var j :| 0 <= j < |ds| && ds[j].tenant == tenant && ds[j].parentId == id;
        OrphanIsNotGood(ds, i, j, t.nextId);
      } else {
        var k :| 0 <= k < |t.people| && t.people[k].tenant == tenant && t.people[k].departmentId == id;
        HomelessDoNotFit(t.people, ds, i, k);
      }
    }
  }

  lemma {:induction false} CreateKeepsGood(t: Tables, tenant: string, edit: DepartmentEdit)
    requires Good(t)
    ensures Good(Written(t, Create(tenant, edit)))
  {
    if !CodeTaken(t.departments, tenant, edit.code) && !ForeignEdit(t.people, t.departments, tenant, edit) {
      var d := Created(t.nextId, tenant, edit);
      CreateIsGood(t.departments, d, t.nextId);
      AppendedKeepsPeople(t.people, t.departments, d, t.nextId);
      hide FirstUnit, GoodUnits, PeopleFit;
    }
  }

  lemma {:induction false} PlaceKeepsGood(t: Tables, tenant: string, id: string, edit: PersonEdit)
    requires Good(t)
    ensures Good(Written(t, Place(tenant, id, edit)))
  {
    hide FirstUnit, GoodUnits;
  }

  lemma {:induction false} ArchiveKeepsGood(t: Tables, tenant: string, id: string, archived: bool)
    requires Good(t)
    ensures Good(Written(t, Archive(tenant, id, archived)))
  {
    var i := FirstUnit(t.departments, tenant, id);
    if i >= 0 {
      ArchivedInPlace(t.people, t.departments, i, t.departments[i].(active := !archived), t.nextId);
    }
    hide GoodUnits, PeopleFit;
  }

  /** A write keeps the tables good exactly when what its handler had checked is still so. */
  lemma {:induction false} WriteIsGoodIff(t: Tables, w: Write)
    requires Good(t)
    ensures Good(Written(t, w)) <==> GuardHolds(t, w)
  {
    match w
    case Create(tenant, edit) => CreateKeepsGood(t, tenant, edit);
    case Move(tenant, id, edit) => MoveIsGoodIff(t, tenant, id, edit);
    case Delete(tenant, id) => DeleteIsGoodIff(t, tenant, id);
    case Place(tenant, id, edit) => PlaceKeepsGood(t, tenant, id, edit);
    case Archive(tenant, id, archived) => ArchiveKeepsGood(t, tenant, id, archived);
    hide Good, Written;
  }

  // ------------------------------------------------------------------ any succession of writes

  ghost function WrittenAll(t: Tables, writes: seq<Write>): Tables {
    if writes == [] then t else Written(WrittenAll(t, writes[..|writes| - 1]), writes[|writes| - 1])
  }

  ghost predicate GoodThroughout(t: Tables, writes: seq<Write>) {
    forall k | 0 <= k <= |writes| :: Good(WrittenAll(t, writes[..k]))
  }

  ghost predicate GuardedThroughout(t: Tables, writes: seq<Write>) {
    forall k | 0 <= k < |writes| :: GuardHolds(WrittenAll(t, writes[..k]), writes[k])
  }

  lemma {:induction false} WriteAt(t: Tables, writes: seq<Write>, k: nat)
    requires k < |writes|
    ensures WrittenAll(t, writes[..k + 1]) == Written(WrittenAll(t, writes[..k]), writes[k])
  {
    hide Written;
    assert writes[..k + 1][..k] == writes[..k];
  }

  lemma {:induction false} GoodUpTo(t: Tables, writes: seq<Write>, n: nat)
    requires Good(t) && n <= |writes| && forall k | 0 <= k < n :: GuardHolds(WrittenAll(t, writes[..k]), writes[k])
    ensures Good(WrittenAll(t, writes[..n]))
  {
    if n > 0 {
      hide Good, Written, WrittenAll, GuardHolds;
      GoodUpTo(t, writes, n - 1);
      WriteAt(t, writes, n - 1);
      WriteIsGoodIff(WrittenAll(t, writes[..n - 1]), writes[n - 1]);
    }
  }

  lemma {:induction false} FirstUnguarded(t: Tables, writes: seq<Write>, n: nat) returns (k: nat)
    requires n <= |writes| && exists j :: 0 <= j < n && !GuardHolds(WrittenAll(t, writes[..j]), writes[j])
    ensures k < n && !GuardHolds(WrittenAll(t, writes[..k]), writes[k])
    ensures forall j | 0 <= j < k :: GuardHolds(WrittenAll(t, writes[..j]), writes[j])
  {
    hide GuardHolds, WrittenAll;
    if j :| 0 <= j < n - 1 && !GuardHolds(WrittenAll(t, writes[..j]), writes[j]) {
      k := FirstUnguarded(t, writes, n - 1);
    } else {
      k := n - 1;
    }
  }

  /** However the writes of racing handlers follow one another, the tables are good after each exactly when each found
      still so what its handler had checked. */
  lemma {:induction false} TablesAreKeptIff(t: Tables, writes: seq<Write>)
    requires Good(t)
    ensures GoodThroughout(t, writes) <==> GuardedThroughout(t, writes)
  {
    if GuardedThroughout(t, writes) {
      forall k | 0 <= k <= |writes| ensures Good(WrittenAll(t, writes[..k])) {
        GoodUpTo(t, writes, k);
      }
    } else {
      hide Good, Written, WrittenAll, GuardHolds;
      var k := FirstUnguarded(t, writes, |writes|);
      GoodUpTo(t, writes, k);
      WriteAt(t, writes, k);
      WriteIsGoodIff(WrittenAll(t, writes[..k]), writes[k]);
    }
  }

  // ------------------------------------------------------------------ a deletion that was counted too early

  /** A unit counted empty, then another created under it, then the counted deletion: the parent dangles. */
  lemma {:induction false} CountedDeletionOrphans(t: Tables, tenant: string, id: string, edit: DepartmentEdit)
    requires Good(t) && FirstUnit(t.departments, tenant, id) >= 0 && GuardHolds(t, Delete(tenant, id))
    requires OrBlank(TrimmedOrNone(edit.parentId)) == id
    requires !CodeTaken(t.departments, tenant, edit.code) && !ForeignEdit(t.people, t.departments, tenant, edit)
    ensures Good(Written(t, Create(tenant, edit)))
            && !Good(Written(Written(t, Create(tenant, edit)), Delete(tenant, id)))
  {
    var u := Written(t, Create(tenant, edit));
    CreateKeepsGood(t, tenant, edit);
    AppendedLookup(t.departments, Created(t.nextId, tenant, edit), tenant, id);
    NoUnitUnder(u.departments, tenant, id);
    assert u.departments[|t.departments|].parentId == id;
    hide Good, FirstUnit, UnitsUnder, PeopleIn;
    DeleteIsGoodIff(u, tenant, id);
  }
}
