/** The store's operations and the rules the service puts before them. */
module OrganisationService {
  import opened Wrappers
  import opened Sets
  import opened Text
  import opened Decimal
  import opened ParentGraph
  import opened Organisation

  /** A person of the tenant who can administer it now. */
  predicate IsActiveAdmin(p: Person, tenant: string) {
    p.tenant == tenant && p.active && p.isAdmin
  }

  ghost predicate HasAdmin(people: seq<Person>, tenant: string) {
    exists i :: 0 <= i < |people| && IsActiveAdmin(people[i], tenant)
  }

  /** What the composite foreign key refuses: a parent or a manager of another organisation. */
  ghost predicate ForeignEdit(people: seq<Person>, ds: seq<Department>, tenant: string, edit: DepartmentEdit) {
    || (TrimmedOrNone(edit.parentId).Some? && !HasUnit(ds, tenant, TrimmedOrNone(edit.parentId).value))
    || (TrimmedOrNone(edit.managerId).Some? && FirstPerson(people, tenant, TrimmedOrNone(edit.managerId).value) < 0)
  }

  ghost predicate CodeTaken(ds: seq<Department>, tenant: string, code: string) {
    exists i :: 0 <= i < |ds| && ds[i].tenant == tenant && ds[i].code == code
  }

  ghost predicate NamesForeignUnit(ds: seq<Department>, tenant: string, edit: PersonEdit) {
    var named := TrimmedOrNone(edit.departmentId);
    named.Some? && !HasUnit(ds, tenant, named.value)
  }

  // ------------------------------------------------------------------ what a unit still holds

  ghost function PeopleIn(people: seq<Person>, tenant: string, id: string): nat {
    if people == [] then 0
    else
      var last := people[|people| - 1];
      PeopleIn(people[..|people| - 1], tenant, id) + if last.tenant == tenant && last.departmentId == id then 1 else 0
  }

  ghost function UnitsUnder(ds: seq<Department>, tenant: string, id: string): nat {
    if ds == [] then 0
    else
      var last := ds[|ds| - 1];
      UnitsUnder(ds[..|ds| - 1], tenant, id) + if last.tenant == tenant && last.parentId == id then 1 else 0
  }

  ghost function AdminsBut(people: seq<Person>, tenant: string, except: string): nat {
    if people == [] then 0
    else
      var last := people[|people| - 1];
      AdminsBut(people[..|people| - 1], tenant, except)
          + if IsActiveAdmin(last, tenant) && last.membershipId != except then 1 else 0
  }

  lemma {:induction false} NobodyIn(people: seq<Person>, tenant: string, id: string)
    ensures PeopleIn(people, tenant, id) == 0
            <==> forall i | 0 <= i < |people| && people[i].tenant == tenant :: people[i].departmentId != id
  {
    if people != [] {
      NobodyIn(people[..|people| - 1], tenant, id);
      assert forall i | 0 <= i < |people| - 1 :: people[..|people| - 1][i] == people[i];
    }
  }

  lemma {:induction false} NoUnitUnder(ds: seq<Department>, tenant: string, id: string)
    ensures UnitsUnder(ds, tenant, id) == 0
            <==> forall i | 0 <= i < |ds| && ds[i].tenant == tenant :: ds[i].parentId != id
  {
    if ds != [] {
      NoUnitUnder(ds[..|ds| - 1], tenant, id);
      assert forall i | 0 <= i < |ds| - 1 :: ds[..|ds| - 1][i] == ds[i];
    }
  }

  lemma {:induction false} NoAdminBut(people: seq<Person>, tenant: string, except: string)
    ensures AdminsBut(people, tenant, except) == 0
            <==> forall i | 0 <= i < |people| && IsActiveAdmin(people[i], tenant) :: people[i].membershipId == except
  {
    if people != [] {
      NoAdminBut(people[..|people| - 1], tenant, except);
      assert forall i | 0 <= i < |people| - 1 :: people[..|people| - 1][i] == people[i];
    }
  }

  /** Counting row by row counts the rows. */
  lemma {:induction false} PeopleCounted(people: seq<Person>, tenant: string, id: string)
    ensures PeopleIn(people, tenant, id)
            == |set i | 0 <= i < |people| && people[i].tenant == tenant && people[i].departmentId == id|
  {
    var all := set i | 0 <= i < |people| && people[i].tenant == tenant && people[i].departmentId == id;
    if people != [] {
      var n := |people| - 1;
      PeopleCounted(people[..n], tenant, id);
      var init := set i | 0 <= i < n && people[..n][i].tenant == tenant && people[..n][i].departmentId == id;
      LastCounted(init, all, n);
    }
  }

  lemma {:induction false} UnitsCounted(ds: seq<Department>, tenant: string, id: string)
    ensures UnitsUnder(ds, tenant, id)
            == |set i | 0 <= i < |ds| && ds[i].tenant == tenant && ds[i].parentId == id|
  {
    var all := set i | 0 <= i < |ds| && ds[i].tenant == tenant && ds[i].parentId == id;
    if ds != [] {
      var n := |ds| - 1;
      UnitsCounted(ds[..n], tenant, id);
      var init := set i | 0 <= i < n && ds[..n][i].tenant == tenant && ds[..n][i].parentId == id;
      LastCounted(init, all, n);
    }
  }

  lemma {:induction false} AdminsCounted(people: seq<Person>, tenant: string, except: string)
    ensures AdminsBut(people, tenant, except)
            == |set i | && 0 <= i < |people| && people[i].tenant == tenant && people[i].active && people[i].isAdmin
                        && people[i].membershipId != except|
  {
    var all := set i | && 0 <= i < |people| && people[i].tenant == tenant && people[i].active && people[i].isAdmin
                       && people[i].membershipId != except;
    if people != [] {
      var n, init := |people| - 1, people[..|people| - 1];
      AdminsCounted(init, tenant, except);
      var before := set i | && 0 <= i < n && init[i].tenant == tenant && init[i].active && init[i].isAdmin
                            && init[i].membershipId != except;
      LastCounted(before, all, n);
    }
  }

  lemma {:induction false} LastCounted(init: set<int>, all: set<int>, n: int)
    requires n !in init && forall i :: i in all && i != n <==> i in init
    ensures |all| == |init| + if n in all then 1 else 0
  {
    SameMembers(all, if n in all then init + {n} else init);
  }

  predicate ValidCodeUnit(ch: char) {
    'a' <= ch <= 'z' || '0' <= ch <= '9' || ch == '-' || ch == '_'
  }

  method IsValidCode(code: string) returns (r: bool)
    ensures r <==> 1 <= |code| <= 64 && forall i | 0 <= i < |code| :: ValidCodeUnit(code[i])
    ensures r <==> && 1 <= |code| <= 64
                   && forall i | 0 <= i < |code| ::
                        'a' <= code[i] <= 'z' || '0' <= code[i] <= '9' || code[i] in {'-', '_'}
  {
    if code == "" || |code| > 64 { return false; }
    for i := 0 to |code|
      invariant forall j | 0 <= j < i :: ValidCodeUnit(code[j])
    {
      if !ValidCodeUnit(code[i]) { return false; }
    }
    return true;
  }

  // ------------------------------------------------------------------ the store's writes

  /** The membership as an edit leaves it; when the department is refused, only the title has changed. */
  function Edited(p: Person, edit: PersonEdit, departmentToo: bool): Person {
    var q := if edit.jobTitle.Some? then p.(jobTitle := edit.jobTitle.value) else p;
    if departmentToo && edit.departmentId.Some? then q.(departmentId := OrBlank(TrimmedOrNone(edit.departmentId)))
        else q
  }

  function Moved(d: Department, edit: DepartmentEdit): Department {
    d.(name := edit.name, parentId := OrBlank(TrimmedOrNone(edit.parentId)),
        managerId := OrBlank(TrimmedOrNone(edit.managerId)))
  }

  function Created(nextId: nat, tenant: string, edit: DepartmentEdit): Department {
    Department(Itoa(nextId + 1), edit.code, edit.name, OrBlank(TrimmedOrNone(edit.parentId)),
               OrBlank(TrimmedOrNone(edit.managerId)), true, tenant)
  }

  /** The store's tables and the counter that ids are drawn from. */
  datatype Tables = Tables(people: seq<Person>, departments: seq<Department>, nextId: nat)

  /** What the store's methods write, whoever calls them. */
  datatype Write =
    | Create(tenant: string, edit: DepartmentEdit)
    | Move(tenant: string, id: string, edit: DepartmentEdit)
    | Delete(tenant: string, id: string)
    | Archive(tenant: string, id: string, archived: bool)
    | Place(tenant: string, id: string, placing: PersonEdit)

  ghost function Written(t: Tables, w: Write): Tables {
    match w
    case Create(tenant, edit) =>
      if CodeTaken(t.departments, tenant, edit.code) || ForeignEdit(t.people, t.departments, tenant, edit) then t
      else t.(departments := t.departments + [Created(t.nextId, tenant, edit)], nextId := t.nextId + 1)
    case Move(tenant, id, edit) =>
      var i := FirstUnit(t.departments, tenant, id);
      if i < 0 || ForeignEdit(t.people, t.departments, tenant, edit) then t
      else t.(departments := t.departments[i := Moved(t.departments[i], edit)])
    case Delete(tenant, id) =>
      var i := FirstUnit(t.departments, tenant, id);
      if i < 0 then t else t.(departments := Without(t.departments, i))
    case Archive(tenant, id, archived) =>
      var i := FirstUnit(t.departments, tenant, id);
      if i < 0 then t else t.(departments := t.departments[i := t.departments[i].(active := !archived)])
    case Place(tenant, id, edit) =>
      var i := FirstPerson(t.people, tenant, id);
      if i < 0 then t
      else t.(people := t.people[i := Edited(t.people[i], edit, !NamesForeignUnit(t.departments, tenant, edit))])
  }

  class Store {
    var people: seq<Person>
    var departments: seq<Department>
    var nextId: nat

    /** What every guarded operation keeps. */
    ghost predicate Valid()
      reads this
    {
      GoodUnits(departments, nextId) && PeopleFit(people, departments)
    }

    ghost function Contents(): Tables
      reads this
    {
      Tables(people, departments, nextId)
    }

    constructor (members: seq<Person>)
      requires forall i | 0 <= i < |members| :: members[i].departmentId == ""
      ensures Valid() && people == members && departments == [] && nextId == 0
    {
      people, departments, nextId := members, [], 0;
      new;
      NobodyIsGood();
    }

    method FindPerson(tenant: string, id: string) returns (r: int)
      ensures r == FirstPerson(people, tenant, id)
      ensures -1 <= r < |people| && (r >= 0 ==> people[r].tenant == tenant && people[r].membershipId == id)
      ensures forall j | 0 <= j < (if r < 0 then |people| else r) ::
                !(people[j].tenant == tenant && people[j].membershipId == id)
    {
      for i := 0 to |people|
        invariant forall j | 0 <= j < i :: !IsMember(people[j], tenant, id)
      {
        if IsMember(people[i], tenant, id) {
          assert FirstPerson(people, tenant, id) == i;
          return i;
        }
      }
      return -1;
    }

    method FindDepartment(tenant: string, id: string) returns (r: int)
      ensures r == FirstUnit(departments, tenant, id)
      ensures -1 <= r < |departments| && (r >= 0 ==> departments[r].tenant == tenant && departments[r].id == id)
      ensures forall j | 0 <= j < (if r < 0 then |departments| else r) ::
                !(departments[j].tenant == tenant && departments[j].id == id)
    {
      for i := 0 to |departments|
        invariant forall j | 0 <= j < i :: !IsUnit(departments[j], tenant, id)
      {
        if IsUnit(departments[i], tenant, id) {
          assert FirstUnit(departments, tenant, id) == i;
          return i;
        }
      }
      return -1;
    }

    /** Upwards from the candidate, at most one step more than there are units. On every table, knotted or
        not, the answer is whether the ancestor is reached by one or more steps. */
    method IsDescendant(tenant: string, ancestor: string, candidate: string) returns (r: bool)
      ensures r <==> Below(Parents(departments, tenant), ancestor, candidate)
    {
      hide Parents, FirstUnit, Below, BelowAt, Up;
      ghost var g := Parents(departments, tenant);
      UpStarts(g, candidate);
      var id, steps := candidate, 0;
      while id != "" && steps <= |departments|
        invariant steps <= |departments| + 1
        invariant id == Up(g, candidate, steps)
        invariant forall j: nat | j < steps :: !BelowAt(g, ancestor, candidate, j)
        decreases |departments| + 1 - steps
      {
        var i := FindDepartment(tenant, id);
        InParents(departments, tenant, id);
        if i < 0 {
          NotBelowAbove(g, ancestor, candidate, steps);
          return false;
        }
        OneStepUp(g, ancestor, candidate, steps);
        if departments[i].parentId == ancestor {
          return true;
        }
        id := departments[i].parentId;
        steps := steps + 1;
      }
      if id == "" {
        NotBelowAbove(g, ancestor, candidate, steps);
      } else {
        NoMoreUnitsThanRows(departments, tenant);
        BelowIsSoon(g, ancestor, candidate);
      }
      return false;
    }

    /** The composite foreign key: parent and manager belong to the tenant. */
    method Foreign(tenant: string, edit: DepartmentEdit) returns (r: bool)
      ensures r <==> ForeignEdit(people, departments, tenant, edit)
      ensures var parent := if edit.parentId.None? then "" else Trim(edit.parentId.value);
              var manager := if edit.managerId.None? then "" else Trim(edit.managerId.value);
              r <==> || (parent != "" && forall i | 0 <= i < |departments| ::
                          !(departments[i].tenant == tenant && departments[i].id == parent))
                     || (manager != "" && forall i | 0 <= i < |people| ::
                          !(people[i].tenant == tenant && people[i].membershipId == manager))
    {
      hide Trim, FirstUnit, FirstPerson;
      var parent := TrimmedOrNone(edit.parentId);
      if parent.Some? {
        var i := FindDepartment(tenant, parent.value);
        if i < 0 { return true; }
      }
      var manager := TrimmedOrNone(edit.managerId);
      if manager.Some? {
        var i := FindPerson(tenant, manager.value);
        if i < 0 { return true; }
      }
      return false;
    }

    method CreateDepartment(tenant: string, edit: DepartmentEdit) returns (r: Result<string, Error>)
      requires Valid()
      modifies this`departments, this`nextId
      ensures Valid()
      ensures r.Ok? ==> && nextId == old(nextId) + 1 && r.value == Itoa(nextId)
                        && departments == old(departments) + [Department(r.value, edit.code, edit.name,
                             OrBlank(TrimmedOrNone(edit.parentId)), OrBlank(TrimmedOrNone(edit.managerId)), true,
                                 tenant)]
      ensures r.Err? ==> departments == old(departments) && nextId == old(nextId)
      ensures r.Ok? ==>
                && nextId == old(nextId) + 1 && r.value == Itoa(nextId) && |departments| == |old(departments)| + 1
                && departments[..|old(departments)|] == old(departments)
                && departments[|old(departments)|]
                   == Department(r.value, edit.code, edit.name,
                        if edit.parentId.None? then "" else Trim(edit.parentId.value),
                        if edit.managerId.None? then "" else Trim(edit.managerId.value), true, tenant)
      ensures r == Err(DuplicateCode)
              <==> exists i :: 0 <= i < |old(departments)| && old(departments)[i].tenant == tenant
                               && old(departments)[i].code == edit.code
      ensures r == Err(DuplicateCode) <==> CodeTaken(old(departments), tenant, edit.code)
      ensures r == Err(ForeignUnit)
              <==> !CodeTaken(old(departments), tenant, edit.code)
                   && ForeignEdit(people, old(departments), tenant, edit)
      ensures r.Err? ==> r.error == DuplicateCode || r.error == ForeignUnit
      ensures Contents() == Written(old(Contents()), Create(tenant, edit))
    {
      for i := 0 to |departments|
        invariant forall j | 0 <= j < i && departments[j].tenant == tenant :: departments[j].code != edit.code
      {
        if departments[i].tenant == tenant && departments[i].code == edit.code { return Err(DuplicateCode); }
      }
      var foreign := Foreign(tenant, edit);
      if foreign { return Err(ForeignUnit); }
      nextId := nextId + 1;
      var department := Department(Itoa(nextId), edit.code, edit.name,
                                   OrBlank(TrimmedOrNone(edit.parentId)), OrBlank(TrimmedOrNone(edit.managerId)), true,
                                       tenant);
      CreateIsGood(departments, department, nextId - 1);
      AppendedKeepsPeople(people, departments, department, nextId - 1);
      departments := departments + [department];
      return Ok(department.id);
    }

    /** Name, parent and manager; the code and whether it is archived stay. The store itself does not look
        for knots. */
    method UpdateDepartment(tenant: string, id: string, edit: DepartmentEdit) returns (r: Result<bool, Error>)
      modifies this`departments
      ensures var i := FirstUnit(old(departments), tenant, id);
              && r == (if i < 0 then Ok(false) else if ForeignEdit(people, old(departments), tenant, edit)
                 then Err(ForeignUnit) else Ok(true))
              && departments == if r == Ok(true) then old(departments)[i := Moved(old(departments)[i], edit)]
                 else old(departments)
      ensures Contents() == Written(old(Contents()), Move(tenant, id, edit))
      ensures r == Ok(true) ==>
                var i := FirstUnit(old(departments), tenant, id);
                departments == old(departments)[i := old(departments)[i].(
                  name := edit.name,
                  parentId := if edit.parentId.None? then "" else Trim(edit.parentId.value),
                  managerId := if edit.managerId.None? then "" else Trim(edit.managerId.value))]
    {
      var i := FindDepartment(tenant, id);
      if i < 0 { return Ok(false); }
      var foreign := Foreign(tenant, edit);
      if foreign { return Err(ForeignUnit); }
      var d := departments[i].(name := edit.name, parentId := "");
      var parent := TrimmedOrNone(edit.parentId);
      if parent.Some? { d := d.(parentId := parent.value); }
      d := d.(managerId := "");
      var manager := TrimmedOrNone(edit.managerId);
      if manager.Some? { d := d.(managerId := manager.value); }
      departments := departments[i := d];
      return Ok(true);
    }

    method Parent(tenant: string, id: string) returns (name: string, archived: bool)
      ensures var i := FirstUnit(departments, tenant, id);
              var p := if i < 0 || departments[i].parentId == "" then -1
                  else FirstUnit(departments, tenant, departments[i].parentId);
              archived == (p >= 0 && !departments[p].active) && (p >= 0 ==> name == departments[p].name)
    {
      var i := FindDepartment(tenant, id);
      if i < 0 || departments[i].parentId == "" { return "", false; }
      var parent := FindDepartment(tenant, departments[i].parentId);
      if parent < 0 { return "", false; }
      return departments[parent].name, !departments[parent].active;
    }

    method SetDepartmentArchived(tenant: string, id: string, archived: bool) returns (found: bool)
      modifies this`departments
      ensures var i := FirstUnit(old(departments), tenant, id);
              && (found <==> i >= 0)
              && departments == (if i >= 0 then old(departments)[i := old(departments)[i].(active := !archived)]
                 else old(departments))
      ensures Contents() == Written(old(Contents()), Archive(tenant, id, archived))
    {
      var i := FindDepartment(tenant, id);
      if i < 0 { return false; }
      departments := departments[i := departments[i].(active := !archived)];
      return true;
    }

    method CountChildren(tenant: string, id: string) returns (persons: nat, units: nat)
      ensures persons == PeopleIn(people, tenant, id) && units == UnitsUnder(departments, tenant, id)
      ensures persons == |set i | 0 <= i < |people| && people[i].tenant == tenant && people[i].departmentId == id|
      ensures units == |set i | 0 <= i < |departments| && departments[i].tenant == tenant
                                && departments[i].parentId == id|
    {
      PeopleCounted(people, tenant, id);
      UnitsCounted(departments, tenant, id);
      persons, units := 0, 0;
      for i := 0 to |people|
        invariant persons == PeopleIn(people[..i], tenant, id)
      {
        assert people[..i + 1][..i] == people[..i];
        if people[i].tenant == tenant && people[i].departmentId == id { persons := persons + 1; }
      }
      for i := 0 to |departments|
        invariant units == UnitsUnder(departments[..i], tenant, id)
      {
        assert departments[..i + 1][..i] == departments[..i];
        if departments[i].tenant == tenant && departments[i].parentId == id { units := units + 1; }
      }
      assert people[..|people|] == people && departments[..|departments|] == departments;
    }

    method DeleteDepartment(tenant: string, id: string) returns (found: bool)
      modifies this`departments
      ensures var i := FirstUnit(old(departments), tenant, id);
              && (found <==> i >= 0)
              && departments == (if i >= 0 then Without(old(departments), i) else old(departments))
              && (found ==> departments == old(departments)[..i] + old(departments)[i + 1..])
      ensures Contents() == Written(old(Contents()), Delete(tenant, id))
    {
      var i := FindDepartment(tenant, id);
      if i < 0 { return false; }
      departments := departments[..i] + departments[i + 1..];
      return true;
    }

    method CountAdmins(tenant: string, except: string) returns (count: nat)
      ensures count == AdminsBut(people, tenant, except)
      ensures count == |set i | && 0 <= i < |people| && people[i].tenant == tenant && people[i].active
                                && people[i].isAdmin && people[i].membershipId != except|
    {
      AdminsCounted(people, tenant, except);
      count := 0;
      for i := 0 to |people|
        invariant count == AdminsBut(people[..i], tenant, except)
      {
        assert people[..i + 1][..i] == people[..i];
        if IsActiveAdmin(people[i], tenant) && people[i].membershipId != except { count := count + 1; }
      }
      assert people[..|people|] == people;
    }

    method SetActive(tenant: string, id: string, active: bool) returns (found: bool)
      requires Valid()
      modifies this`people
      ensures Valid()
      ensures var i := FirstPerson(old(people), tenant, id);
              && (found <==> i >= 0)
              && people == if i >= 0 then old(people)[i := old(people)[i].(active := active)] else old(people)
    {
      var i := FindPerson(tenant, id);
      if i < 0 { return false; }
      people := people[i := people[i].(active := active)];
      return true;
    }

    /** The job title is written before the department is looked at. */
    method UpdatePerson(tenant: string, id: string, edit: PersonEdit) returns (r: Result<bool, Error>)
      requires Valid()
      modifies this`people
      ensures Valid()
      ensures var i := FirstPerson(old(people), tenant, id);
              && r == (if i < 0 then Ok(false) else if NamesForeignUnit(departments, tenant, edit)
                 then Err(ForeignDepartment) else Ok(true))
              && people == if i < 0 then old(people) else old(people)[i := Edited(old(people)[i], edit, r.Ok?)]
      ensures Contents() == Written(old(Contents()), Place(tenant, id, edit))
      ensures var i := FirstPerson(old(people), tenant, id);
              var unit := if edit.departmentId.None? then "" else Trim(edit.departmentId.value);
              var unknown := unit != "" && forall j | 0 <= j < |departments| ::
                  !(departments[j].tenant == tenant && departments[j].id == unit);
              && (r == Err(ForeignDepartment) <==> i >= 0 && unknown)
              && (i >= 0 ==>
                    people == old(people)[i := old(people)[i].(
                      jobTitle := if edit.jobTitle.Some? then edit.jobTitle.value else old(people)[i].jobTitle,
                      departmentId := if edit.departmentId.Some? && !unknown then unit
                                      else old(people)[i].departmentId)])
    {
      hide FirstPerson, FirstUnit, GoodUnits;
      var i := FindPerson(tenant, id);
      if i < 0 { return Ok(false); }
      ghost var was := people;
      if edit.jobTitle.Some? {
        people := people[i := people[i].(jobTitle := edit.jobTitle.value)];
      }
      if edit.departmentId.Some? {
        var department := TrimmedOrNone(edit.departmentId);
        if department.None? {
          people := people[i := people[i].(departmentId := "")];
        } else {
          var d := FindDepartment(tenant, department.value);
          if d < 0 {
            assert people == was[i := Edited(was[i], edit, false)];
            return Err(ForeignDepartment);
          }
          people := people[i := people[i].(departmentId := department.value)];
        }
      }
      assert people == was[i := Edited(was[i], edit, true)];
      return Ok(true);
    }
  }

  /** A refused edit left the membership alone exactly when it carried no other job title. */
  lemma {:induction false} RefusedEditIsHarmlessIff(p: Person, edit: PersonEdit)
    ensures Edited(p, edit, false) == p <==> edit.jobTitle.None? || edit.jobTitle.value == p.jobTitle
  {
    if edit.jobTitle.Some? && edit.jobTitle.value != p.jobTitle {
      assert Edited(p, edit, false).jobTitle != p.jobTitle;
    }
  }

  lemma {:induction false} UpStarts(g: Graph, id: string)
    ensures Up(g, id, 0) == id
  {}

  lemma {:induction false} OneStepUp(g: Graph, ancestor: string, id: string, k: nat)
    requires Up(g, id, k) != "" && Up(g, id, k) in g
    ensures Up(g, id, k + 1) == g[Up(g, id, k)]
    ensures BelowAt(g, ancestor, id, k) <==> g[Up(g, id, k)] == ancestor
    ensures g[Up(g, id, k)] == ancestor ==> Below(g, ancestor, id)
  {
    if g[Up(g, id, k)] == ancestor {
      assert BelowAt(g, ancestor, id, k);
    }
  }

  /** Past the top, or off the table, no ancestor is met. */
  lemma {:induction false} NotBelowAbove(g: Graph, ancestor: string, id: string, k: nat)
    requires (Up(g, id, k) == "" || Up(g, id, k) !in g) && forall j: nat | j < k :: !BelowAt(g, ancestor, id, j)
    ensures !Below(g, ancestor, id)
  {
    forall j: nat ensures !BelowAt(g, ancestor, id, j) {
      if j > k {
        UpJoins(g, id, k + 1, j - k - 1);
        NothingAboveNothing(g, j - k - 1);
      }
    }
  }

  lemma {:induction false} AppendedKeepsPeople(people: seq<Person>, ds: seq<Department>, d: Department, nextId: nat)
    requires PeopleFit(people, ds) && GoodUnits(ds, nextId) && d.id == Itoa(nextId + 1)
    ensures PeopleFit(people, ds + [d])
  {
    forall i | 0 <= i < |ds| ensures ds[i].id != d.id {
      NextIdIsFresh(ds, nextId, i);
    }
    hide FirstUnit;
    forall i | 0 <= i < |people| && people[i].departmentId != ""
        ensures HasUnit(ds + [d], people[i].tenant, people[i].departmentId) {
      AppendedLookup(ds, d, people[i].tenant, people[i].departmentId);
    }
  }

  // ------------------------------------------------------------------ the service

  /** Replacing the first row of a membership that is not an administrator, or leaving another active
      administrator, leaves the tenant one. */
  lemma {:induction false} AdminStays(people: seq<Person>, tenant: string, id: string, i: int, active: bool)
    requires i == FirstPerson(people, tenant, id) >= 0 && HasAdmin(people, tenant)
    requires active || !people[i].isAdmin || AdminsBut(people, tenant, id) > 0
    ensures HasAdmin(people[i := people[i].(active := active)], tenant)
  {
    NoAdminBut(people, tenant, id);
    var after := people[i := people[i].(active := active)];
    if !active && people[i].isAdmin {
      var j :| 0 <= j < |people| && IsActiveAdmin(people[j], tenant) && people[j].membershipId != id;
      assert IsActiveAdmin(after[j], tenant);
    } else {
      var j :| 0 <= j < |people| && IsActiveAdmin(people[j], tenant);
      assert IsActiveAdmin(after[j], tenant);
    }
  }

  /** Membership ids are the tenant's key. */
  ghost predicate DistinctMembers(people: seq<Person>, tenant: string) {
    forall i, j | 0 <= i < j < |people| && people[i].tenant == tenant && people[j].tenant == tenant ::
        people[i].membershipId != people[j].membershipId
  }

  /** The guard that the handler counted for, asked at the write. */
  ghost predicate Spares(people: seq<Person>, tenant: string, id: string, active: bool) {
    var i := FirstPerson(people, tenant, id);
    i < 0 || active || !people[i].isAdmin || AdminsBut(people, tenant, id) > 0
  }

  function Flagged(people: seq<Person>, tenant: string, id: string, active: bool): seq<Person> {
    var i := FirstPerson(people, tenant, id);
    if i < 0 then people else people[i := people[i].(active := active)]
  }

  /** A write leaves the tenant an administrator exactly when the guard holds at the write. */
  lemma {:induction false} AdminStaysIff(people: seq<Person>, tenant: string, id: string, active: bool)
    requires DistinctMembers(people, tenant) && HasAdmin(people, tenant)
    ensures HasAdmin(Flagged(people, tenant, id, active), tenant) <==> Spares(people, tenant, id, active)
    ensures DistinctMembers(Flagged(people, tenant, id, active), tenant)
  {
    var i := FirstPerson(people, tenant, id);
    if Spares(people, tenant, id, active) {
      if i >= 0 { AdminStays(people, tenant, id, i, active); }
    } else {
      NoAdminBut(people, tenant, id);
      var after := Flagged(people, tenant, id, active);
      forall j | 0 <= j < |after| ensures !IsActiveAdmin(after[j], tenant) {}
    }
  }

  /** A write of somebody's activity, whatever its handler had counted before. */
  datatype Flag = Flag(id: string, active: bool)

  function FlaggedAll(people: seq<Person>, tenant: string, flags: seq<Flag>): seq<Person> {
    if flags == [] then people
    else Flagged(FlaggedAll(people, tenant, flags[..|flags| - 1]), tenant, flags[|flags| - 1].id,
        flags[|flags| - 1].active)
  }

  ghost predicate AdminThroughout(people: seq<Person>, tenant: string, flags: seq<Flag>) {
    forall k | 0 <= k <= |flags| :: HasAdmin(FlaggedAll(people, tenant, flags[..k]), tenant)
  }

  ghost predicate GuardedThroughout(people: seq<Person>, tenant: string, flags: seq<Flag>) {
    forall k | 0 <= k < |flags| :: Spares(FlaggedAll(people, tenant, flags[..k]), tenant, flags[k].id, flags[k].active)
  }

  lemma {:induction false} ThroughoutSplits(people: seq<Person>, tenant: string, flags: seq<Flag>)
    requires flags != []
    ensures var n := |flags| - 1;
            AdminThroughout(people, tenant, flags)
            <==> AdminThroughout(people, tenant, flags[..n]) && HasAdmin(FlaggedAll(people, tenant, flags), tenant)
  {
    hide HasAdmin, FlaggedAll;
    var n := |flags| - 1;
    assert flags[..n + 1] == flags;
    assert forall k | 0 <= k <= n :: flags[..n][..k] == flags[..k];
    if AdminThroughout(people, tenant, flags[..n]) && HasAdmin(FlaggedAll(people, tenant, flags), tenant) {
      forall k | 0 <= k <= |flags| ensures HasAdmin(FlaggedAll(people, tenant, flags[..k]), tenant) {
        if k <= n { assert HasAdmin(FlaggedAll(people, tenant, flags[..n][..k]), tenant); }
      }
    }
  }

  lemma {:induction false} GuardsSplit(people: seq<Person>, tenant: string, flags: seq<Flag>)
    requires flags != []
    ensures var n := |flags| - 1;
            GuardedThroughout(people, tenant, flags)
            <==> GuardedThroughout(people, tenant, flags[..n])
                 && Spares(FlaggedAll(people, tenant, flags[..n]), tenant, flags[n].id, flags[n].active)
  {
    hide Spares, FlaggedAll;
    var n := |flags| - 1;
    assert forall k | 0 <= k <= n :: flags[..n][..k] == flags[..k];
    if GuardedThroughout(people, tenant, flags[..n])
        && Spares(FlaggedAll(people, tenant, flags[..n]), tenant, flags[n].id, flags[n].active) {
      forall k | 0 <= k < |flags|
          ensures Spares(FlaggedAll(people, tenant, flags[..k]), tenant, flags[k].id, flags[k].active) {
        if k < n {
          assert Spares(FlaggedAll(people, tenant, flags[..n][..k]), tenant, flags[..n][k].id, flags[..n][k].active);
        }
      }
    }
  }

  /** However the writes of racing handlers follow one another, the tenant has an active administrator after each
      exactly when each found its guard still true. */
  lemma {:induction false} AdminIsKeptIff(people: seq<Person>, tenant: string, flags: seq<Flag>)
    requires DistinctMembers(people, tenant) && HasAdmin(people, tenant)
    ensures AdminThroughout(people, tenant, flags) <==> GuardedThroughout(people, tenant, flags)
    ensures AdminThroughout(people, tenant, flags) ==> HasAdmin(FlaggedAll(people, tenant, flags), tenant)
    ensures AdminThroughout(people, tenant, flags) ==> DistinctMembers(FlaggedAll(people, tenant, flags), tenant)
  {
    if flags == [] {
      assert flags[..0] == [];
    } else {
      hide HasAdmin, DistinctMembers, Spares, Flagged, AdminThroughout, GuardedThroughout;
      var n := |flags| - 1;
      AdminIsKeptIff(people, tenant, flags[..n]);
      ThroughoutSplits(people, tenant, flags);
      GuardsSplit(people, tenant, flags);
      if AdminThroughout(people, tenant, flags[..n]) {
        AdminStaysIff(FlaggedAll(people, tenant, flags[..n]), tenant, flags[n].id, flags[n].active);
      }
    }
  }

  lemma {:induction false} OtherTenantsKeepAdmin(people: seq<Person>, tenant: string, id: string, i: int, active: bool,
      other: string)
    requires i == FirstPerson(people, tenant, id) >= 0 && HasAdmin(people, other) && other != tenant
    ensures HasAdmin(people[i := people[i].(active := active)], other)
  {
    var j :| 0 <= j < |people| && IsActiveAdmin(people[j], other);
    assert IsActiveAdmin(people[i := people[i].(active := active)][j], other);
  }

  /** Two administrators, each deactivating the other on what the handler had just counted: both guards
      pass, and nobody is left. */
  lemma {:induction false} ConcurrentDeactivations(a: Person, b: Person, tenant: string)
    requires IsActiveAdmin(a, tenant) && IsActiveAdmin(b, tenant) && a.membershipId != b.membershipId
    ensures AdminsBut([a, b], tenant, a.membershipId) > 0 && AdminsBut([a, b], tenant, b.membershipId) > 0
    ensures !HasAdmin([a.(active := false), b.(active := false)], tenant)
  {
    NoAdminBut([a, b], tenant, a.membershipId);
    NoAdminBut([a, b], tenant, b.membershipId);
    assert [a, b][0] == a && [a, b][1] == b;
  }

  class Service {
    const repo: Store

    constructor (repo: Store)
      ensures this.repo == repo
    {
      this.repo := repo;
    }

    /** Going has two refusals, coming back none. Every tenant that had an active administrator still has one. */
    method SetPersonActive(tenant: string, id: string, actor: string, active: bool) returns (r: Result<(), Error>)
      requires repo.Valid()
      modifies repo`people
      ensures repo.Valid()
      ensures forall t | HasAdmin(old(repo.people), t) :: HasAdmin(repo.people, t)
      ensures var people := old(repo.people);
              var i := FirstPerson(people, tenant, id);
              && r == (if i < 0 then Err(CrossTenant)
                       else if !active && people[i].userId == actor then Err(SelfDeactivation)
                       else if !active && people[i].isAdmin
                           && AdminsBut(people, tenant, id) == 0 then Err(LastAdministrator)
                       else Ok(()))
              && repo.people == if r.Ok? then people[i := people[i].(active := active)] else people
      ensures var people := old(repo.people);
              var i := FirstPerson(people, tenant, id);
              r == Err(LastAdministrator)
              <==> && i >= 0 && !active && people[i].userId != actor && people[i].isAdmin
                   && forall j | 0 <= j < |people| && people[j].tenant == tenant && people[j].active
                                 && people[j].isAdmin :: people[j].membershipId == id
    {
      hide Written;
      ghost var was := repo.people;
      NoAdminBut(was, tenant, id);
      if !active {
        var i := repo.FindPerson(tenant, id);
        if i < 0 { return Err(CrossTenant); }
        var person := repo.people[i];
        if person.userId == actor { return Err(SelfDeactivation); }
        var remaining := repo.CountAdmins(tenant, id);
        if person.isAdmin && remaining == 0 { return Err(LastAdministrator); }
      }
      var found := repo.SetActive(tenant, id, active);
      if !found { return Err(CrossTenant); }
      ghost var i := FirstPerson(was, tenant, id);
      forall t | HasAdmin(was, t) ensures HasAdmin(repo.people, t) {
        if t == tenant {
          AdminStays(was, tenant, id, i, active);
        } else {
          OtherTenantsKeepAdmin(was, tenant, id, i, active, t);
        }
      }
      return Ok(());
    }

    method CreateDepartment(tenant: string, edit: DepartmentEdit) returns (r: Result<string, Error>)
      requires repo.Valid()
      modifies repo`departments, repo`nextId
      ensures repo.Valid()
      ensures var code, name := Trim(edit.code), Trim(edit.name);
              && (r == Err(InvalidCode)
                 <==> name == "" || !(1 <= |code| <= 64) || exists k :: 0 <= k < |code| && !ValidCodeUnit(code[k]))
              && (r == Err(InvalidCode)
                 <==> name == "" || !(1 <= |code| <= 64)
                      || exists k :: 0 <= k < |code| && !('a' <= code[k] <= 'z' || '0' <= code[k] <= '9'
                                                          || code[k] in {'-', '_'}))
              && (r == Err(DuplicateCode) <==> r != Err(InvalidCode) && CodeTaken(old(repo.departments), tenant, code))
              && (r == Err(ForeignUnit) <==> r != Err(InvalidCode) && r != Err(DuplicateCode)
                                             && ForeignEdit(repo.people, old(repo.departments), tenant, edit))
              && (r.Ok? ==> r.value == Itoa(old(repo.nextId) + 1) && repo.nextId == old(repo.nextId) + 1)
              && (r.Ok? ==> repo.departments == old(repo.departments) + [Department(r.value, code, name,
                              OrBlank(TrimmedOrNone(edit.parentId)), OrBlank(TrimmedOrNone(edit.managerId)), true,
                                  tenant)])
              && (r.Err? ==> repo.departments == old(repo.departments) && repo.nextId == old(repo.nextId)
                             && (r.error.InvalidCode? || r.error.DuplicateCode? || r.error.ForeignUnit?))
    {
      var code, name := Trim(edit.code), Trim(edit.name);
      var valid := IsValidCode(code);
      if name == "" || !valid { return Err(InvalidCode); }
      r := repo.CreateDepartment(tenant, edit.(code := code, name := name));
    }

    /** With the walk before it the move never ties a knot, and whatever could have been moved is. */
    method UpdateDepartment(tenant: string, id: string, edit: DepartmentEdit) returns (r: Result<(), Error>)
      requires repo.Valid()
      modifies repo`departments
      ensures repo.Valid()
      ensures var ds, parent := old(repo.departments), OrBlank(TrimmedOrNone(edit.parentId));
              var i := FirstUnit(ds, tenant, id);
              && r == (if Trim(edit.name) == "" then Err(NameRequired)
                       else if parent != "" && parent == id then Err(SelfParent)
                       else if parent != "" && Below(Parents(ds, tenant), id, parent) then Err(Cycle)
                       else if i < 0 then Err(NotFound)
                       else if ForeignEdit(repo.people, ds, tenant, edit) then Err(ForeignUnit)
                       else Ok(()))
              && repo.departments == if r.Ok? then ds[i := Moved(ds[i], edit.(name := Trim(edit.name)))] else ds
    {
      hide Written;
      ghost var was := repo.departments;
      var name := Trim(edit.name);
      if name == "" { return Err(NameRequired); }
      var parent := TrimmedOrNone(edit.parentId);
      if parent.Some? {
        if parent.value == id { return Err(SelfParent); }
        var descendant := repo.IsDescendant(tenant, id, parent.value);
        if descendant { return Err(Cycle); }
      }
      var saved := repo.UpdateDepartment(tenant, id, edit.(name := name));
      if saved.Err? { return Err(saved.error); }
      if !saved.value { return Err(NotFound); }
      ghost var i := FirstUnit(was, tenant, id);
      GuardedMove(repo.people, was, i, Moved(was[i], edit.(name := name)), repo.nextId);
      return Ok(());
    }

    /** Coming back is refused exactly under an archived parent; going is not, and what is under it stays as it is. */
    method SetDepartmentArchived(tenant: string, id: string, archived: bool) returns (r: Result<(), Error>)
      requires repo.Valid()
      modifies repo`departments
      ensures repo.Valid()
      ensures var ds := old(repo.departments);
              var i := FirstUnit(ds, tenant, id);
              var p := if i < 0 || ds[i].parentId == "" then -1 else FirstUnit(ds, tenant, ds[i].parentId);
              && (i >= 0 && ds[i].parentId != "" ==> p >= 0)
              && r == (if !archived && p >= 0 && !ds[p].active then Err(ArchivedParent(ds[p].name))
                       else if i < 0 then Err(NotFound)
                       else Ok(()))
              && repo.departments == if r.Ok? then ds[i := ds[i].(active := !archived)] else ds
    {
      hide Written;
      ghost var was := repo.departments;
      ghost var i := FirstUnit(was, tenant, id);
      if i >= 0 { ParentIsThere(was, i, repo.nextId); }
      if !archived {
        var parentName, parentArchived := repo.Parent(tenant, id);
        if parentArchived { return Err(ArchivedParent(parentName)); }
      }
      var found := repo.SetDepartmentArchived(tenant, id, archived);
      if !found { return Err(NotFound); }
      ArchivedInPlace(repo.people, was, i, was[i].(active := !archived), repo.nextId);
      return Ok(());
    }

    /** A unit goes only when nobody works in it and nothing reports to it. */
    method DeleteDepartment(tenant: string, id: string) returns (r: Result<(), Error>)
      requires repo.Valid()
      modifies repo`departments
      ensures repo.Valid()
      ensures var i := FirstUnit(old(repo.departments), tenant, id);
              var persons, units := PeopleIn(repo.people, tenant, id), UnitsUnder(old(repo.departments), tenant, id);
              && (r == Err(NotEmpty(persons, units)) <==> persons > 0 || units > 0)
              && (r == Err(NotFound) <==> persons == 0 && units == 0 && i < 0)
              && (r.Ok? ==> i >= 0 && repo.departments == Without(old(repo.departments), i))
              && (r.Err? ==> repo.departments == old(repo.departments) && (r.error.NotEmpty? || r.error == NotFound))
    {
      hide Written, Without, FirstUnit, GoodUnits, PeopleFit, PeopleIn, UnitsUnder;
      ghost var was := repo.departments;
      var persons, units := repo.CountChildren(tenant, id);
      if persons > 0 || units > 0 { return Err(NotEmpty(persons, units)); }
      var found := repo.DeleteDepartment(tenant, id);
      if !found { return Err(NotFound); }
      NobodyIn(repo.people, tenant, id);
      NoUnitUnder(was, tenant, id);
      DeletedUnit(repo.people, was, FirstUnit(was, tenant, id), repo.nextId);
      return Ok(());
    }
  }

  lemma {:induction false} GuardedMove(people: seq<Person>, ds: seq<Department>, i: nat, d: Department, nextId: nat)
    requires GoodUnits(ds, nextId) && PeopleFit(people, ds) && i < |ds|
    requires d.id == ds[i].id && d.tenant == ds[i].tenant && d.code == ds[i].code
    requires (d.parentId == "" || HasUnit(ds, d.tenant, d.parentId)) && MayReportTo(ds, d)
    ensures GoodUnits(ds[i := d], nextId) && PeopleFit(people, ds[i := d])
  {
    UpdateIsGoodIff(ds, i, d, nextId);
    forall k | 0 <= k < |people|
        ensures HasUnit(ds[i := d], people[k].tenant, people[k].departmentId)
        <==> HasUnit(ds, people[k].tenant, people[k].departmentId) {
      ReplacedUnit(ds, i, d, people[k].tenant);
    }
    hide HasUnit, GoodUnits;
  }

  lemma {:induction false} ParentIsThere(ds: seq<Department>, i: nat, nextId: nat)
    requires GoodUnits(ds, nextId) && i < |ds|
    ensures ds[i].parentId == "" || HasUnit(ds, ds[i].tenant, ds[i].parentId)
  {
    assert ForestIn(ds, ds[i].tenant);
    FoundAt(ds, i);
    InParents(ds, ds[i].tenant, ds[i].id);
    InParents(ds, ds[i].tenant, ds[i].parentId);
    hide Parents, FirstUnit;
  }

  /** Archiving moves nothing. */
  lemma {:induction false} ArchivedInPlace(people: seq<Person>, ds: seq<Department>, i: nat, d: Department, nextId: nat)
    requires GoodUnits(ds, nextId) && PeopleFit(people, ds) && i < |ds| && d == ds[i].(active := d.active)
    ensures GoodUnits(ds[i := d], nextId) && PeopleFit(people, ds[i := d])
  {
    ParentIsThere(ds, i, nextId);
    SamePlace(ds, i, nextId);
    GuardedMove(people, ds, i, d, nextId);
  }

  /** Where a unit is, it may report: the forest says so. */
  lemma {:induction false} SamePlace(ds: seq<Department>, i: nat, nextId: nat)
    requires GoodUnits(ds, nextId) && i < |ds|
    ensures MayReportTo(ds, ds[i])
  {
    ParentIsThere(ds, i, nextId);
    UpdateIsGoodIff(ds, i, ds[i], nextId);
    assert ds[i := ds[i]] == ds;
  }

  lemma {:induction false} DeletedUnit(people: seq<Person>, ds: seq<Department>, i: nat, nextId: nat)
    requires GoodUnits(ds, nextId) && PeopleFit(people, ds) && i < |ds|
    requires forall j | 0 <= j < |ds| && ds[j].tenant == ds[i].tenant :: ds[j].parentId != ds[i].id
    requires forall j | 0 <= j < |people| && people[j].tenant == ds[i].tenant :: people[j].departmentId != ds[i].id
    ensures GoodUnits(Without(ds, i), nextId) && PeopleFit(people, Without(ds, i))
  {
    DeleteIsGood(ds, i, nextId);
    forall k | 0 <= k < |people| && people[k].departmentId != ""
        ensures HasUnit(Without(ds, i), people[k].tenant, people[k].departmentId) {
      RemovedLookup(ds, i, people[k].tenant, people[k].departmentId);
    }
    hide HasUnit, GoodUnits, Without;
  }
}
