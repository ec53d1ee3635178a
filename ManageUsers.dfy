/**
 * The admin user list: the search-and-role filter, the route-driven modal
 * (`/admin/users/add`, `/admin/users/<id>/edit`, ...), and the list updates
 * handed to `setUsers` by the add, edit, delete, change-role and
 * toggle-status handlers.  Every update builds a new list from the old one.
 */
module ManageUsers {
  import opened Wrappers
  import opened Strings

  datatype User = User(
    id: int, name: string, email: string, role: string, status: string,
    joinDate: string, orders: int, spent: real, phone: string, address: string)

  /** The fields the add-user form supplies; id, join date and counters are filled in by the handler. */
  datatype NewUserForm = NewUserForm(
    name: string, email: string, role: string, status: string, phone: string, address: string)

  // ---------------------------------------------------------------------------
  // Search

  /** Name or email contains the search term, ignoring ASCII case, and the role filter admits the role. */
  predicate Matches(u: User, searchTerm: string, filterRole: string) {
    && (Contains(Lower(u.name), Lower(searchTerm)) || Contains(Lower(u.email), Lower(searchTerm)))
    && (filterRole == "all" || u.role == filterRole)
  }

  /** `filteredUsers`. */
  function FilteredUsers(users: seq<User>, searchTerm: string, filterRole: string): (r: seq<User>)
    ensures |r| <= |users|
  {
    if users == [] then []
    else (if Matches(users[0], searchTerm, filterRole) then [users[0]] else [])
         + FilteredUsers(users[1..], searchTerm, filterRole)
  }

  /** `a` is `b` with some elements left out, the rest in their original order. */
  predicate IsSubsequence<T(==)>(a: seq<T>, b: seq<T>)
    decreases |b|
  {
    if a == [] then true
    else if b == [] then false
    else (a[0] == b[0] && IsSubsequence(a[1..], b[1..])) || IsSubsequence(a, b[1..])
  }

  /** The filter keeps exactly the matching users, in their original order. */
  lemma {:induction false} FilteredUsersCorrect(users: seq<User>, searchTerm: string, filterRole: string)
    ensures var r := FilteredUsers(users, searchTerm, filterRole);
      && IsSubsequence(r, users)
      && (forall u :: u in r <==> u in users && Matches(u, searchTerm, filterRole))
      && (forall u :: multiset(r)[u] == if Matches(u, searchTerm, filterRole) then multiset(users)[u] else 0)
  {
    FilteredUsersMultiplicity(users, searchTerm, filterRole);
    if users != [] {
      FilteredUsersCorrect(users[1..], searchTerm, filterRole);
      assert users == [users[0]] + users[1..];
      var r, rest := FilteredUsers(users, searchTerm, filterRole), FilteredUsers(users[1..], searchTerm, filterRole);
      if Matches(users[0], searchTerm, filterRole) {
        assert r == [users[0]] + rest;
        assert r[0] == users[0] && r[1..] == rest;
      } else {
        assert r == rest;
      }
    }
  }

  /** Each matching user is kept as many times as the list holds it. */
  lemma {:induction false} FilteredUsersMultiplicity(users: seq<User>, searchTerm: string, filterRole: string)
    ensures forall u ::
      multiset(FilteredUsers(users, searchTerm, filterRole))[u] == if Matches(u, searchTerm, filterRole) then multiset(users)[u] else 0
  {
    if users != [] {
      FilteredUsersMultiplicity(users[1..], searchTerm, filterRole);
      assert users == [users[0]] + users[1..];
    }
  }

  /** An empty search with the role filter at "all" shows every user. */
  lemma {:induction false} EmptySearchShowsAll(users: seq<User>)
    ensures FilteredUsers(users, "", "all") == users
  {
    if users != [] {
      assert StartsWith(Lower(users[0].name), Lower(""));
      EmptySearchShowsAll(users[1..]);
    }
  }

  // ---------------------------------------------------------------------------
  // Routes and modals

  datatype ModalKind = AddModal | EditModal | ViewModal | DeleteModal | ChangeRoleModal | NoModal

  const BasePath: string := "/admin/users"

  /** The path `navigateToModal(type, id)` navigates to; `NoModal` stands for every other type. */
  function ModalPath(kind: ModalKind, id: nat): string {
    match kind
    case AddModal => BasePath + "/add"
    case EditModal => BasePath + "/" + NatToString(id) + "/edit"
    case ViewModal => BasePath + "/" + NatToString(id) + "/view"
    case DeleteModal => BasePath + "/" + NatToString(id) + "/delete"
    case ChangeRoleModal => BasePath + "/" + NatToString(id) + "/change-role"
    case NoModal => BasePath
  }

  /** The route's `:id` parameter after `parseInt` is truthy: present, a number, not 0. */
  predicate IdIsTruthy(idParam: Option<int>) {
    idParam.Some? && idParam.value != 0
  }

  /** The modal type `getCurrentModal` derives from the path and the route parameter. */
  function ClassifyPath(path: string, idParam: Option<int>): (k: ModalKind)
    ensures k == AddModal <==> path == "/admin/users/add"
    ensures k !in {AddModal, NoModal} ==> IdIsTruthy(idParam)
    // each suffix in the order the chain tests them
    ensures k == EditModal <==> path != "/admin/users/add" && Contains(path, "/edit") && IdIsTruthy(idParam)
    ensures k == ViewModal <==>
      path != "/admin/users/add" && !(Contains(path, "/edit") && IdIsTruthy(idParam))
      && Contains(path, "/view") && IdIsTruthy(idParam)
    ensures k == DeleteModal <==>
      path != "/admin/users/add" && IdIsTruthy(idParam) && !Contains(path, "/edit") && !Contains(path, "/view")
      && Contains(path, "/delete")
    ensures k == ChangeRoleModal <==>
      path != "/admin/users/add" && IdIsTruthy(idParam) && !Contains(path, "/edit") && !Contains(path, "/view")
      && !Contains(path, "/delete") && Contains(path, "/change-role")
    ensures k == NoModal <==>
      path != "/admin/users/add"
      && (!IdIsTruthy(idParam)
          || (!Contains(path, "/edit") && !Contains(path, "/view") && !Contains(path, "/delete") && !Contains(path, "/change-role")))
  {
    if path == "/admin/users/add" then AddModal
    else if Contains(path, "/edit") && IdIsTruthy(idParam) then EditModal
    else if Contains(path, "/view") && IdIsTruthy(idParam) then ViewModal
    else if Contains(path, "/delete") && IdIsTruthy(idParam) then DeleteModal
    else if Contains(path, "/change-role") && IdIsTruthy(idParam) then ChangeRoleModal
    else NoModal
  }

  /** The position of the first user with this id. */
  function FirstWithId(users: seq<User>, id: int): (r: Option<nat>)
    ensures r.Some? ==> r.value < |users| && users[r.value].id == id && forall j :: 0 <= j < r.value ==> users[j].id != id
    ensures r.None? ==> forall j :: 0 <= j < |users| ==> users[j].id != id
  {
    if users == [] then None
    else if users[0].id == id then Some(0)
    else match FirstWithId(users[1..], id)
      case None => None
      case Some(k) => Some(k + 1)
  }

  /** `users.find(u => u.id === id)`: the first user with this id, if there is one. */
  function FindUser(users: seq<User>, id: int): (r: Option<User>)
    ensures r.Some? ==> r.value in users && r.value.id == id
    ensures r.None? <==> forall u :: u in users ==> u.id != id
    ensures FirstWithId(users, id).Some? ==> r == Some(users[FirstWithId(users, id).value])
  {
    match FirstWithId(users, id)
    case None => None
    case Some(k) => Some(users[k])
  }

  datatype Modal = Modal(kind: ModalKind, user: Option<User>)

  /** `getCurrentModal`: the modal type, and for the four id routes the user with that id, if any. */
  function CurrentModal(path: string, idParam: Option<int>, users: seq<User>): (m: Modal)
    ensures m.kind == ClassifyPath(path, idParam)
    ensures m.kind in {AddModal, NoModal} ==> m.user.None?
    ensures m.user.Some? ==> m.user.value in users && m.user.value.id == idParam.value
    ensures m.kind !in {AddModal, NoModal} ==> m.user == FindUser(users, idParam.value)
  {
    var kind := ClassifyPath(path, idParam);
    if kind == AddModal || kind == NoModal then Modal(kind, None)
    else Modal(kind, FindUser(users, idParam.value))
  }

  /** No `x` in `s` is immediately followed by `y`. */
  predicate NoPair(s: string, x: char, y: char) {
    forall k :: 0 <= k < |s| - 1 ==> !(s[k] == x && s[k + 1] == y)
  }

  lemma NoPairConcat(a: string, b: string, x: char, y: char)
    requires NoPair(a, x, y) && NoPair(b, x, y)
    requires a != [] && b != [] ==> !(a[|a| - 1] == x && b[0] == y)
    ensures NoPair(a + b, x, y)
  {
    var s := a + b;
    forall k | 0 <= k < |s| - 1 ensures !(s[k] == x && s[k + 1] == y) {
      if k < |a| - 1 {
        assert s[k] == a[k] && s[k + 1] == a[k + 1];
      } else if k >= |a| {
        assert s[k] == b[k - |a|] && s[k + 1] == b[k + 1 - |a|];
      }
    }
  }

  lemma DigitsNoPair(d: string, x: char, y: char)
    requires AllDigits(d) && !IsDigit(x)
    ensures NoPair(d, x, y)
  {
  }

  /** In `/admin/users/<id><suffix>`, a '/' is never followed by `y` when neither the base nor the suffix has that pair. */
  lemma IdPathNoPair(id: nat, suffix: string, y: char)
    requires !IsDigit(y) && y != 'a' && y != 'u'
    requires suffix != [] && suffix[0] == '/' && NoPair(suffix, '/', y)
    ensures NoPair(BasePath + "/" + NatToString(id) + suffix, '/', y)
  {
    var base := BasePath + "/";
    assert base == ['/', 'a', 'd', 'm', 'i', 'n', '/', 'u', 's', 'e', 'r', 's', '/'];
    assert NoPair(base, '/', y);
    var d := NatToString(id);
    DigitsNoPair(d, '/', y);
    NoPairConcat(base, d, '/', y);
    NoPairConcat(base + d, suffix, '/', y);
  }

  lemma ContainsSuffix(prefix: string, p: string)
    ensures Contains(prefix + p, p)
  {
    ContainsIffOccurs(prefix + p, p);
    assert OccursAt(prefix + p, p, |prefix|);
  }

  /** Every id route is at least 19 characters long, so none is the add route. */
  lemma IdPathLength(id: nat, suffix: string)
    requires |suffix| >= 5
    ensures |BasePath + "/" + NatToString(id) + suffix| >= 19
  {
  }

  lemma EditRouteClassified(id: nat)
    requires id > 0
    ensures ClassifyPath(ModalPath(EditModal, id), Some(id)) == EditModal
  {
    IdPathLength(id, "/edit");
    ContainsSuffix(BasePath + "/" + NatToString(id), "/edit");
  }

  lemma ViewRouteClassified(id: nat)
    requires id > 0
    ensures ClassifyPath(ModalPath(ViewModal, id), Some(id)) == ViewModal
  {
    var path := ModalPath(ViewModal, id);
    IdPathLength(id, "/view");
    IdPathNoPair(id, "/view", 'e');
    NoPairNoContains(path, "/edit");
    ContainsSuffix(BasePath + "/" + NatToString(id), "/view");
  }

  lemma DeleteRouteClassified(id: nat)
    requires id > 0
    ensures ClassifyPath(ModalPath(DeleteModal, id), Some(id)) == DeleteModal
  {
    var path := ModalPath(DeleteModal, id);
    IdPathLength(id, "/delete");
    IdPathNoPair(id, "/delete", 'e');
    IdPathNoPair(id, "/delete", 'v');
    NoPairNoContains(path, "/edit");
    NoPairNoContains(path, "/view");
    ContainsSuffix(BasePath + "/" + NatToString(id), "/delete");
  }

  lemma ChangeRoleRouteClassified(id: nat)
    requires id > 0
    ensures ClassifyPath(ModalPath(ChangeRoleModal, id), Some(id)) == ChangeRoleModal
  {
    var path := ModalPath(ChangeRoleModal, id);
    IdPathLength(id, "/change-role");
    IdPathNoPair(id, "/change-role", 'e');
    IdPathNoPair(id, "/change-role", 'v');
    IdPathNoPair(id, "/change-role", 'd');
    NoPairNoContains(path, "/edit");
    NoPairNoContains(path, "/view");
    NoPairNoContains(path, "/delete");
    ContainsSuffix(BasePath + "/" + NatToString(id), "/change-role");
  }

  /** In the base path a '/' is followed only by 'a' or 'u'. */
  lemma BasePathSlashes()
    ensures forall k :: 0 <= k < |BasePath| - 1 && BasePath[k] == '/' ==> BasePath[k + 1] in "au"
  {
    assert BasePath == ['/', 'a', 'd', 'm', 'i', 'n', '/', 'u', 's', 'e', 'r', 's'];
  }

  /** A path in which '/' is never followed by e, v, d or c names no modal, except the add route. */
  lemma NoModalWithoutSuffix(path: string, idParam: Option<int>)
    requires path != "/admin/users/add"
    requires NoPair(path, '/', 'e') && NoPair(path, '/', 'v') && NoPair(path, '/', 'd') && NoPair(path, '/', 'c')
    ensures ClassifyPath(path, idParam) == NoModal
  {
    NoPairNoContains(path, "/edit");
    NoPairNoContains(path, "/view");
    NoPairNoContains(path, "/delete");
    NoPairNoContains(path, "/change-role");
  }

  lemma ListRouteClassified(idParam: Option<int>)
    ensures ClassifyPath(BasePath, idParam) == NoModal
  {
    assert |BasePath| == 12;
    BasePathSlashes();
    assert NoPair(BasePath, '/', 'e') && NoPair(BasePath, '/', 'v') && NoPair(BasePath, '/', 'd') && NoPair(BasePath, '/', 'c');
    NoModalWithoutSuffix(BasePath, idParam);
  }

  /** The add route opens the add modal whatever the id parameter. */
  lemma AddRouteClassified(id: nat, idParam: Option<int>)
    ensures ClassifyPath(ModalPath(AddModal, id), idParam) == AddModal
  {
    assert ModalPath(AddModal, id) == "/admin/users/add";
  }

  /**
   * Navigating to a modal and classifying the route it lands on gives the same modal back:
   * the add route with or without an id, and each id route for every positive id.
   */
  lemma ModalRouteRoundTrip(kind: ModalKind, id: nat)
    requires id > 0
    ensures ClassifyPath(ModalPath(kind, id), Some(id)) == kind
    ensures ClassifyPath(ModalPath(AddModal, id), None) == AddModal
  {
    AddRouteClassified(id, None);
    match kind {
      case AddModal => AddRouteClassified(id, Some(id));
      case EditModal => EditRouteClassified(id);
      case ViewModal => ViewRouteClassified(id);
      case DeleteModal => DeleteRouteClassified(id);
      case ChangeRoleModal => ChangeRoleRouteClassified(id);
      case NoModal => ListRouteClassified(Some(id));
    }
  }

  // ---------------------------------------------------------------------------
  // List updates

  /** `Math.max(...ids)` of a non-empty list. */
  function MaxId(users: seq<User>): (m: int)
    requires users != []
    ensures forall u :: u in users ==> u.id <= m
    ensures exists u :: u in users && u.id == m
  {
    if |users| == 1 then users[0].id
    else
      var rest := MaxId(users[1..]);
      assert users == [users[0]] + users[1..];
      if users[0].id >= rest then users[0].id else rest
  }

  /** No two users share an id. */
  predicate UniqueIds(users: seq<User>) {
    forall i, j :: 0 <= i < j < |users| ==> users[i].id != users[j].id
  }

  /**
   * `handleAddUser`: the form's fields with id max+1, today's join date and zero orders and
   * spending, appended at the end.  On an empty list `Math.max()` is -Infinity, which is no
   * integer id; that case is `None`.
   */
  function AddUser(users: seq<User>, form: NewUserForm, today: string): (r: Option<seq<User>>)
    ensures r.None? <==> users == []
    ensures r.Some? ==> |r.value| == |users| + 1 && r.value[..|users|] == users
    ensures r.Some? ==>
      var u := r.value[|users|];
      && u.id == MaxId(users) + 1
      && (forall v :: v in users ==> v.id < u.id)
      && u.name == form.name && u.email == form.email && u.role == form.role && u.status == form.status
      && u.phone == form.phone && u.address == form.address
      && u.joinDate == today && u.orders == 0 && u.spent == 0.0
  {
    if users == [] then None
    else
      var u := User(MaxId(users) + 1, form.name, form.email, form.role, form.status, today, 0, 0.0, form.phone, form.address);
      assert (users + [u])[..|users|] == users;
      Some(users + [u])
  }

  /** Adding a user to a non-empty list with unique ids keeps the ids unique. */
  lemma AddUserKeepsIdsUnique(users: seq<User>, form: NewUserForm, today: string)
    requires users != [] && UniqueIds(users)
    ensures UniqueIds(AddUser(users, form, today).value)
  {
    var r := AddUser(users, form, today).value;
    forall i, j | 0 <= i < j < |r| ensures r[i].id != r[j].id {
      if j < |users| {
        assert r[i] == users[i] && r[j] == users[j];
      } else {
        assert r[i] == users[i];
        assert r[i] in users;
      }
    }
  }

  /** `handleEditUser`: every user with the selected id is replaced by the form, wholesale. */
  function EditUser(users: seq<User>, selectedId: int, form: User): (r: seq<User>)
    ensures |r| == |users|
    ensures forall k :: 0 <= k < |users| ==> r[k] == if users[k].id == selectedId then form else users[k]
  {
    seq(|users|, k requires 0 <= k < |users| => if users[k].id == selectedId then form else users[k])
  }

  /** `handleDeleteUser`: the list without the users that have the selected id. */
  function DeleteUser(users: seq<User>, selectedId: int): (r: seq<User>)
    ensures |r| <= |users|
  {
    if users == [] then []
    else (if users[0].id != selectedId then [users[0]] else []) + DeleteUser(users[1..], selectedId)
  }

  /** How many users carry `id`. */
  function CountId(users: seq<User>, id: int): nat {
    if users == [] then 0 else (if users[0].id == id then 1 else 0) + CountId(users[1..], id)
  }

  /** Deleting removes exactly the users with the selected id and keeps the others in order. */
  lemma {:induction false} DeleteUserCorrect(users: seq<User>, selectedId: int)
    ensures var r := DeleteUser(users, selectedId);
      && IsSubsequence(r, users)
      && (forall u :: u in r <==> u in users && u.id != selectedId)
      && |r| == |users| - CountId(users, selectedId)
  {
    if users != [] {
      DeleteUserCorrect(users[1..], selectedId);
      assert users == [users[0]] + users[1..];
      var r, rest := DeleteUser(users, selectedId), DeleteUser(users[1..], selectedId);
      if users[0].id != selectedId {
        assert r == [users[0]] + rest;
        assert r[0] == users[0] && r[1..] == rest;
      } else {
        assert r == rest;
      }
    }
  }

  /** `handleChangeRole`: only the role of the selected user changes. */
  function ChangeRole(users: seq<User>, selectedId: int, newRole: string): (r: seq<User>)
    ensures |r| == |users|
    ensures forall k :: 0 <= k < |users| ==>
      r[k] == if users[k].id == selectedId then users[k].(role := newRole) else users[k]
  {
    seq(|users|, k requires 0 <= k < |users| => if users[k].id == selectedId then users[k].(role := newRole) else users[k])
  }

  /** The status a toggle moves to: "active" becomes "inactive", anything else "active". */
  function NextStatus(status: string): (s: string)
    ensures s == "active" || s == "inactive"
    ensures s == "inactive" <==> status == "active"
  {
    if status == "active" then "inactive" else "active"
  }

  /** `handleToggleStatus`: only the status of the users with the clicked user's id changes. */
  function ToggleStatus(users: seq<User>, clicked: User): (r: seq<User>)
    ensures |r| == |users|
    ensures forall k :: 0 <= k < |users| ==>
      r[k] == if users[k].id == clicked.id then users[k].(status := NextStatus(users[k].status)) else users[k]
  {
    seq(|users|, k requires 0 <= k < |users| =>
      if users[k].id == clicked.id then users[k].(status := NextStatus(users[k].status)) else users[k])
  }

  /** Toggling twice restores the status when it was "active" or "inactive". */
  lemma ToggleTwice(users: seq<User>, clicked: User)
    requires forall u :: u in users ==> u.status == "active" || u.status == "inactive"
    ensures ToggleStatus(ToggleStatus(users, clicked), clicked) == users
  {
    var once := ToggleStatus(users, clicked);
    var twice := ToggleStatus(once, clicked);
    forall k | 0 <= k < |users| ensures twice[k] == users[k] {
      assert users[k] in users;
    }
  }
}
