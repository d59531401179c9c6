/** The administrator's user table (`/app/users`): each row carries a role
    picker and a save button, and a row whose role was changed but not yet
    saved is marked dirty. */
module Users {
  import opened Wrappers
  import opened Seqs
  import Search
  import Api

  /** A user as the server lists it. */
  datatype ServerUser = ServerUser(id: nat, username: string, fullName: string, role: string)

  /** A row of the table: the server's user plus the client-side dirty flag. */
  datatype UserRow = UserRow(id: nat, username: string, fullName: string, role: string, isDirty: bool)

  /** A freshly loaded row has no `isDirty` field, which reads as false. */
  function FromServer(users: seq<ServerUser>): (r: seq<UserRow>)
    ensures |r| == |users|
    ensures forall i :: 0 <= i < |r| ==>
              !r[i].isDirty && r[i].id == users[i].id && r[i].role == users[i].role &&
              r[i].username == users[i].username && r[i].fullName == users[i].fullName
  {
    seq(|users|, i requires 0 <= i < |users| =>
      UserRow(users[i].id, users[i].username, users[i].fullName, users[i].role, false))
  }

  /** The ids of the rows with unsaved changes. */
  function DirtyIds(users: seq<UserRow>): set<nat>
  {
    set i | 0 <= i < |users| && users[i].isDirty :: users[i].id
  }

  function Ids(users: seq<UserRow>): set<nat>
  {
    set i | 0 <= i < |users| :: users[i].id
  }

  /** `handleRoleChange`: the rows with that id take the picked role and
      become dirty; every other row is kept as it was. */
  function RoleChanged(users: seq<UserRow>, id: nat, newRole: string): (r: seq<UserRow>)
    ensures |r| == |users|
    ensures forall i :: 0 <= i < |r| && users[i].id == id ==> r[i] == users[i].(role := newRole, isDirty := true)
    ensures forall i :: 0 <= i < |r| && users[i].id != id ==> r[i] == users[i]
  {
    seq(|users|, i requires 0 <= i < |users| =>
      if users[i].id == id then users[i].(role := newRole, isDirty := true) else users[i])
  }

  /** The update after a successful save: the rows with that id are no
      longer dirty and keep their role; every other row is kept as it was. */
  function MarkedClean(users: seq<UserRow>, id: nat): (r: seq<UserRow>)
    ensures |r| == |users|
    ensures forall i :: 0 <= i < |r| && users[i].id == id ==> r[i] == users[i].(isDirty := false)
    ensures forall i :: 0 <= i < |r| && users[i].id != id ==> r[i] == users[i]
  {
    seq(|users|, i requires 0 <= i < |users| =>
      if users[i].id == id then users[i].(isDirty := false) else users[i])
  }

  /** A role change adds exactly that user (when listed) to the dirty ones. */
  lemma RoleChangeMarksDirty(users: seq<UserRow>, id: nat, newRole: string)
    ensures DirtyIds(RoleChanged(users, id, newRole)) == DirtyIds(users) + (if id in Ids(users) then {id} else {})
    ensures Ids(RoleChanged(users, id, newRole)) == Ids(users)
  {
    var r := RoleChanged(users, id, newRole);
    forall x | x in DirtyIds(r) ensures x in DirtyIds(users) + (if id in Ids(users) then {id} else {}) {
      var i :| 0 <= i < |r| && r[i].isDirty && r[i].id == x;
      assert users[i].id == x;
    }
    forall x | x in DirtyIds(users) + (if id in Ids(users) then {id} else {}) ensures x in DirtyIds(r) {
      if x in DirtyIds(users) {
        var i :| 0 <= i < |users| && users[i].isDirty && users[i].id == x;
        assert r[i].isDirty && r[i].id == x;
      } else {
        var i :| 0 <= i < |users| && users[i].id == id;
        assert r[i].isDirty && r[i].id == x;
      }
    }
    forall x | x in Ids(r) ensures x in Ids(users) {
      var i :| 0 <= i < |r| && r[i].id == x;
      assert users[i].id == x;
    }
    forall x | x in Ids(users) ensures x in Ids(r) {
      var i :| 0 <= i < |users| && users[i].id == x;
      assert r[i].id == x;
    }
  }

  /** A successful save removes exactly that user from the dirty ones. */
  lemma SaveMarksClean(users: seq<UserRow>, id: nat)
    ensures DirtyIds(MarkedClean(users, id)) == DirtyIds(users) - {id}
    ensures Ids(MarkedClean(users, id)) == Ids(users)
  {
    var r := MarkedClean(users, id);
    forall x | x in DirtyIds(r) ensures x in DirtyIds(users) - {id} {
      var i :| 0 <= i < |r| && r[i].isDirty && r[i].id == x;
      assert users[i].id == x;
    }
    forall x | x in DirtyIds(users) - {id} ensures x in DirtyIds(r) {
      var i :| 0 <= i < |users| && users[i].isDirty && users[i].id == x;
      assert r[i].isDirty && r[i].id == x;
    }
    forall x | x in Ids(r) ensures x in Ids(users) {
      var i :| 0 <= i < |r| && r[i].id == x;
      assert users[i].id == x;
    }
    forall x | x in Ids(users) ensures x in Ids(r) {
      var i :| 0 <= i < |users| && users[i].id == x;
      assert r[i].id == x;
    }
  }

  /** Changing a role and saving it leaves that user with the new role and
      nothing unsaved; the other rows are as they were. */
  lemma ChangeThenSave(users: seq<UserRow>, id: nat, newRole: string)
    ensures var r := MarkedClean(RoleChanged(users, id, newRole), id);
            |r| == |users| &&
            (forall i :: 0 <= i < |r| && users[i].id == id ==> r[i] == users[i].(role := newRole, isDirty := false)) &&
            (forall i :: 0 <= i < |r| && users[i].id != id ==> r[i] == users[i])
  {
  }

  /** The save button: disabled when nothing is unsaved or while this
      user's save is out. */
  predicate SaveDisabled(u: UserRow, savingId: Option<nat>)
  {
    !u.isDirty || savingId == Some(u.id)
  }

  /** The save button follows the dirty flag: a role change enables it on
      that user's rows unless that user's save is out, a successful save
      disables it again, and the other rows' buttons do not move. */
  lemma SaveButtonFollowsEdits(users: seq<UserRow>, id: nat, newRole: string, savingId: Option<nat>, i: int)
    requires 0 <= i < |users|
    ensures users[i].id == id ==>
              (SaveDisabled(RoleChanged(users, id, newRole)[i], savingId) <==> savingId == Some(id))
    ensures users[i].id == id ==> SaveDisabled(MarkedClean(users, id)[i], savingId)
    ensures users[i].id != id ==>
              SaveDisabled(RoleChanged(users, id, newRole)[i], savingId) == SaveDisabled(users[i], savingId) &&
              SaveDisabled(MarkedClean(users, id)[i], savingId) == SaveDisabled(users[i], savingId)
  {
  }

  /** The save button's caption. */
  function SaveLabel(u: UserRow): (r: string)
    ensures r == "SIMPAN" <==> u.isDirty
    ensures r == "TERSIMPAN" <==> !u.isDirty
  {
    if u.isDirty then "SIMPAN" else "TERSIMPAN"
  }

  /** The roles offered by a row's role picker. */
  const RoleOptions: seq<string> := ["admin", "cashier", "driver", "customer"]

  const AdminBadge: string := "bg-red-100 text-red-700 dark:bg-red-950/30 dark:text-red-500"
  const CashierBadge: string := "bg-blue-100 text-blue-700 dark:bg-blue-950/30 dark:text-blue-500"
  const DriverBadge: string := "bg-orange-100 text-orange-700 dark:bg-orange-950/30 dark:text-orange-500"
  const DefaultBadge: string := "bg-slate-100 text-slate-700 dark:bg-slate-800/50 dark:text-slate-400"

  /** `getRoleBadgeColor`: admin, cashier and driver each have a colour of
      their own, any other role gets the neutral one. */
  function RoleBadge(role: string): (r: string)
    ensures r != DefaultBadge <==> role == "admin" || role == "cashier" || role == "driver"
  {
    match role
    case "admin" => AdminBadge
    case "cashier" => CashierBadge
    case "driver" => DriverBadge
    case _ => DefaultBadge
  }

  /** The three staff roles have pairwise different colours; 'customer',
      the last option of the picker, shows the neutral one. */
  lemma BadgesTellStaffApart()
    ensures RoleBadge("admin") != RoleBadge("cashier")
    ensures RoleBadge("admin") != RoleBadge("driver")
    ensures RoleBadge("cashier") != RoleBadge("driver")
    ensures RoleBadge(RoleOptions[3]) == DefaultBadge
  {
  }

  function UserMatches(term: string): UserRow -> bool
  {
    (u: UserRow) => Search.TextMatches(u.username, term) || Search.TextMatches(u.fullName, term)
  }

  /** `filteredUsers`: the rows whose username or full name contains the
      term, ignoring case, in table order. */
  function FilterUsers(users: seq<UserRow>, term: string): (r: seq<UserRow>)
    ensures forall i :: 0 <= i < |r| ==>
              r[i] in users && (Search.TextMatches(r[i].username, term) || Search.TextMatches(r[i].fullName, term))
    ensures forall i | 0 <= i < |users| ::
              Search.TextMatches(users[i].username, term) || Search.TextMatches(users[i].fullName, term) ==> users[i] in r
  {
    Filter(users, UserMatches(term))
  }

  class UserAdminPage {
    var users: seq<UserRow>
    var loading: bool
    var searchTerm: string
    var savingId: Option<nat>
    var sent: seq<Api.Request>

    constructor ()
      ensures users == [] && loading && searchTerm == "" && savingId == None && sent == []
    {
      users := [];
      loading := true;
      searchTerm := "";
      savingId := None;
      sent := [];
    }

    /** `fetchUsers` on mount: a failure keeps the (empty) table. */
    method Load(outcome: Outcome<seq<ServerUser>>)
      modifies this
      ensures users == if outcome.Success? then FromServer(outcome.data) else old(users)
      ensures outcome.Success? ==> DirtyIds(users) == {}
      ensures !loading && savingId == old(savingId) && sent == old(sent) && searchTerm == old(searchTerm)
    {
      if outcome.Success? {
        users := FromServer(outcome.data);
      }
      loading := false;
    }

    method SetSearch(term: string)
      modifies this
      ensures searchTerm == term
      ensures users == old(users) && savingId == old(savingId) && sent == old(sent) && loading == old(loading)
    {
      searchTerm := term;
    }

    /** A pick in a row's role selector. */
    method ChangeRole(id: nat, newRole: string)
      modifies this
      ensures users == RoleChanged(old(users), id, newRole)
      ensures DirtyIds(users) == DirtyIds(old(users)) + (if id in Ids(old(users)) then {id} else {})
      ensures savingId == old(savingId) && sent == old(sent) && searchTerm == old(searchTerm) && loading == old(loading)
    {
      RoleChangeMarksDirty(users, id, newRole);
      users := RoleChanged(users, id, newRole);
    }

    /** A click on a row's save button: ignored while the button is
      disabled; otherwise the row's id becomes the saving one and its role
      goes to the server. */
    method StartSave(u: UserRow) returns (started: bool)
      modifies this
      ensures started <==> !SaveDisabled(u, old(savingId))
      ensures started ==> savingId == Some(u.id) && sent == old(sent) + [Api.UpdateUserRole(u.id, u.role)]
      ensures !started ==> savingId == old(savingId) && sent == old(sent)
      ensures users == old(users) && searchTerm == old(searchTerm) && loading == old(loading)
    {
      if SaveDisabled(u, savingId) {
        return false;
      }
      savingId := Some(u.id);
      sent := sent + [Api.UpdateUserRole(u.id, u.role)];
      return true;
    }

    /** The answer to the save of user `id`: a success clears that user's
        dirty flag, a failure keeps the table; the saving id is cleared
        either way. */
    method FinishSave(id: nat, outcome: Outcome<()>)
      modifies this
      ensures users == if outcome.Success? then MarkedClean(old(users), id) else old(users)
      ensures DirtyIds(users) == if outcome.Success? then DirtyIds(old(users)) - {id} else DirtyIds(old(users))
      ensures savingId == None
      ensures sent == old(sent) && searchTerm == old(searchTerm) && loading == old(loading)
    {
      if outcome.Success? {
        SaveMarksClean(users, id);
        users := MarkedClean(users, id);
      }
      savingId := None;
    }
  }
}
