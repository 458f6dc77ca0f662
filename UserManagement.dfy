/**
 * The administrators' user table: counting administrators, the rule that the
 * last administrator can be neither demoted nor deleted, which action buttons
 * each row offers, and the confirmation dialog that issues one role change or
 * deletion.
 */
module UserManagement {
  import opened JsValues

  const AdminRole: string := "ROLE_ADMIN"
  const UserRole: string := "ROLE_USER"

  /** A user as the administration endpoint lists it; an absent name is "". */
  datatype User = User(id: int, name: string, email: string, role: string)

  /** The number of users whose role is `role`. */
  function CountRole(users: seq<User>, role: string): (n: nat)
    ensures n <= |users|
    ensures n == 0 <==> forall k :: 0 <= k < |users| ==> users[k].role != role
  {
    if users == [] then 0
    else CountRole(users[..|users| - 1], role) + (if users[|users| - 1].role == role then 1 else 0)
  }

  /** `getAdminCount`: how many users are administrators. */
  function AdminCount(users: seq<User>): (n: nat)
    ensures n <= |users|
    ensures n == 0 <==> forall k :: 0 <= k < |users| ==> users[k].role != AdminRole
  {
    CountRole(users, AdminRole)
  }

  /** Two different roles never count the same user, so their counts add up to at most the total. */
  lemma {:induction false} DistinctRolesBounded(users: seq<User>, a: string, b: string)
    requires a != b
    ensures CountRole(users, a) + CountRole(users, b) <= |users|
  {
    if users != [] {
      DistinctRolesBounded(users[..|users| - 1], a, b);
    }
  }

  /** The statistics line never shows more administrators plus users than users in total. */
  lemma StatisticsBounded(users: seq<User>)
    ensures AdminCount(users) + CountRole(users, UserRole) <= |users|
  {
    DistinctRolesBounded(users, AdminRole, UserRole);
  }

  /** Two administrators at different positions make the count at least two. */
  lemma {:induction false} TwoAdminsCount(users: seq<User>, i: nat, j: nat)
    requires i < j < |users| && users[i].role == AdminRole && users[j].role == AdminRole
    ensures AdminCount(users) >= 2
  {
    var last := |users| - 1;
    if j < last {
      TwoAdminsCount(users[..last], i, j);
    } else {
      assert users[..last][i].role == AdminRole;
    }
  }

  /**
   * `canModifyAdmin`: a user can be demoted or deleted unless they are an
   * administrator and there is at most one administrator.
   */
  function CanModifyAdmin(users: seq<User>, u: User): (ok: bool)
    ensures !ok <==> u.role == AdminRole && AdminCount(users) <= 1
    ensures u.role != AdminRole ==> ok
  {
    !(u.role == AdminRole && AdminCount(users) <= 1)
  }

  /**
   * An administrator in the list who cannot be modified is the only
   * administrator: every other listed user is not one.
   */
  lemma OnlyTheLastAdminIsProtected(users: seq<User>, i: nat)
    requires i < |users| && users[i].role == AdminRole
    ensures !CanModifyAdmin(users, users[i]) <==> forall j :: 0 <= j < |users| && j != i ==> users[j].role != AdminRole
  {
    if !CanModifyAdmin(users, users[i]) {
      forall j | 0 <= j < |users| && j != i
        ensures users[j].role != AdminRole
      {
        if users[j].role == AdminRole {
          if i < j { TwoAdminsCount(users, i, j); } else { TwoAdminsCount(users, j, i); }
        }
      }
    } else {
      assert AdminCount(users) >= 2;
      if forall j :: 0 <= j < |users| && j != i ==> users[j].role != AdminRole {
        SoleAdminCount(users, i);
      }
    }
  }

  /** When only the user at `i` is an administrator, the count is one. */
  lemma {:induction false} SoleAdminCount(users: seq<User>, i: nat)
    requires i < |users| && users[i].role == AdminRole
    requires forall j :: 0 <= j < |users| && j != i ==> users[j].role != AdminRole
    ensures AdminCount(users) == 1
  {
    var last := |users| - 1;
    if i < last {
      SoleAdminCount(users[..last], i);
    } else {
      assert forall k :: 0 <= k < |users[..last]| ==> users[..last][k].role != AdminRole by {
        forall k | 0 <= k < |users[..last]|
          ensures users[..last][k].role != AdminRole
        {
          assert users[..last][k] == users[k];
        }
      }
    }
  }

  // ---------------------------------------------------------------------------
  // The actions of one row

  /**
   * The actions the table offers. `Other` stands for an unrecognised action
   * type; its name is never "promote", "demote" or "delete", which are the
   * three constructors before it.
   */
  datatype Action = Promote | Demote | Delete | Other(name: string)

  /** A button in a row's action cell. */
  datatype Button = Button(action: Action, enabled: bool)

  /**
   * The buttons a row shows: promotion for plain users, demotion for
   * administrators, deletion for everyone; demotion and deletion are disabled
   * for the last administrator.
   */
  function RowButtons(users: seq<User>, u: User): (bs: seq<Button>)
    ensures (exists k :: 0 <= k < |bs| && bs[k].action == Promote) <==> u.role == UserRole
    ensures (exists k :: 0 <= k < |bs| && bs[k].action == Demote) <==> u.role == AdminRole
    ensures |bs| >= 1 && bs[|bs| - 1].action == Delete
    ensures forall k :: 0 <= k < |bs| ==> (bs[k].enabled <==> bs[k].action == Promote || CanModifyAdmin(users, u))
  {
    var ok := CanModifyAdmin(users, u);
    if u.role == UserRole then
      assert UserRole[5] != AdminRole[5];
      var bs := [Button(Promote, true), Button(Delete, ok)];
      assert bs[0].action == Promote;
      bs
    else if u.role == AdminRole then
      var bs := [Button(Demote, ok), Button(Delete, ok)];
      assert bs[0].action == Demote;
      bs
    else [Button(Delete, ok)]
  }

  // ---------------------------------------------------------------------------
  // The confirmation dialog

  /** The dialog's state: whether it is open, the action type and the user it is about. */
  datatype ActionModal = ActionModal(isOpen: bool, action: Action, user: Option<User>)

  /** The closed dialog, with no action type and no user. */
  const ClosedModal: ActionModal := ActionModal(false, Other(""), None)

  /** A request sent to the administration endpoint. */
  datatype Request = SetRole(userId: int, role: string) | DeleteUser(userId: int)

  /** The request confirming `action` on `u` sends; an unrecognised action sends nothing. */
  function RequestFor(action: Action, u: User): (r: Option<Request>)
    ensures r.None? <==> action.Other?
    ensures action == Promote ==> r == Some(SetRole(u.id, AdminRole))
    ensures action == Demote ==> r == Some(SetRole(u.id, UserRole))
    ensures action == Delete ==> r == Some(DeleteUser(u.id))
  {
    match action
    case Promote => Some(SetRole(u.id, AdminRole))
    case Demote => Some(SetRole(u.id, UserRole))
    case Delete => Some(DeleteUser(u.id))
    case Other(_) => None
  }

  /** What the dialog shows: title, message and the confirm button's label (absent for the empty config). */
  datatype ModalConfig = ModalConfig(title: string, message: string, buttonText: Option<string>)

  /** How a user is named in the dialog: by name, or by email when the name is empty. */
  function DisplayName(u: User): (s: string)
    ensures u.name != "" ==> s == u.name
    ensures u.name == "" ==> s == u.email
  {
    if u.name != "" then u.name else u.email
  }

  /** A dialog asking about the user called `name`, who is named between two fixed texts. */
  function Dialog(title: string, pre: string, name: string, post: string, button: string): (c: ModalConfig)
    ensures c.title == title && c.buttonText == Some(button)
    ensures OccursAt(c.message, name, |pre|)
  {
    var msg := pre + name + post;
    assert msg[|pre|..|pre| + |name|] == name;
    ModalConfig(title, msg, Some(button))
  }

  // The fixed texts of the three dialogs.
  const PromoteTitle: string := "\U{2B06}\U{FE0F} Promote to Admin"
  const PromoteBefore: string := "Are you sure you want to promote \""
  const PromoteAfter: string := "\" to Administrator? They will have full access to the admin panel."
  const PromoteButton: string := "\U{2705} Promote"
  const DemoteTitle: string := "\U{2B07}\U{FE0F} Demote to User"
  const DemoteBefore: string := "Are you sure you want to demote \""
  const DemoteAfter: string := "\" from Administrator to regular User? They will lose admin privileges."
  const DemoteButton: string := "\U{2B07}\U{FE0F} Demote"
  const DeleteTitle: string := "\U{1F5D1}\U{FE0F} Delete User"
  const DeleteBefore: string := "Are you sure you want to permanently delete user \""
  const DeleteAfter: string := "\"? This action cannot be undone and will delete all their scores."
  const DeleteButton: string := "\U{1F5D1}\U{FE0F} Delete"

  /** `getModalConfig`: the dialog text for the pending action. */
  function ModalConfigFor(modal: ActionModal): (c: ModalConfig)
    ensures c.title == "" <==> modal.user.None? || modal.action.Other?
    ensures c.title == "" ==> c.message == "" && c.buttonText.None?
    ensures c.title != "" ==>
      c.buttonText.Some? && (exists k :: OccursAt(c.message, DisplayName(modal.user.value), k))
  {
    match modal.user
    case None => ModalConfig("", "", None)
    case Some(u) =>
      var name := DisplayName(u);
      match modal.action
      case Promote =>
        var c := Dialog(PromoteTitle, PromoteBefore, name, PromoteAfter, PromoteButton);
        assert OccursAt(c.message, name, |PromoteBefore|);
        c
      case Demote =>
        var c := Dialog(DemoteTitle, DemoteBefore, name, DemoteAfter, DemoteButton);
        assert OccursAt(c.message, name, |DemoteBefore|);
        c
      case Delete =>
        var c := Dialog(DeleteTitle, DeleteBefore, name, DeleteAfter, DeleteButton);
        assert OccursAt(c.message, name, |DeleteBefore|);
        c
      case Other(_) => ModalConfig("", "", None)
  }

  /** The table's state: the listed users, the dialog, and the requests sent so far. */
  class UserTable {
    var users: seq<User>
    var actionModal: ActionModal
    var sent: seq<Request>

    constructor ()
      ensures users == [] && actionModal == ClosedModal && sent == []
    {
      users := [];
      actionModal := ClosedModal;
      sent := [];
    }

    /** The user list has been (re)loaded. */
    method UsersLoaded(list: seq<User>)
      modifies this`users
      ensures users == list
    {
      users := list;
    }

    /** `openActionModal`: opens the dialog for `action` on `u`. */
    method OpenActionModal(u: User, action: Action)
      modifies this`actionModal
      ensures actionModal == ActionModal(true, action, Some(u))
    {
      actionModal := ActionModal(true, action, Some(u));
    }

    /** `closeActionModal`: closes the dialog and forgets the action and the user. */
    method CloseActionModal()
      modifies this`actionModal
      ensures actionModal == ClosedModal && !actionModal.isOpen && actionModal.user.None?
    {
      actionModal := ClosedModal;
    }

    /**
     * `confirmAction`: without a user nothing happens and the dialog stays as it
     * is; otherwise the request matching the action (none for an unknown one)
     * is sent once and the dialog closes.
     */
    method ConfirmAction()
      modifies this`actionModal, this`sent
      ensures old(actionModal).user.None? ==> actionModal == old(actionModal) && sent == old(sent)
      ensures old(actionModal).user.Some? ==> actionModal == ClosedModal
      ensures old(actionModal).user.Some? && old(actionModal).action.Other? ==> sent == old(sent)
      ensures old(actionModal).user.Some? && !old(actionModal).action.Other? ==>
        sent == old(sent) + [RequestFor(old(actionModal).action, old(actionModal).user.value).value]
    {
      if actionModal.user.None? {
        return;
      }
      var u := actionModal.user.value;
      match actionModal.action {
        case Promote => sent := sent + [SetRole(u.id, AdminRole)];
        case Demote => sent := sent + [SetRole(u.id, UserRole)];
        case Delete => sent := sent + [DeleteUser(u.id)];
        case Other(_) =>
      }
      CloseActionModal();
    }
  }
}
