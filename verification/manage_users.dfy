/** The admin users page (`ManageUsers`): its list query, the per-role row
    actions, the confirm-gated promote and status-toggle mutations, and the
    search box that applies only on submit. */
module ManageUsers {

  import opened Common

  /** The query of `GET /admin/users`: `role` unless the filter is "all",
      `searchText` unless it is empty, in that order. */
  function UsersQuery(roleFilter: string, searchText: string): (ps: Params)
    ensures "role" in Names(ps) <==> roleFilter != "all"
    ensures "searchText" in Names(ps) <==> searchText != ""
    ensures |ps| == (if roleFilter != "all" then 1 else 0) + (if searchText != "" then 1 else 0)
    ensures roleFilter != "all" ==> ps[0] == ("role", roleFilter)
    ensures searchText != "" ==> ps[|ps| - 1] == ("searchText", searchText)
  {
    AppendIf(AppendIf([], roleFilter != "all", "role", roleFilter),
             searchText != "", "searchText", searchText)
  }

  /** The status a toggle sends: "active" becomes "inactive"; anything else,
      a missing status included, becomes "active". */
  function ToggledStatus(current: Option<string>): (s: string)
    ensures s == "inactive" <==> current == Some("active")
    ensures s == "active" <==> current != Some("active")
  {
    if current == Some("active") then "inactive" else "active"
  }

  /** Between the two real statuses the toggle is an involution. */
  lemma ToggleInvolution(s: string)
    requires s == "active" || s == "inactive"
    ensures ToggledStatus(Some(ToggledStatus(Some(s)))) == s
  {
  }

  /** The verb of the confirmation question. */
  function ActionWord(newStatus: string): (w: string)
    ensures w == "enable" <==> newStatus == "active"
    ensures w != "enable" ==> w == "disable"
  {
    if newStatus == "active" then "enable" else "disable"
  }

  datatype UserMutation =
    | MakeDecorator(email: string)
    | SetDecoratorStatus(email: string, status: string)

  /** `handleMakeDecorator`: the mutation goes out only if the confirm
      dialog was answered yes. */
  function MakeDecoratorRequest(email: string, confirmed: bool): (m: Option<UserMutation>)
    ensures m.Some? <==> confirmed
    ensures m.Some? ==> m.value == MakeDecorator(email)
  {
    if confirmed then Some(MakeDecorator(email)) else None
  }

  /** `handleToggleStatus`: the question names the action, and the mutation
      carries the toggled status only after a yes. */
  function ToggleStatusRequest(email: string, current: Option<string>, confirmed: bool)
    : (r: (string, Option<UserMutation>))
    ensures r.1.Some? <==> confirmed
    ensures r.1.Some? ==> r.1.value == SetDecoratorStatus(email, ToggledStatus(current))
    ensures r.0 == "Are you sure you want to " + ActionWord(ToggledStatus(current)) + " this decorator?"
  {
    var status := ToggledStatus(current);
    var question := "Are you sure you want to " + ActionWord(status) + " this decorator?";
    (question, if confirmed then Some(SetDecoratorStatus(email, status)) else None)
  }

  /** A confirmed toggle of an active decorator disables it, of any other
      decorator enables it, and asks with the matching verb. */
  lemma ToggleAsksWhatItDoes(email: string, current: Option<string>)
    ensures current == Some("active") ==>
              ToggleStatusRequest(email, current, true) ==
              ("Are you sure you want to " + "disable" + " this decorator?",
               Some(SetDecoratorStatus(email, "inactive")))
    ensures current != Some("active") ==>
              ToggleStatusRequest(email, current, true) ==
              ("Are you sure you want to " + "enable" + " this decorator?",
               Some(SetDecoratorStatus(email, "active")))
  {
    var status := ToggledStatus(current);
    var word := ActionWord(status);
    if current == Some("active") {
      assert status == "inactive" && word == "disable";
    } else {
      assert status == "active" && word == "enable";
    }
  }

  /** The buttons of a row. */
  datatype RowActions = RowActions(promote: bool, toggle: bool)

  /** Promote is offered to plain users, the toggle to decorators, and
      nothing to admins or any other role. */
  function RowActionsFor(role: string): (a: RowActions)
    ensures a.promote <==> role == "user"
    ensures a.toggle <==> role == "decorator"
    ensures !(a.promote && a.toggle)
  {
    RowActions(role == "user", role == "decorator")
  }

  /** The search box: `searchInput` follows the keystrokes; `searchText`, the
      value the query uses, changes only when the form is submitted. */
  class UserSearch {
    var searchInput: string
    var searchText: string

    constructor ()
      ensures searchInput == "" && searchText == ""
    {
      searchInput, searchText := "", "";
    }

    /** The input's `onChange`. */
    method Type(s: string)
      modifies this`searchInput
      ensures searchInput == s && searchText == old(searchText)
    {
      searchInput := s;
    }

    /** `handleSearch`. */
    method Submit()
      modifies this`searchText
      ensures searchText == searchInput
    {
      searchText := searchInput;
    }

    /** The list query the page issues for the current state. */
    function Query(roleFilter: string): (ps: Params)
      reads this
      ensures "searchText" in Names(ps) <==> searchText != ""
    {
      UsersQuery(roleFilter, searchText)
    }
  }
}
