/** The list view of src/Components/DomainTable.tsx: its three pieces of
    component state (`searchText`, `isDrawerOpen`, `editingDomain`) and the
    handlers that change them, the search filter, the status colour and
    label, and the per-row menu. Requests, refetches and toasts are returned
    as effects; each asynchronous handler is one step whose outcome is a
    parameter. */
module DomainTable {
  import opened Wrappers
  import opened DomainApi
  import Ascii
  import Messages
  import DomainForm

  // ---------------------------------------------------------------------
  // Search

  /** The row's lower-cased `domain` contains the lower-cased search text. */
  predicate MatchesSearch(d: Domain, searchText: string) {
    Ascii.Includes(Ascii.Lower(d.domain), Ascii.Lower(searchText))
  }

  /** `a` is `b` with some elements left out, the rest in the same order. */
  predicate IsSubsequence<T(==)>(a: seq<T>, b: seq<T>)
    decreases |b|
  {
    || a == []
    || (b != [] && ((a[0] == b[0] && IsSubsequence(a[1..], b[1..])) || IsSubsequence(a, b[1..])))
  }

  /** The rows shown for a search text: exactly the matching records, each
      as often as in the input, in the input's order. */
  function SearchFilter(domains: seq<Domain>, searchText: string): (r: seq<Domain>)
    ensures IsSubsequence(r, domains)
    ensures forall d :: d in r ==> MatchesSearch(d, searchText)
    ensures forall d :: multiset(r)[d] == if MatchesSearch(d, searchText) then multiset(domains)[d] else 0
  {
    if domains == [] then []
    else
      var rest := SearchFilter(domains[1..], searchText);
      assert domains == [domains[0]] + domains[1..];
      if MatchesSearch(domains[0], searchText) then
        assert ([domains[0]] + rest)[1..] == rest;
        [domains[0]] + rest
      else
        rest
  }

  /** An empty search shows the whole list. */
  lemma {:induction false} EmptySearchShowsAll(domains: seq<Domain>)
    ensures SearchFilter(domains, "") == domains
  {
    if domains != [] {
      assert Ascii.OccursAt(Ascii.Lower(domains[0].domain), Ascii.Lower(""), 0);
      EmptySearchShowsAll(domains[1..]);
    }
  }

  /** Search texts that differ only in letter case show the same rows. */
  lemma {:induction false} SearchIgnoresCase(domains: seq<Domain>, t1: string, t2: string)
    requires Ascii.Lower(t1) == Ascii.Lower(t2)
    ensures SearchFilter(domains, t1) == SearchFilter(domains, t2)
  {
    if domains != [] {
      SearchIgnoresCase(domains[1..], t1, t2);
    }
  }

  /** Searching "GOOGLE" finds the record of "https://google.com". */
  lemma UpperCaseSearchFindsRecord(id: string, isActive: bool, status: Status, createdDate: int)
    ensures MatchesSearch(Domain(id, "https://google.com", isActive, status, createdDate), "GOOGLE")
  {
    var hay := Ascii.Lower("https://google.com");
    assert hay[8..14] == "google";
    assert Ascii.Lower("GOOGLE") == "google";
    assert Ascii.OccursAt(hay, Ascii.Lower("GOOGLE"), 8);
  }

  // ---------------------------------------------------------------------
  // Status rendering

  /** The antd tag colours used for the verification status. */
  datatype TagColor = SuccessColor | WarningColor | ErrorColor

  /** `getStatusColor`: `verified` is green, `pending` amber, and every
      other string red. */
  function StatusColor(status: string): (c: TagColor)
    ensures c == SuccessColor <==> status == "verified"
    ensures c == WarningColor <==> status == "pending"
    ensures c == ErrorColor <==> status != "verified" && status != "pending"
  {
    if status == "verified" then SuccessColor
    else if status == "pending" then WarningColor
    else ErrorColor
  }

  /** The three statuses get three different colours; `rejected` is red. */
  lemma StatusColorsOfStatuses()
    ensures StatusColor(StatusName(Verified)) == SuccessColor
    ensures StatusColor(StatusName(Pending)) == WarningColor
    ensures StatusColor(StatusName(Rejected)) == ErrorColor
    ensures forall s, t :: s != t ==> StatusColor(StatusName(s)) != StatusColor(StatusName(t))
  {
  }

  /** `status.charAt(0).toUpperCase() + status.slice(1)`: the first character
      upper-cased and the rest kept; the empty string stays empty. */
  function StatusLabel(status: string): (shown: string)
    ensures |shown| == |status|
    ensures |status| > 0 ==> shown[0] == Ascii.ToUpper(status[0]) && shown[1..] == status[1..]
  {
    if status == [] then [] else [Ascii.ToUpper(status[0])] + status[1..]
  }

  /** Lower-casing a label gives back the lower-cased status. */
  lemma StatusLabelLowersBack(status: string)
    ensures Ascii.Lower(StatusLabel(status)) == Ascii.Lower(status)
  {
  }

  lemma StatusLabelsOfStatuses()
    ensures StatusLabel(StatusName(Pending)) == "Pending"
    ensures StatusLabel(StatusName(Verified)) == "Verified"
    ensures StatusLabel(StatusName(Rejected)) == "Rejected"
  {
  }

  // ---------------------------------------------------------------------
  // Effects of the handlers

  datatype TableEffect =
    | Update(arg: UpdateArg)
    | Delete(id: string)
    | Refetch
    | Notify(message: Messages.Message)

  const MissingIdText := "Domain ID is missing"
  const UpdatedText := "Domain updated successfully"
  const UpdateFailedText := "Failed to update domain. Please try again."
  const VerifiedText := "Domain verified successfully"
  const VerifyFailedText := "Failed to verify domain. Please try again."
  const DeletedText := "Domain deleted successfully"
  const DeleteFailedText := "Failed to delete domain. Please try again."

  /** A request the effects send to the API. */
  predicate IsRequest(e: TableEffect) {
    e.Update? || e.Delete?
  }

  /** `editingDomain?.id` is a non-empty string. */
  predicate HasEditingId(editing: Option<Domain>) {
    editing.Some? && editing.value.id != ""
  }

  /** The body `handleUpdate` sends: the two form fields. */
  function UpdateBody(values: DomainForm.FormValues): PartialDomain {
    NoFields.(domain := Some(values.domain), isActive := Some(values.isActive))
  }

  /** The body `handleVerify` sends. */
  function VerifyBody(): PartialDomain {
    NoFields.(status := Some(Verified))
  }

  /** `handleUpdate`: without a record id only an error toast; otherwise an
      update of that id carrying exactly `domain` and `isActive`, then a toast
      and, on success only, a refetch. */
  function UpdateEffects(editing: Option<Domain>, values: DomainForm.FormValues, updated: bool): (effects: seq<TableEffect>)
    ensures !HasEditingId(editing) ==> effects == [Notify(Messages.Error(MissingIdText))]
    ensures HasEditingId(editing) ==>
      && |effects| == (if updated then 3 else 2)
      && effects[0].Update? && effects[0].arg.id == editing.value.id
      && FieldNames(effects[0].arg.body) == {"domain", "isActive"}
      && effects[0].arg.body.domain == Some(values.domain)
      && effects[0].arg.body.isActive == Some(values.isActive)
      && effects[1] == Notify(if updated then Messages.Success(UpdatedText) else Messages.Error(UpdateFailedText))
      && (updated ==> effects[2] == Refetch)
    ensures forall k :: 1 <= k < |effects| ==> !IsRequest(effects[k])
    ensures Refetch in effects <==> HasEditingId(editing) && updated
  {
    if !HasEditingId(editing) then [Notify(Messages.Error(MissingIdText))]
    else
      var request := Update(UpdateArg(editing.value.id, UpdateBody(values)));
      if updated then [request, Notify(Messages.Success(UpdatedText)), Refetch]
      else [request, Notify(Messages.Error(UpdateFailedText))]
  }

  /** `handleVerify`: one update of the id whose body names only `status`,
      set to `verified`; a refetch only on success. */
  function VerifyEffects(id: string, verified: bool): (effects: seq<TableEffect>)
    ensures |effects| == if verified then 3 else 2
    ensures verified ==> effects[2] == Refetch
    ensures effects[0].Update? && effects[0].arg.id == id
    ensures FieldNames(effects[0].arg.body) == {"status"} && effects[0].arg.body.status == Some(Verified)
    ensures effects[1] == Notify(if verified then Messages.Success(VerifiedText) else Messages.Error(VerifyFailedText))
    ensures forall k :: 1 <= k < |effects| ==> !IsRequest(effects[k])
    ensures Refetch in effects <==> verified
  {
    var request := Update(UpdateArg(id, VerifyBody()));
    if verified then [request, Notify(Messages.Success(VerifiedText)), Refetch]
    else [request, Notify(Messages.Error(VerifyFailedText))]
  }

  /** `handleDelete`: one delete of the id; a refetch only on success. */
  function DeleteEffects(id: string, deleted: bool): (effects: seq<TableEffect>)
    ensures |effects| == (if deleted then 3 else 2) && effects[0] == Delete(id)
    ensures deleted ==> effects[2] == Refetch
    ensures effects[1] == Notify(if deleted then Messages.Success(DeletedText) else Messages.Error(DeleteFailedText))
    ensures forall k :: 1 <= k < |effects| ==> !IsRequest(effects[k])
    ensures Refetch in effects <==> deleted
  {
    if deleted then [Delete(id), Notify(Messages.Success(DeletedText)), Refetch]
    else [Delete(id), Notify(Messages.Error(DeleteFailedText))]
  }

  /** Verifying sends a PUT to the record's url whose body leaves `domain`,
      `isActive` and `createdDate` out; its tags reach that record's query but
      not the list, which the explicit refetch reloads. */
  lemma VerifyRequestTouchesOnlyStatus(id: string, verified: bool)
    ensures
      var e := UpdateDomain(VerifyEffects(id, verified)[0].arg);
      && e.request.verb == PUT && e.request.url == ItemUrl(id)
      && e.request.body.Some?
      && e.request.body.value.domain.None? && e.request.body.value.isActive.None?
      && e.request.body.value.createdDate.None?
      && !Refreshes(e, GetDomains())
  {
  }

  // ---------------------------------------------------------------------
  // The per-row menu

  datatype MenuAction = EditRecord(record: Domain) | VerifyRecord(id: string) | DeleteRecord(id: string)

  datatype MenuItem = MenuItem(key: string, caption: string, disabled: bool, danger: bool, action: MenuAction)

  /** `getDropdownItems`: Edit, Verify and Delete for one row. Verify is
      disabled exactly when the row is verified; Delete exactly while a
      delete is in flight, whatever the row. */
  function DropdownItems(record: Domain, isDeleting: bool): (items: seq<MenuItem>)
    ensures |items| == 3
    ensures items[0].key == "edit-" + record.id
    ensures items[1].key == "verify-" + record.id
    ensures items[2].key == "delete-" + record.id
    ensures items[0].caption == "Edit" && !items[0].disabled && items[0].action == EditRecord(record)
    ensures items[1].caption == "Verify" && items[1].action == VerifyRecord(record.id)
    ensures items[1].disabled <==> record.status == Verified
    ensures items[2].caption == "Delete" && items[2].action == DeleteRecord(record.id)
    ensures items[2].disabled <==> isDeleting
    ensures forall k :: 0 <= k < 3 ==> (items[k].danger <==> k == 2)
  {
    [ MenuItem("edit-" + record.id, "Edit", false, false, EditRecord(record)),
      MenuItem("verify-" + record.id, "Verify", record.status == Verified, false, VerifyRecord(record.id)),
      MenuItem("delete-" + record.id, "Delete", isDeleting, true, DeleteRecord(record.id)) ]
  }

  lemma PrefixedKeysDiffer(p: string, q: string, a: string, b: string)
    requires (p != q && |p| == |q|) || (|p| > 0 && |q| > 0 && p[0] != q[0]) || (p == q && a != b)
    ensures p + a != q + b
  {
    if |p| > 0 && |q| > 0 && p[0] != q[0] {
      assert (p + a)[0] != (q + b)[0];
    } else {
      assert (p + a)[..|p|] == p && (q + b)[..|q|] == q;
      assert (p + a)[|p|..] == a && (q + b)[|q|..] == b;
    }
  }

  /** Menu keys are unique across all rows with distinct ids. */
  lemma MenuKeysUnique(r1: Domain, r2: Domain, isDeleting: bool, k1: nat, k2: nat)
    requires k1 < 3 && k2 < 3
    requires k1 != k2 || r1.id != r2.id
    ensures DropdownItems(r1, isDeleting)[k1].key != DropdownItems(r2, isDeleting)[k2].key
  {
    var prefixes := ["edit-", "verify-", "delete-"];
    assert DropdownItems(r1, isDeleting)[k1].key == prefixes[k1] + r1.id;
    assert DropdownItems(r2, isDeleting)[k2].key == prefixes[k2] + r2.id;
    PrefixedKeysDiffer(prefixes[k1], prefixes[k2], r1.id, r2.id);
  }

  // ---------------------------------------------------------------------
  // The drawer state machine

  datatype TableView = TableView(searchText: string, isDrawerOpen: bool, editingDomain: Option<Domain>)

  /** The state on mount. */
  const Initial := TableView("", false, None)

  /** A closed drawer edits nothing. */
  predicate DrawerInvariant(v: TableView) {
    !v.isDrawerOpen ==> v.editingDomain.None?
  }

  datatype Event =
    | Search(text: string)
    | Open(record: Option<Domain>)
    | Close
    | UpdateSettled(values: DomainForm.FormValues, updated: bool)

  /** How each handler changes the three fields. */
  function Next(v: TableView, e: Event): (w: TableView)
    ensures DrawerInvariant(v) ==> DrawerInvariant(w)
    ensures e.Search? ==> w == v.(searchText := e.text)
    ensures !e.Search? ==> w.searchText == v.searchText
    ensures e.Open? ==> w.isDrawerOpen && w.editingDomain == if e.record.Some? then e.record else v.editingDomain
    ensures e.Close? ==> !w.isDrawerOpen && w.editingDomain.None?
    ensures e.UpdateSettled? ==>
      w == if HasEditingId(v.editingDomain) && e.updated then v.(isDrawerOpen := false, editingDomain := None) else v
  {
    match e
    case Search(text) => v.(searchText := text)
    case Open(record) => v.(isDrawerOpen := true, editingDomain := if record.Some? then record else v.editingDomain)
    case Close => v.(isDrawerOpen := false, editingDomain := None)
    case UpdateSettled(values, updated) =>
      if HasEditingId(v.editingDomain) && updated then v.(isDrawerOpen := false, editingDomain := None) else v
  }

  /** The state after a sequence of events. */
  function Run(v: TableView, events: seq<Event>): TableView
    decreases |events|
  {
    if events == [] then v else Run(Next(v, events[0]), events[1..])
  }

  lemma {:induction false} RunKeepsInvariant(v: TableView, events: seq<Event>)
    requires DrawerInvariant(v)
    ensures DrawerInvariant(Run(v, events))
    decreases |events|
  {
    if events != [] {
      RunKeepsInvariant(Next(v, events[0]), events[1..]);
    }
  }

  /** Every state reachable from mount has a closed drawer only when no
      record is being edited. */
  lemma ReachableStatesKeepInvariant(events: seq<Event>)
    ensures DrawerInvariant(Run(Initial, events))
  {
    RunKeepsInvariant(Initial, events);
  }

  datatype DrawerProps = DrawerProps(title: string, open: bool, initialValues: Option<Domain>, hasOnSuccess: bool)

  /** The drawer and the form inside it: edit mode, with `handleUpdate` as
      the form's `onSuccess`, exactly when a record is being edited. */
  function DrawerFor(v: TableView): (p: DrawerProps)
    ensures p.title == "Edit domain" <==> v.editingDomain.Some?
    ensures p.title == "Add domain" <==> v.editingDomain.None?
    ensures p.hasOnSuccess <==> v.editingDomain.Some?
    ensures p.open == v.isDrawerOpen && p.initialValues == v.editingDomain
  {
    if v.editingDomain.Some? then DrawerProps("Edit domain", v.isDrawerOpen, v.editingDomain, true)
    else DrawerProps("Add domain", v.isDrawerOpen, None, false)
  }

  /** Submitting the drawer's form while editing a record with an id hands
      the values to `handleUpdate`, which sends a PUT of exactly those two
      fields to that record's url and issues no create. */
  lemma EditSubmissionSendsUpdate(v: TableView, values: DomainForm.FormValues, nowMs: int, created: bool, updated: bool)
    requires HasEditingId(v.editingDomain)
    ensures DomainForm.FinishEffects(DrawerFor(v).hasOnSuccess, values, nowMs, created) == [DomainForm.CallOnSuccess(values)]
    ensures
      var e := UpdateDomain(UpdateEffects(v.editingDomain, values, updated)[0].arg);
      && e.request.verb == PUT && e.request.url == ItemUrl(v.editingDomain.value.id)
      && e.request.body == Some(NoFields.(domain := Some(values.domain), isActive := Some(values.isActive)))
  {
  }

  // ---------------------------------------------------------------------
  // The component

  class DomainTableState {
    var searchText: string
    var isDrawerOpen: bool
    var editingDomain: Option<Domain>

    function View(): TableView
      reads this
    {
      TableView(searchText, isDrawerOpen, editingDomain)
    }

    ghost predicate Valid()
      reads this
    {
      DrawerInvariant(View())
    }

    constructor ()
      ensures View() == Initial && Valid()
    {
      searchText := "";
      isDrawerOpen := false;
      editingDomain := None;
    }

    /** The rows the table shows for the current search text. */
    function Visible(domains: seq<Domain>): seq<Domain>
      reads this
    {
      SearchFilter(domains, searchText)
    }

    /** The search input's `onChange`. */
    method SetSearchText(text: string)
      requires Valid()
      modifies this
      ensures Valid() && View() == Next(old(View()), Search(text))
      ensures forall domains :: Visible(domains) == SearchFilter(domains, text)
    {
      searchText := text;
    }

    /** `showDrawer`: opens the drawer, for editing when given a record. */
    method ShowDrawer(record: Option<Domain>)
      requires Valid()
      modifies this
      ensures Valid() && View() == Next(old(View()), Open(record))
    {
      if record.Some? {
        editingDomain := record;
      }
      isDrawerOpen := true;
    }

    /** `closeDrawer` */
    method CloseDrawer()
      requires Valid()
      modifies this
      ensures Valid() && View() == Next(old(View()), Close)
    {
      isDrawerOpen := false;
      editingDomain := None;
    }

    /** `handleUpdate`, with the request's outcome as a parameter. */
    method HandleUpdate(values: DomainForm.FormValues, updated: bool) returns (effects: seq<TableEffect>)
      requires Valid()
      modifies this
      ensures Valid() && View() == Next(old(View()), UpdateSettled(values, updated))
      ensures effects == UpdateEffects(old(editingDomain), values, updated)
    {
      if !HasEditingId(editingDomain) {
        effects := [Notify(Messages.Error(MissingIdText))];
        return;
      }
      effects := [Update(UpdateArg(editingDomain.value.id, UpdateBody(values)))];
      if updated {
        effects := effects + [Notify(Messages.Success(UpdatedText))];
        CloseDrawer();
        effects := effects + [Refetch];
      } else {
        effects := effects + [Notify(Messages.Error(UpdateFailedText))];
      }
    }

    /** `handleVerify`, with the request's outcome as a parameter. */
    method HandleVerify(id: string, verified: bool) returns (effects: seq<TableEffect>)
      ensures effects == VerifyEffects(id, verified)
    {
      effects := [Update(UpdateArg(id, VerifyBody()))];
      if verified {
        effects := effects + [Notify(Messages.Success(VerifiedText)), Refetch];
      } else {
        effects := effects + [Notify(Messages.Error(VerifyFailedText))];
      }
    }

    /** `handleDelete`, with the request's outcome as a parameter. */
    method HandleDelete(id: string, deleted: bool) returns (effects: seq<TableEffect>)
      ensures effects == DeleteEffects(id, deleted)
    {
      effects := [Delete(id)];
      if deleted {
        effects := effects + [Notify(Messages.Success(DeletedText)), Refetch];
      } else {
        effects := effects + [Notify(Messages.Error(DeleteFailedText))];
      }
    }

    /** A click on a menu item; a disabled item does nothing. */
    method SelectMenuItem(item: MenuItem, succeeded: bool) returns (effects: seq<TableEffect>)
      requires Valid()
      modifies this
      ensures Valid()
      ensures item.disabled ==> effects == [] && View() == old(View())
      ensures !item.disabled ==>
        match item.action
        case EditRecord(r) => effects == [] && View() == Next(old(View()), Open(Some(r)))
        case VerifyRecord(id) => effects == VerifyEffects(id, succeeded) && View() == old(View())
        case DeleteRecord(id) => effects == DeleteEffects(id, succeeded) && View() == old(View())
    {
      if item.disabled {
        effects := [];
        return;
      }
      match item.action
      case EditRecord(r) =>
        ShowDrawer(Some(r));
        effects := [];
      case VerifyRecord(id) =>
        effects := HandleVerify(id, succeeded);
      case DeleteRecord(id) =>
        effects := HandleDelete(id, succeeded);
    }
  }
}
