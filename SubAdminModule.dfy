/**
 * The admin's sub-admin management page: the creation form with its six
 * permission checkboxes, the list of sub-admins with a one-line summary of
 * each one's permissions, and the create / delete / refetch handlers.
 */
module SubAdminModule {
  import opened Optional
  import opened Js
  import Text

  const ApiBase: string := "https://law-firm-backend-e082.onrender.com"
  const AllFieldsRequired: string := "All fields are required."
  const PermissionPrefix: string := "canManage"
  const NoPermissions: string := "No Permissions"
  /** The key the request body adds to the form when creating a sub-admin. */
  const CreatedByKey: string := "createdBy"
  const CreatedByValue: string := "admin-id"

  /** The permission checkboxes, in the order the form lists them. */
  const PermissionFields: seq<string> :=
    ["canManageEnquiries", "canManageLawyers", "canManageServices",
     "canManagePosts", "canManageNews", "canManageSettings"]

  type Entries = seq<(string, JsValue)>

  /** The form's initial record: three empty text fields, then every permission off. */
  const InitialForm: Entries :=
    [("name", Str("")), ("email", Str("")), ("password", Str("")),
     ("canManageEnquiries", Bool(false)), ("canManageLawyers", Bool(false)),
     ("canManageServices", Bool(false)), ("canManagePosts", Bool(false)),
     ("canManageNews", Bool(false)), ("canManageSettings", Bool(false))]

  /** The part of an input's change event the handler reads. */
  datatype ChangeEvent = ChangeEvent(name: string, inputType: string, value: string, checked: bool)

  /** What `handleChange` stores: `checked` for a checkbox, the text otherwise. */
  function NewFieldValue(e: ChangeEvent): (r: JsValue)
    ensures e.inputType == "checkbox" ==> r == Bool(e.checked)
    ensures e.inputType != "checkbox" ==> r == Str(e.value)
  {
    if e.inputType == "checkbox" then Bool(e.checked) else Str(e.value)
  }

  /**
   * `!form.email || !form.password || !form.name`: a required field that is
   * absent from the record, or holds the empty text, blocks the submission.
   */
  predicate MissingRequired(form: Entries): (r: bool)
    ensures "email" !in Keys(form) || "password" !in Keys(form) || "name" !in Keys(form) ==> r
    ensures Lookup(form, "email") == Str("") || Lookup(form, "password") == Str("") || Lookup(form, "name") == Str("") ==> r
    ensures (Lookup(form, "email").Str? && Lookup(form, "email").s != ""
             && Lookup(form, "password").Str? && Lookup(form, "password").s != ""
             && Lookup(form, "name").Str? && Lookup(form, "name").s != "") ==> !r
  {
    LookupAbsent(form, "email");
    LookupAbsent(form, "password");
    LookupAbsent(form, "name");
    !Truthy(Lookup(form, "email")) || !Truthy(Lookup(form, "password")) || !Truthy(Lookup(form, "name"))
  }

  /** The label beside a checkbox: `field.replace("canManage", "Manage ")`. */
  function CheckboxLabel(field: string): (r: string)
    ensures Text.StartsWith(field, PermissionPrefix) ==> r == "Manage " + field[|PermissionPrefix|..]
    ensures (forall m :: !Text.OccursAt(field, PermissionPrefix, m)) ==> r == field
  {
    Text.ReplaceFirst(field, PermissionPrefix, "Manage ")
  }

  /** A granted permission: a key starting with "canManage" whose value is truthy. */
  predicate Granted(entry: (string, JsValue)) {
    Text.StartsWith(entry.0, PermissionPrefix) && Truthy(entry.1)
  }

  /**
   * `Object.entries(s).filter(([k, v]) => k.startsWith("canManage") && v)
   *   .map(([k]) => k.replace("canManage", ""))`
   */
  function PermissionNames(entries: Entries): seq<string> {
    if entries == [] then []
    else
      var first := if Granted(entries[0]) then [Text.ReplaceFirst(entries[0].0, PermissionPrefix, "")] else [];
      first + PermissionNames(entries[1..])
  }

  /**
   * The Permissions column: the names joined by ", ", or "No Permissions"
   * when that is empty. The column is never blank, and a record granting
   * nothing (or an entry that is not an object) reads "No Permissions".
   */
  function PermissionSummary(subAdmin: JsValue): (r: string)
    ensures r != ""
    ensures !subAdmin.Obj? ==> r == NoPermissions
    ensures subAdmin.Obj? && (forall i :: 0 <= i < |subAdmin.entries| ==> !Granted(subAdmin.entries[i])) ==>
      r == NoPermissions
  {
    if subAdmin.Obj? then
      PermissionNamesEmpty(subAdmin.entries);
      var joined := Text.Join(PermissionNames(subAdmin.entries), ", ");
      if joined == "" then NoPermissions else joined
    else NoPermissions
  }

  /** A name is listed exactly when "canManage" + name is a granted key. */
  lemma {:induction false} PermissionNamesListGranted(entries: Entries, name: string)
    ensures name in PermissionNames(entries) <==>
      exists i :: 0 <= i < |entries| && entries[i].0 == PermissionPrefix + name && Truthy(entries[i].1)
  {
    if entries != [] {
      PermissionNamesListGranted(entries[1..], name);
      var k := entries[0].0;
      if Text.StartsWith(k, PermissionPrefix) {
        assert k == PermissionPrefix + k[|PermissionPrefix|..];
        assert Text.ReplaceFirst(k, PermissionPrefix, "") == k[|PermissionPrefix|..] by {
          assert "" + k[|PermissionPrefix|..] == k[|PermissionPrefix|..];
        }
      }
      if k == PermissionPrefix + name {
        assert k[..|PermissionPrefix|] == PermissionPrefix && k[|PermissionPrefix|..] == name;
      }
      if exists i :: 0 <= i < |entries| && entries[i].0 == PermissionPrefix + name && Truthy(entries[i].1) {
        var i :| 0 <= i < |entries| && entries[i].0 == PermissionPrefix + name && Truthy(entries[i].1);
        if i > 0 {
          assert entries[1..][i - 1] == entries[i];
        }
      }
      if exists i :: 0 <= i < |entries[1..]| && entries[1..][i].0 == PermissionPrefix + name && Truthy(entries[1..][i].1) {
        var i :| 0 <= i < |entries[1..]| && entries[1..][i].0 == PermissionPrefix + name && Truthy(entries[1..][i].1);
        assert entries[i + 1] == entries[1..][i];
      }
    }
  }

  /** Nothing is listed exactly when no entry is a granted permission. */
  lemma {:induction false} PermissionNamesEmpty(entries: Entries)
    ensures PermissionNames(entries) == [] <==> forall i :: 0 <= i < |entries| ==> !Granted(entries[i])
  {
    if entries != [] {
      PermissionNamesEmpty(entries[1..]);
      assert forall i :: 1 <= i < |entries| ==> entries[i] == entries[1..][i - 1];
    }
  }

  /**
   * The column falls back to "No Permissions" exactly when nothing is listed,
   * or when the only granted key is "canManage" itself (its stripped name is
   * empty, and so is the join); otherwise it shows the join.
   */
  lemma SummaryFallback(entries: Entries)
    ensures var names := PermissionNames(entries);
      PermissionSummary(Obj(entries)) ==
        if names == [] || names == [""] then NoPermissions else Text.Join(names, ", ")
  {
    Text.JoinIsEmpty(PermissionNames(entries), ", ");
  }

  /** For records without a key that is "canManage" itself: the fallback shows exactly when nothing is granted. */
  lemma SummaryFallbackIffNoneGranted(entries: Entries)
    requires forall i :: 0 <= i < |entries| ==> entries[i].0 != PermissionPrefix
    ensures (forall i :: 0 <= i < |entries| ==> !Granted(entries[i])) ==>
      PermissionSummary(Obj(entries)) == NoPermissions
    ensures (exists i :: 0 <= i < |entries| && Granted(entries[i])) ==>
      PermissionSummary(Obj(entries)) == Text.Join(PermissionNames(entries), ", ")
  {
    SummaryFallback(entries);
    PermissionNamesEmpty(entries);
    PermissionNamesListGranted(entries, "");
    assert PermissionPrefix + "" == PermissionPrefix;
    assert "" !in PermissionNames(entries);
  }

  /** The creation form: its record and its error line. */
  class SubAdminForm {
    var form: Entries
    var error: string

    constructor ()
      ensures form == InitialForm && error == ""
    {
      form := InitialForm;
      error := "";
    }

    /** `handleChange`: the named field takes the event's value; every other field is kept. */
    method HandleChange(e: ChangeEvent)
      modifies this`form
      ensures form == Put(old(form), e.name, NewFieldValue(e))
      ensures Lookup(form, e.name) == NewFieldValue(e)
      ensures forall k :: k != e.name ==> Lookup(form, k) == Lookup(old(form), k)
      ensures e.name in Keys(old(form)) ==> Keys(form) == Keys(old(form))
    {
      var before := form;
      form := Put(form, e.name, NewFieldValue(e));
      LookupPutSame(before, e.name, NewFieldValue(e));
      forall k | k != e.name
        ensures Lookup(form, k) == Lookup(before, k)
      {
        LookupPutOther(before, e.name, NewFieldValue(e), k);
      }
      KeysPut(before, e.name, NewFieldValue(e));
    }

    /**
     * `handleSubmit`: with a required field empty the error is shown and
     * nothing is submitted; otherwise the error is cleared and the record is
     * handed to `onSubmit` as it is.
     */
    method HandleSubmit() returns (submitted: Option<Entries>)
      modifies this`error
      ensures MissingRequired(form) ==> error == AllFieldsRequired && submitted == None
      ensures !MissingRequired(form) ==> error == "" && submitted == Some(form)
    {
      if MissingRequired(form) {
        error := AllFieldsRequired;
        return None;
      }
      error := "";
      submitted := Some(form);
    }
  }

  /** What a request produced: it threw, or a reply with its parsed body. */
  datatype Response = Thrown | Reply(body: JsValue)

  /** What the list area shows: the loading text, the table (one permission summary per row), or the empty text. */
  datatype ListView = LoadingText | Table(summaries: seq<string>) | NoneFound

  /** The management page: the list, whether the form is open, and the loading flag. */
  class SubAdminPage {
    var subAdmins: seq<JsValue>
    var showForm: bool
    var loading: bool
    /** The bodies of the create requests sent so far. */
    var createBodies: seq<Entries>
    /** The ids of the delete requests sent so far. */
    var deletedIds: seq<JsValue>

    constructor ()
      ensures subAdmins == [] && !showForm && !loading && createBodies == [] && deletedIds == []
    {
      subAdmins := [];
      showForm := false;
      loading := false;
      createBodies, deletedIds := [], [];
    }

    /** The list area: loading wins over the table, and an empty list shows "No SubAdmins found.". */
    function View(): (v: ListView)
      reads this
      ensures v.LoadingText? <==> loading
      ensures v.NoneFound? <==> !loading && subAdmins == []
      ensures v.Table? ==> |v.summaries| == |subAdmins|
      ensures v.Table? ==> forall i :: 0 <= i < |subAdmins| ==> v.summaries[i] == PermissionSummary(subAdmins[i])
    {
      var list := subAdmins;
      if loading then LoadingText
      else if |list| > 0 then Table(seq(|list|, i requires 0 <= i < |list| => PermissionSummary(list[i])))
      else NoneFound
    }

    /** `fetchSubAdmins` sending its request (on mount, and after a create or delete). */
    method StartFetch()
      modifies this`loading
      ensures loading
    {
      loading := true;
    }

    /**
     * `fetchSubAdmins` receiving its reply: the list is replaced only by a
     * reply with a truthy `success` and an array `data`. Reading a property
     * of a `null` body throws and is caught. Loading ends on every path.
     */
    method FinishFetch(response: Response)
      modifies this`subAdmins, this`loading
      ensures !loading
      ensures (response.Reply? && !Nullish(response.body)
               && Truthy(Get(response.body, "success")) && Get(response.body, "data").Arr?) ==>
        subAdmins == Get(response.body, "data").items
      ensures !(response.Reply? && !Nullish(response.body)
                && Truthy(Get(response.body, "success")) && Get(response.body, "data").Arr?) ==>
        subAdmins == old(subAdmins)
    {
      if response.Reply? && !Nullish(response.body) {
        var data := response.body;
        if Truthy(Get(data, "success")) && Get(data, "data").Arr? {
          subAdmins := Get(data, "data").items;
        }
      }
      loading := false;
    }

    /** The "Add SubAdmin" button. */
    method OpenForm()
      modifies this`showForm
      ensures showForm
    {
      showForm := true;
    }

    /** The close button and the form's Cancel button. */
    method CloseForm()
      modifies this`showForm
      ensures !showForm
    {
      showForm := false;
    }

    /**
     * `handleCreate`: the form record plus `createdBy` is sent; a reply with a
     * truthy `success` closes the form and starts a refetch, anything else
     * leaves the page as it was.
     */
    method HandleCreate(formData: Entries, response: Response)
      modifies this`showForm, this`loading, this`createBodies
      ensures createBodies == old(createBodies) + [Put(formData, CreatedByKey, Str(CreatedByValue))]
      ensures (response.Reply? && !Nullish(response.body) && Truthy(Get(response.body, "success"))) ==>
        !showForm && loading
      ensures !(response.Reply? && !Nullish(response.body) && Truthy(Get(response.body, "success"))) ==>
        showForm == old(showForm) && loading == old(loading)
    {
      createBodies := createBodies + [Put(formData, CreatedByKey, Str(CreatedByValue))];
      if response.Reply? && !Nullish(response.body) && Truthy(Get(response.body, "success")) {
        showForm := false;
        StartFetch();
      }
    }

    /**
     * `handleDelete`: only after the user confirms is the request sent; once it
     * completes (whatever its status) the list is refetched.
     */
    method HandleDelete(id: JsValue, confirmed: bool, response: Response)
      modifies this`loading, this`deletedIds
      ensures !confirmed ==> deletedIds == old(deletedIds) && loading == old(loading)
      ensures confirmed ==> deletedIds == old(deletedIds) + [id]
      ensures confirmed && response.Reply? ==> loading
      ensures confirmed && response.Thrown? ==> loading == old(loading)
    {
      if !confirmed {
        return;
      }
      deletedIds := deletedIds + [id];
      if response.Reply? {
        StartFetch();
      }
    }
  }
}
