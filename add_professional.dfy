/**
 * The add-professional form: searchable pickers for a service and a user, the
 * professional it posts and records, and the nested form that creates a user
 * and selects it.
 */
module AddProfessional {
  import opened Base
  import opened Text
  import opened Records
  import opened ListCache

  const UnnamedService: string := "Unnamed Service"
  const UnnamedUser: string := "Unnamed User"
  const ProfessionalAdded: string := "Professional added successfully"
  const CreateFailed: string := "Failed to create professional"
  const AllFieldsRequired: string := "All fields are required"
  const UserCreateFailed: string := "Failed to create user"
  const ServicesFetchFailed: string := "Failed to fetch services"
  const UsersFetchFailed: string := "Failed to fetch users"

  /** The id a picker holds before anything is selected, and after its search
      text is edited. */
  const NoSelection: Option<Value> := Some(Str(""))

  /** `String(v || '')`: the text of a property, "" when it is falsy. */
  function TextOr(v: Option<Value>): (t: string)
    ensures !Truthy(v) ==> t == ""
    ensures v.Some? && v.value.Str? ==> t == v.value.text
  {
    if Truthy(v) then ToText(v) else ""
  }

  /** `` `${first_name || ''} ${last_name || ''}`.trim() ``. */
  function FullName(u: Record): string {
    Trim(TextOr(Get(u, "first_name")) + " " + TextOr(Get(u, "last_name")))
  }

  /** The service filter's test: the title contains the search text, ignoring case. */
  predicate ServiceMatches(search: string, s: Record) {
    Contains(Lower(TextOr(Get(s, "service_title"))), Lower(search))
  }

  /** The user filter's test: the full name contains the search text, ignoring case. */
  predicate UserMatches(search: string, u: Record) {
    Contains(Lower(FullName(u)), Lower(search))
  }

  /** `filteredServices`: the services whose title matches, in list order. */
  function FilteredServices(services: seq<Record>, search: string): (r: seq<Record>)
    ensures |r| <= |services|
    ensures forall s :: s in r <==> s in services && ServiceMatches(search, s)
  {
    Filter(services, s => ServiceMatches(search, s))
  }

  /** `filteredUsers`: the users whose full name matches, in list order. */
  function FilteredUsers(users: seq<Record>, search: string): (r: seq<Record>)
    ensures |r| <= |users|
    ensures forall u :: u in r <==> u in users && UserMatches(search, u)
  {
    Filter(users, u => UserMatches(search, u))
  }

  /** The search text `handleServiceSelect` shows for a chosen service. */
  function ServiceLabel(s: Record): (t: string)
    ensures !Truthy(Get(s, "service_title")) ==> t == UnnamedService
    ensures Truthy(Get(s, "service_title")) ==> t == TextOr(Get(s, "service_title"))
  {
    if Truthy(Get(s, "service_title")) then ToText(Get(s, "service_title")) else UnnamedService
  }

  /** The search text `handleUserSelect` shows for a chosen user. */
  function UserLabel(u: Record): (t: string)
    ensures t != ""
    ensures FullName(u) != "" ==> t == FullName(u)
    ensures FullName(u) == "" ==> t == UnnamedUser
  {
    if FullName(u) != "" then FullName(u) else UnnamedUser
  }

  /** The form data `handleSubmit` posts: each id only when it is set. */
  function Payload(serviceId: Option<Value>, userId: Option<Value>): (r: seq<Entry>)
  {
    (if Truthy(serviceId) then [Entry("service_id", ToText(serviceId))] else []) +
    (if Truthy(userId) then [Entry("user_id", ToText(userId))] else [])
  }

  /** The appends of `handleSubmit` to its `FormData`. */
  method BuildPayload(serviceId: Option<Value>, userId: Option<Value>) returns (formData: seq<Entry>)
    ensures formData == Payload(serviceId, userId)
  {
    formData := [];
    if Truthy(serviceId) {
      formData := formData + [Entry("service_id", ToText(serviceId))];
    }
    if Truthy(userId) {
      formData := formData + [Entry("user_id", ToText(userId))];
    }
  }

  /** `id ? parseInt(id) : null`. */
  function ParsedId(id: Option<Value>): (r: Value)
    ensures !Truthy(id) ==> r == Null
    ensures Truthy(id) ==> r == ParseIntValue(id) && (r.Int? || r.NaN?)
  {
    if Truthy(id) then ParseIntValue(id) else Null
  }

  /** The record handed to `addProfessional`: the server's id, the parsed ids
      and the creation time. */
  function NewProfessional(serviceId: Option<Value>, userId: Option<Value>, body: Record, createdAt: string): (r: Record)
    ensures Get(r, "professional_id") == Get(body, "professional_id")
    ensures Get(r, "service_id") == Some(ParsedId(serviceId))
    ensures Get(r, "user_id") == Some(ParsedId(userId))
    ensures Get(r, "created_at") == Some(Str(createdAt))
    ensures r.Keys <= {"professional_id", "service_id", "user_id", "created_at"}
  {
    var fields := map[
      "service_id" := ParsedId(serviceId),
      "user_id" := ParsedId(userId),
      "created_at" := Str(createdAt)];
    if "professional_id" in body then fields["professional_id" := body["professional_id"]] else fields
  }

  /** The inputs of the nested new-user form. */
  datatype UserDraft = UserDraft(firstName: string, lastName: string, email: string, phoneNumber: string, password: string)

  const BlankUser: UserDraft := UserDraft("", "", "", "", "")

  /** The `name` attributes of the new-user inputs. */
  datatype UserField = FirstName | LastName | Email | PhoneNumber | Password

  function Field(d: UserDraft, f: UserField): string {
    match f
    case FirstName => d.firstName
    case LastName => d.lastName
    case Email => d.email
    case PhoneNumber => d.phoneNumber
    case Password => d.password
  }

  /** `handleNewUserChange`: `{ ...prev, [name]: value }`. */
  function ChangeField(d: UserDraft, f: UserField, value: string): (r: UserDraft)
    ensures Field(r, f) == value
    ensures forall g :: g != f ==> Field(r, g) == Field(d, g)
  {
    match f
    case FirstName => d.(firstName := value)
    case LastName => d.(lastName := value)
    case Email => d.(email := value)
    case PhoneNumber => d.(phoneNumber := value)
    case Password => d.(password := value)
  }

  /** Every input of the new-user form holds some text. */
  predicate UserComplete(d: UserDraft) {
    d.firstName != "" && d.lastName != "" && d.email != "" && d.phoneNumber != "" && d.password != ""
  }

  /** The check of `handleAddUserSubmit` asks for every field of the draft. */
  lemma UserCompleteIffEveryField(d: UserDraft)
    ensures UserComplete(d) <==> forall f :: Field(d, f) != ""
  {
    if !UserComplete(d) {
      assert Field(d, FirstName) == "" || Field(d, LastName) == "" || Field(d, Email) == "" ||
             Field(d, PhoneNumber) == "" || Field(d, Password) == "";
    }
  }

  /** The user added to the cached list once the server has created it: the
      server's id, the names and contacts as typed, the `'active'` status, and
      never the password. */
  function NewUserRecord(d: UserDraft, body: Record): (r: Record)
    ensures Get(r, "user_id") == Get(body, "user_id")
    ensures Get(r, "first_name") == Some(Str(d.firstName))
    ensures Get(r, "last_name") == Some(Str(d.lastName))
    ensures Get(r, "email") == Some(Str(d.email))
    ensures Get(r, "phone_number") == Some(Str(d.phoneNumber))
    ensures Get(r, "account_status") == Some(Str("active"))
    ensures Get(r, "password") == None
  {
    var fields := map[
      "first_name" := Str(d.firstName),
      "last_name" := Str(d.lastName),
      "email" := Str(d.email),
      "phone_number" := Str(d.phoneNumber),
      "account_status" := Str("active")];
    if "user_id" in body then fields["user_id" := body["user_id"]] else fields
  }

  /** Everything the form keeps in its state hooks. */
  datatype FormState = FormState(
    serviceId: Option<Value>, userId: Option<Value>,
    services: seq<Record>, users: seq<Record>,
    serviceSearch: string, userSearch: string,
    message: string, error: string,
    showServiceDropdown: bool, showUserDropdown: bool,
    isSubmitted: bool, showAddUserForm: bool,
    newUser: UserDraft, userFormError: string)

  /** The state a freshly mounted form starts from. */
  const Mounted := FormState(NoSelection, NoSelection, [], [], "", "", "", "",
                             false, false, false, false, BlankUser, "")

  /** The form component. Its fourteen state hooks are the one `state` field;
      each handler applies the setters it calls to it at once, as React does
      when it re-renders. */
  class AddProfessionalForm {
    var state: FormState

    constructor()
      ensures state == Mounted
    {
      state := Mounted;
    }

    /** `fetchServices`, run on mount: the list on success, else the message. */
    method ServicesFetched(reply: Reply<seq<Record>>)
      modifies this
      ensures reply.Success? ==> state == old(state).(services := reply.body)
      ensures !reply.Success? ==> state == old(state).(error := FixedMessage(reply, ServicesFetchFailed))
    {
      if reply.Success? {
        state := state.(services := reply.body);
      } else {
        state := state.(error := FixedMessage(reply, ServicesFetchFailed));
      }
    }

    /** `fetchUsers`, run on mount: the list on success, else the message. */
    method UsersFetched(reply: Reply<seq<Record>>)
      modifies this
      ensures reply.Success? ==> state == old(state).(users := reply.body)
      ensures !reply.Success? ==> state == old(state).(error := FixedMessage(reply, UsersFetchFailed))
    {
      if reply.Success? {
        state := state.(users := reply.body);
      } else {
        state := state.(error := FixedMessage(reply, UsersFetchFailed));
      }
    }

    /** Typing in the service search box (`inDropdown`: the box inside the open
        list, which leaves the list as it is) drops the selected service. */
    method TypeServiceSearch(text: string, inDropdown: bool)
      modifies this
      ensures state == old(state).(
                serviceSearch := text, serviceId := NoSelection,
                showServiceDropdown := if inDropdown then old(state.showServiceDropdown) else true)
    {
      state := state.(serviceSearch := text);
      if !inDropdown {
        state := state.(showServiceDropdown := true);
      }
      state := state.(serviceId := NoSelection);
    }

    /** Typing in the user search box drops the selected user. */
    method TypeUserSearch(text: string, inDropdown: bool)
      modifies this
      ensures state == old(state).(
                userSearch := text, userId := NoSelection,
                showUserDropdown := if inDropdown then old(state.showUserDropdown) else true)
    {
      state := state.(userSearch := text);
      if !inDropdown {
        state := state.(showUserDropdown := true);
      }
      state := state.(userId := NoSelection);
    }

    /** `handleServiceSelect`. */
    method SelectService(s: Record)
      modifies this
      ensures state == old(state).(
                serviceId := Get(s, "service_id"), serviceSearch := ServiceLabel(s),
                showServiceDropdown := false)
    {
      state := state.(serviceId := Get(s, "service_id"), serviceSearch := ServiceLabel(s), showServiceDropdown := false);
    }

    /** `handleUserSelect`. */
    method SelectUser(u: Record)
      modifies this
      ensures state == old(state).(
                userId := Get(u, "user_id"), userSearch := UserLabel(u),
                showUserDropdown := false)
    {
      state := state.(userId := Get(u, "user_id"), userSearch := UserLabel(u), showUserDropdown := false);
    }

    /** The state updates of `handleSubmit` once the server has created the
        professional: the success message, and both pickers cleared. */
    method ProfessionalCreated()
      modifies this
      ensures state == old(state).(
                message := ProfessionalAdded, isSubmitted := true,
                serviceId := NoSelection, userId := NoSelection,
                serviceSearch := "", userSearch := "")
    {
      state := state.(
        message := ProfessionalAdded, isSubmitted := true,
        serviceId := NoSelection, userId := NoSelection,
        serviceSearch := "", userSearch := "");
    }

    /**
     * `handleSubmit`. There is no client-side check: the form data is always
     * posted. `reply` is what the POST ends in and `createdAt` the time
     * `new Date().toISOString()` reads.
     */
    method Submit(reply: Reply<Record>, createdAt: string) returns (sent: seq<Entry>, added: Option<Record>)
      modifies this
      ensures sent == Payload(old(state.serviceId), old(state.userId))
      ensures reply.Success? ==>
                added == Some(NewProfessional(old(state.serviceId), old(state.userId), reply.body, createdAt)) &&
                state == old(state).(
                  message := ProfessionalAdded, error := "", isSubmitted := true,
                  serviceId := NoSelection, userId := NoSelection,
                  serviceSearch := "", userSearch := "")
      ensures !reply.Success? ==>
                added == None &&
                state == old(state).(message := "", error := ServerMessage(reply, CreateFailed))
    {
      state := state.(message := "", error := "");
      sent := BuildPayload(state.serviceId, state.userId);
      if reply.Success? {
        added := Some(NewProfessional(state.serviceId, state.userId, reply.body, createdAt));
        ProfessionalCreated();
      } else {
        added := None;
        state := state.(error := ServerMessage(reply, CreateFailed));
      }
    }

    /** `handleAddNewUserClick`: the nested form replaces the pickers. */
    method OpenAddUserForm()
      modifies this
      ensures state == old(state).(showAddUserForm := true, showUserDropdown := false)
    {
      state := state.(showAddUserForm := true, showUserDropdown := false);
    }

    /** The nested form's Cancel button; what was typed stays. */
    method CancelAddUserForm()
      modifies this
      ensures state == old(state).(showAddUserForm := false)
    {
      state := state.(showAddUserForm := false);
    }

    /** `handleNewUserChange`. */
    method ChangeNewUser(f: UserField, value: string)
      modifies this
      ensures state == old(state).(newUser := ChangeField(old(state.newUser), f, value))
    {
      state := state.(newUser := ChangeField(state.newUser, f, value));
    }

    /** The state updates of `handleAddUserSubmit` once the server has created
        the user: `created` joins the list and becomes the selection, shown as
        `name`, and the nested form closes with a blank draft. */
    method UserCreated(created: Record, id: Option<Value>, name: string)
      modifies this
      ensures state == old(state).(
                users := Append(old(state.users), created), userId := id, userSearch := name,
                showAddUserForm := false, showUserDropdown := false, newUser := BlankUser)
    {
      state := state.(
        users := state.users + [created], userId := id, userSearch := name,
        showAddUserForm := false, showUserDropdown := false, newUser := BlankUser);
    }

    /**
     * `handleAddUserSubmit`. `sent` is the draft posted as JSON (`None`:
     * nothing was sent); on success the new user is appended to the list and
     * selected, and the draft is cleared.
     */
    method AddUser(reply: Reply<Record>) returns (sent: Option<UserDraft>)
      modifies this
      ensures !UserComplete(old(state.newUser)) ==>
                sent == None && state == old(state).(userFormError := AllFieldsRequired)
      ensures UserComplete(old(state.newUser)) ==> sent == Some(old(state.newUser))
      ensures UserComplete(old(state.newUser)) && reply.Success? ==>
                state == old(state).(
                  userFormError := "",
                  users := Append(old(state.users), NewUserRecord(old(state.newUser), reply.body)),
                  userId := Get(reply.body, "user_id"),
                  userSearch := Trim(old(state.newUser).firstName + " " + old(state.newUser).lastName),
                  showAddUserForm := false, showUserDropdown := false, newUser := BlankUser)
      ensures UserComplete(old(state.newUser)) && !reply.Success? ==>
                state == old(state).(userFormError := ServerMessage(reply, UserCreateFailed))
    {
      state := state.(userFormError := "");
      var d := state.newUser;
      if !UserComplete(d) {
        state := state.(userFormError := AllFieldsRequired);
        return None;
      }
      sent := Some(d);
      if reply.Success? {
        UserCreated(NewUserRecord(d, reply.body), Get(reply.body, "user_id"), Trim(d.firstName + " " + d.lastName));
      } else {
        state := state.(userFormError := ServerMessage(reply, UserCreateFailed));
      }
    }
  }

  /** The search ignores case: a search text and its lower-cased form list the
      same services and the same users. */
  lemma SearchIgnoresCase(services: seq<Record>, users: seq<Record>, search: string)
    ensures FilteredServices(services, Lower(search)) == FilteredServices(services, search)
    ensures FilteredUsers(users, Lower(search)) == FilteredUsers(users, search)
  {
    LowerIdempotent(search);
    FilterAgree(services, s => ServiceMatches(Lower(search), s), s => ServiceMatches(search, s));
    FilterAgree(users, u => UserMatches(Lower(search), u), u => UserMatches(search, u));
  }

  /** With an empty search box every service and every user is listed. */
  lemma EmptySearchListsAll(services: seq<Record>, users: seq<Record>)
    ensures FilteredServices(services, "") == services
    ensures FilteredUsers(users, "") == users
  {
    forall i | 0 <= i < |services| ensures ServiceMatches("", services[i]) {
      ContainsEmpty(Lower(TextOr(Get(services[i], "service_title"))));
    }
    forall i | 0 <= i < |users| ensures UserMatches("", users[i]) {
      ContainsEmpty(Lower(FullName(users[i])));
    }
  }

  /** The lists keep their order: filtering distributes over concatenation. */
  lemma FilterKeepsOrder(a: seq<Record>, b: seq<Record>, search: string)
    ensures FilteredServices(a + b, search) == FilteredServices(a, search) + FilteredServices(b, search)
    ensures FilteredUsers(a + b, search) == FilteredUsers(a, search) + FilteredUsers(b, search)
  {
    FilterConcat(a, b, s => ServiceMatches(search, s));
    FilterConcat(a, b, u => UserMatches(search, u));
  }

  /** Every text contains itself, ignoring case. */
  lemma ContainsSelf(t: string)
    ensures Contains(Lower(t), Lower(t))
  {
    ContainsMiddle("", Lower(t), "");
    assert "" + Lower(t) + "" == Lower(t);
  }

  /** A service picked by its title stays listed under the search text the pick
      puts in the box. */
  lemma SelectedServiceStaysListed(services: seq<Record>, s: Record)
    requires s in services && Truthy(Get(s, "service_title"))
    ensures s in FilteredServices(services, ServiceLabel(s))
  {
    ContainsSelf(ServiceLabel(s));
  }

  /** A user picked by a non-empty name stays listed under the search text the
      pick puts in the box. */
  lemma SelectedUserStaysListed(users: seq<Record>, u: Record)
    requires u in users && FullName(u) != ""
    ensures u in FilteredUsers(users, UserLabel(u))
  {
    ContainsSelf(FullName(u));
  }

  /** The user the nested form creates is listed under the search text it
      leaves in the box: its full name is the trimmed name typed. */
  lemma CreatedUserListed(users: seq<Record>, d: UserDraft, body: Record)
    requires UserComplete(d)
    ensures FullName(NewUserRecord(d, body)) == Trim(d.firstName + " " + d.lastName)
    ensures NewUserRecord(d, body) in FilteredUsers(Append(users, NewUserRecord(d, body)), Trim(d.firstName + " " + d.lastName))
  {
    var r := NewUserRecord(d, body);
    assert TextOr(Get(r, "first_name")) == d.firstName;
    assert TextOr(Get(r, "last_name")) == d.lastName;
    ContainsSelf(FullName(r));
    assert r in Append(users, r);
  }

  /** Each id is posted exactly when it is set, at most once, the service's first. */
  lemma PayloadIds(serviceId: Option<Value>, userId: Option<Value>)
    ensures "service_id" in Names(Payload(serviceId, userId)) <==> Truthy(serviceId)
    ensures "user_id" in Names(Payload(serviceId, userId)) <==> Truthy(userId)
    ensures |Payload(serviceId, userId)| <= 2
    ensures Truthy(serviceId) ==> Payload(serviceId, userId)[0] == Entry("service_id", ToText(serviceId))
  {
    var p := Payload(serviceId, userId);
    if Truthy(serviceId) {
      assert Names(p)[0] == "service_id";
    }
    if Truthy(userId) {
      assert Names(p)[|p| - 1] == "user_id";
    }
  }

  /** The recorded professional holds, for every id posted, what `parseInt`
      makes of the posted text, so the list agrees with what the server was
      sent. */
  lemma RecordAgreesWithPayload(serviceId: Option<Value>, userId: Option<Value>, body: Record, createdAt: string)
    ensures forall e :: e in Payload(serviceId, userId) ==>
              Get(NewProfessional(serviceId, userId, body, createdAt), e.name) == Some(ParseIntValue(Some(Str(e.value))))
  {
  }

  /** Ids picked from the lists, which are non-zero numbers, are recorded as
      those numbers; an id left unset is recorded as null. */
  lemma PickedIdsRecorded(serviceId: int, userId: int, body: Record, createdAt: string)
    requires serviceId != 0
    ensures Get(NewProfessional(Some(Int(serviceId)), Some(Int(userId)), body, createdAt), "service_id") == Some(Int(serviceId))
    ensures userId != 0 ==>
              Get(NewProfessional(Some(Int(serviceId)), Some(Int(userId)), body, createdAt), "user_id") == Some(Int(userId))
    ensures userId == 0 ==>
              Get(NewProfessional(Some(Int(serviceId)), Some(Int(userId)), body, createdAt), "user_id") == Some(Null)
  {
    ParseIntValueOfInt(serviceId);
    ParseIntValueOfInt(userId);
  }
}
