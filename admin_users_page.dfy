/** The admin page's user dialog: the form it edits, the checks it makes before
    submitting, the request body it builds, and the modal's state. */
module AdminUsersPage {
  import opened Js
  import Directory

  datatype FormMode = CreateMode | EditMode

  /** A row of the directory as the page types it. */
  datatype AdminUser = AdminUser(
    id: string, name: Option<string>, email: string, role: string,
    number: Option<string>, extensionId: Option<string>, host: Option<string>,
    port: Option<int>, secret: Option<string>)

  /** The dialog's fields, all text; `id` is set only when editing. */
  datatype UserForm = UserForm(
    id: Option<string>, name: string, email: string, password: string, role: string,
    number: string, extensionId: string, host: string, port: string, secret: string)

  datatype FormField =
    | IdField | NameField | EmailField | PasswordField | RoleField
    | NumberField | ExtensionIdField | HostField | PortField | SecretField

  /** `emptyForm` */
  const EmptyForm := UserForm(None, "", "", "", "user", "", "", "", "", "")

  const PasswordRequired := "Password is required for new users."
  const MissingIdentifier := "Missing user identifier."

  /** `text ?? ""` */
  function OrEmpty(text: Option<string>): string {
    if text.Some? then text.value else ""
  }

  /** The form `openEditModal` fills in from a row: a blank password, missing
      text as "", and the port as its decimal string unless it is missing or 0. */
  function EditForm(u: AdminUser): (f: UserForm)
    ensures f.id == Some(u.id) && f.email == u.email && f.role == u.role
    ensures f.password == ""
    ensures u.name.Some? ==> f.name == u.name.value
    ensures u.number.Some? ==> f.number == u.number.value
    ensures u.extensionId.Some? ==> f.extensionId == u.extensionId.value
    ensures u.host.Some? ==> f.host == u.host.value
    ensures u.secret.Some? ==> f.secret == u.secret.value
    ensures u.name.None? ==> f.name == ""
    ensures u.number.None? ==> f.number == ""
    ensures u.extensionId.None? ==> f.extensionId == ""
    ensures u.host.None? ==> f.host == ""
    ensures u.secret.None? ==> f.secret == ""
    ensures f.port == "" <==> u.port.None? || u.port == Some(0)
    ensures u.port.Some? && u.port.value != 0 ==> f.port == IntToDecimal(u.port.value)
    ensures u.port.Some? && u.port.value != 0 ==> ParseInt10(f.port) == Some(u.port.value)
  {
    var port := if u.port.Some? && u.port.value != 0 then IntToDecimal(u.port.value) else "";
    ParseIntOfDecimal(if u.port.Some? then u.port.value else 0);
    UserForm(Some(u.id), OrEmpty(u.name), u.email, "", u.role,
      OrEmpty(u.number), OrEmpty(u.extensionId), OrEmpty(u.host), port, OrEmpty(u.secret))
  }

  /** The text of `field` in `f` (`None` for a missing id). */
  function FieldValue(f: UserForm, field: FormField): Option<string> {
    match field
    case IdField => f.id
    case NameField => Some(f.name)
    case EmailField => Some(f.email)
    case PasswordField => Some(f.password)
    case RoleField => Some(f.role)
    case NumberField => Some(f.number)
    case ExtensionIdField => Some(f.extensionId)
    case HostField => Some(f.host)
    case PortField => Some(f.port)
    case SecretField => Some(f.secret)
  }

  /** `{ ...prev, [field]: value }` */
  function WithField(f: UserForm, field: FormField, value: string): (r: UserForm)
    ensures FieldValue(r, field) == Some(value)
    ensures forall other :: other != field ==> FieldValue(r, other) == FieldValue(f, other)
  {
    match field
    case IdField => f.(id := Some(value))
    case NameField => f.(name := value)
    case EmailField => f.(email := value)
    case PasswordField => f.(password := value)
    case RoleField => f.(role := value)
    case NumberField => f.(number := value)
    case ExtensionIdField => f.(extensionId := value)
    case HostField => f.(host := value)
    case PortField => f.(port := value)
    case SecretField => f.(secret := value)
  }

  /** `text || undefined` */
  function OmitEmpty(text: string): Value {
    if text == "" then Undefined else Str(text)
  }

  /** `port ? Number.parseInt(port, 10) : undefined`, as the JSON body carries
      it: NaN is sent as null. */
  function PortPayload(port: string): (v: Value)
    ensures v.Undefined? <==> port == ""
    ensures v.Null? <==> port != "" && ParseInt10(port).None?
    ensures v.Num? ==> ParseInt10(port) == Some(v.n)
    ensures !v.Str?
  {
    if port == "" then Undefined
    else match ParseInt10(port)
      case Some(n) => Num(n)
      case None => Null
  }

  /** `basePayload`, with `password` added only when one was typed. */
  function BasePayload(f: UserForm): (b: Directory.UserBody)
    ensures b.id == Undefined
    ensures b.email == Str(f.email) && b.role == Str(f.role)
    ensures (b.name == Undefined <==> f.name == "") && (f.name != "" ==> b.name == Str(f.name))
    ensures (b.number == Undefined <==> f.number == "") && (f.number != "" ==> b.number == Str(f.number))
    ensures (b.extensionId == Undefined <==> f.extensionId == "") && (f.extensionId != "" ==> b.extensionId == Str(f.extensionId))
    ensures (b.host == Undefined <==> f.host == "") && (f.host != "" ==> b.host == Str(f.host))
    ensures (b.secret == Undefined <==> f.secret == "") && (f.secret != "" ==> b.secret == Str(f.secret))
    ensures (b.password == Undefined <==> f.password == "") && (f.password != "" ==> b.password == Str(f.password))
    ensures b.port == Undefined <==> f.port == ""
    ensures f.port != "" && AllDigits(f.port) ==> b.port == Num(DigitsValue(f.port))
  {
    Directory.UserBody(
      Undefined, Str(f.email), OmitEmpty(f.password), OmitEmpty(f.name), Str(f.role),
      OmitEmpty(f.number), OmitEmpty(f.extensionId), OmitEmpty(f.host),
      PortPayload(f.port), OmitEmpty(f.secret))
  }

  datatype Request = Post(body: Directory.UserBody) | Put(body: Directory.UserBody)

  datatype Submission = Rejected(message: string) | Send(request: Request)

  /** What `handleSubmit` does with the form in `mode`: refuse with a message,
      or send a POST (create) or a PUT carrying the form's id (edit). */
  function Submit(mode: FormMode, f: UserForm): (s: Submission)
    ensures mode == CreateMode && f.password == "" ==> s == Rejected(PasswordRequired)
    ensures mode == EditMode && (f.id.None? || f.id.value == "") ==> s == Rejected(MissingIdentifier)
    ensures s.Rejected? <==>
      (mode == CreateMode && f.password == "") || (mode == EditMode && (f.id.None? || f.id.value == ""))
    ensures s.Send? && mode == CreateMode ==> s.request == Post(BasePayload(f))
    ensures s.Send? && mode == EditMode ==>
      f.id.Some? && s.request == Put(BasePayload(f).(id := Str(f.id.value)))
  {
    match mode
    case CreateMode =>
      if f.password == "" then Rejected(PasswordRequired) else Send(Post(BasePayload(f)))
    case EditMode =>
      if f.id.None? || f.id.value == "" then Rejected(MissingIdentifier)
      else Send(Put(BasePayload(f).(id := Str(f.id.value))))
  }

  /** A create request always carries a password, and the server stores the
      form's role as typed: the server's "user" default never applies. */
  lemma CreateRequestKeepsRole(f: UserForm, now: int)
    requires Submit(CreateMode, f).Send?
    ensures var body := Submit(CreateMode, f).request.body;
      Truthy(body.password) && Directory.NewDoc(body, now).role == Str(f.role)
  {
  }

  /** An edit with a blank password leaves the stored password as it was. */
  lemma BlankPasswordKeepsStoredPassword(f: UserForm, d: Directory.UserDoc, now: int)
    requires f.password == "" && Submit(EditMode, f).Send?
    ensures Directory.UpdatedDoc(d, Submit(EditMode, f).request.body, now).password == d.password
  {
  }

  /** Emptying a text field in the edit dialog does not clear it: the empty
      text is not sent, so the stored value stays. */
  lemma EmptiedFieldIsKept(f: UserForm, d: Directory.UserDoc, now: int)
    requires Submit(EditMode, f).Send?
    ensures var r := Directory.UpdatedDoc(d, Submit(EditMode, f).request.body, now);
      && (f.name == "" ==> r.name == d.name)
      && (f.number == "" ==> r.number == d.number)
      && (f.extensionId == "" ==> r.extensionId == d.extensionId)
      && (f.host == "" ==> r.host == d.host)
      && (f.port == "" ==> r.port == d.port)
      && (f.secret == "" ==> r.secret == d.secret)
  {
    var body := Submit(EditMode, f).request.body;
    assert body == BasePayload(f).(id := Str(f.id.value));
    Directory.UpdateKeepsOmittedFields(d, body, now);
  }

  /** `u` is how the page reads the response `p`: every text field a string,
      the port a number or null. */
  predicate Shows(p: Directory.PublicUser, u: AdminUser) {
    && p.id == u.id && p.email == Str(u.email) && p.role == Str(u.role)
    && p.name == Str(OrEmpty(u.name)) && p.number == Str(OrEmpty(u.number))
    && p.extensionId == Str(OrEmpty(u.extensionId)) && p.host == Str(OrEmpty(u.host))
    && p.secret == Str(OrEmpty(u.secret))
    && (match u.port case None => p.port == Null case Some(n) => p.port == Num(n))
  }

  /** Opening the edit dialog on a listed user and saving it untouched is a
      no-op on the server: the email check passes and the saved document is
      the stored one, `updatedAt` included. */
  lemma {:induction false} UntouchedEditIsNoOp(
    users: map<Directory.Id, Directory.UserDoc>, id: Directory.Id, u: AdminUser, now: int)
    requires id in users && Directory.UniqueEmails(users)
    requires Shows(Directory.Sanitize(id, users[id]), u)
    ensures Submit(EditMode, EditForm(u)).Send?
    ensures var body := Submit(EditMode, EditForm(u)).request.body;
      && body.id == Str(id)
      && Directory.FindById(users, body.id) == Directory.Found(id)
      && !Directory.EmailTaken(users, body.email, Some(id))
      && Directory.UpdatedDoc(users[id], body, now) == users[id]
  {
    var d := users[id];
    var f := EditForm(u);
    var body := Submit(EditMode, f).request.body;
    assert body == BasePayload(f).(id := Str(id));
    if u.port.Some? && u.port.value != 0 {
      assert body.port == Num(u.port.value);
    }
    assert Directory.AssignedFields(d, body) == d;
  }

  /** The state of the admin users page. */
  class UsersPage {
    var isModalOpen: bool
    var formMode: FormMode
    var formData: UserForm
    var formError: Option<string>
    /** The create and update mutations are in flight. */
    var createPending: bool
    var updatePending: bool

    constructor ()
      ensures !isModalOpen && formMode == CreateMode && formData == EmptyForm && formError == None
      ensures !createPending && !updatePending
    {
      isModalOpen, formMode, formData, formError := false, CreateMode, EmptyForm, None;
      createPending, updatePending := false, false;
    }

    /** `isProcessing` */
    predicate IsProcessing()
      reads this
    {
      createPending || updatePending
    }

    /** `openCreateModal` */
    method OpenCreateModal()
      modifies this`formMode, this`formData, this`formError, this`isModalOpen
      ensures formMode == CreateMode && formData == EmptyForm && formError == None && isModalOpen
    {
      formMode := CreateMode;
      formData := EmptyForm;
      formError := None;
      isModalOpen := true;
    }

    /** `openEditModal(user)` */
    method OpenEditModal(u: AdminUser)
      modifies this`formMode, this`formData, this`formError, this`isModalOpen
      ensures formMode == EditMode && formData == EditForm(u) && formError == None && isModalOpen
    {
      formMode := EditMode;
      formData := EditForm(u);
      formError := None;
      isModalOpen := true;
    }

    /** `closeModal`: ignored while a save is in flight. */
    method CloseModal()
      modifies this`isModalOpen, this`formData, this`formError
      ensures old(IsProcessing()) ==>
        isModalOpen == old(isModalOpen) && formData == old(formData) && formError == old(formError)
      ensures !old(IsProcessing()) ==> !isModalOpen && formData == EmptyForm && formError == None
    {
      if IsProcessing() {
        return;
      }
      isModalOpen := false;
      formData := EmptyForm;
      formError := None;
    }

    /** `handleFormChange(field, value)` */
    method HandleFormChange(field: FormField, value: string)
      modifies this`formData
      ensures formData == WithField(old(formData), field, value)
    {
      formData := WithField(formData, field, value);
    }

    /** `handleSubmit`: clears the error, then either reports why the form
        cannot be sent or starts the create or update mutation with its body. */
    method HandleSubmit() returns (sent: Option<Request>)
      modifies this`formError, this`createPending, this`updatePending
      ensures Submit(formMode, formData).Rejected? ==>
        && sent == None && formError == Some(Submit(formMode, formData).message)
        && createPending == old(createPending) && updatePending == old(updatePending)
      ensures Submit(formMode, formData).Send? ==>
        && sent == Some(Submit(formMode, formData).request) && formError == None
        && (formMode == CreateMode ==> createPending && updatePending == old(updatePending))
        && (formMode == EditMode ==> updatePending && createPending == old(createPending))
    {
      formError := None;
      var s := Submit(formMode, formData);
      if s.Rejected? {
        formError := Some(s.message);
        return None;
      }
      if formMode == CreateMode {
        createPending := true;
      } else {
        updatePending := true;
      }
      sent := Some(s.request);
    }

    /** The create mutation's `onSuccess`. */
    method CreateSucceeded()
      modifies this`createPending, this`isModalOpen, this`formData
      ensures !createPending && !isModalOpen && formData == EmptyForm
    {
      createPending := false;
      isModalOpen := false;
      formData := EmptyForm;
    }

    /** The update mutation's `onSuccess`. */
    method UpdateSucceeded()
      modifies this`updatePending, this`isModalOpen, this`formData
      ensures !updatePending && !isModalOpen && formData == EmptyForm
    {
      updatePending := false;
      isModalOpen := false;
      formData := EmptyForm;
    }

    /** A mutation's `onError` (and the `catch` in `handleSubmit`): the server's
        message is shown, the dialog stays open with what was typed. */
    method MutationFailed(mode: FormMode, message: string)
      modifies this`createPending, this`updatePending, this`formError
      ensures formError == Some(message)
      ensures mode == CreateMode ==> !createPending && updatePending == old(updatePending)
      ensures mode == EditMode ==> !updatePending && createPending == old(createPending)
    {
      if mode == CreateMode {
        createPending := false;
      } else {
        updatePending := false;
      }
      formError := Some(message);
    }
  }
}
