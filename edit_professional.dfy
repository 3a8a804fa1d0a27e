/**
 * The edit-professional form: a draft seeded from the professional with fixed
 * defaults, the change and file handlers, the form data it sends and the
 * record it hands to `updateProfessional`.
 */
module EditProfessional {
  import opened Base
  import opened Text
  import opened Records

  const UpdateFailed: string := "Failed to update professional"
  const FetchFailed: string := "Failed to fetch services or users"
  const ImageOnly: string := "Only JPEG, PNG, or JPG images are allowed"

  /** The file types the picker accepts. */
  const AllowedTypes: seq<string> := ["image/jpeg", "image/png", "image/jpg"]

  /** The draft the form opens with. The status falls back to `'pending'`, the
      document type is always `'PAN Card'` and no file is chosen yet. */
  function InitialDraft(p: Record): (d: Record)
    ensures d.Keys == {"service_id", "user_id", "status", "uploaded_file", "document_type", "bio", "experience_years"}
    ensures Get(d, "status") == Some(Or(Get(p, "status"), Str("pending")))
    ensures Get(d, "document_type") == Some(Str("PAN Card"))
    ensures Get(d, "uploaded_file") == Some(Null)
    ensures forall k :: k in {"service_id", "user_id", "bio", "experience_years"} ==>
              Get(d, k) == Some(Or(Get(p, k), Str("")))
  {
    map[
      "service_id" := Or(Get(p, "service_id"), Str("")),
      "user_id" := Or(Get(p, "user_id"), Str("")),
      "status" := Or(Get(p, "status"), Str("pending")),
      "uploaded_file" := Null,
      "document_type" := Str("PAN Card"),
      "bio" := Or(Get(p, "bio"), Str("")),
      "experience_years" := Or(Get(p, "experience_years"), Str(""))]
  }

  /** `dataUrl.split(',')[1]`: the text after the first comma, up to the next
      one, and `undefined` when there is no comma. */
  function AfterFirstComma(dataUrl: string): (r: Option<string>)
    ensures r.Some? ==> ',' !in r.value
  {
    var pieces := Split(dataUrl, ',');
    if |pieces| > 1 then Some(pieces[1]) else None
  }

  /** The form data `handleSubmit` sends, in order: the six fields always,
      `bio` and `experience_years` as "" when falsy, then the file's base64
      part only when a file was chosen. */
  function Payload(d: Record): (r: seq<Entry>)
  {
    [Entry("service_id", ToText(Get(d, "service_id"))),
     Entry("user_id", ToText(Get(d, "user_id"))),
     Entry("status", ToText(Get(d, "status"))),
     Entry("document_type", ToText(Get(d, "document_type"))),
     Entry("bio", ToText(Some(Or(Get(d, "bio"), Str(""))))),
     Entry("experience_years", ToText(Some(Or(Get(d, "experience_years"), Str("")))))] +
    (if Truthy(Get(d, "uploaded_file"))
     then [Entry("uploaded_file", FileText(AfterFirstComma(ToText(Get(d, "uploaded_file")))))]
     else [])
  }

  /** What `FormData.append` stores for a piece that may be `undefined`. */
  function FileText(piece: Option<string>): string {
    match piece
    case Some(t) => t
    case None => "undefined"
  }

  /** The appends of `handleSubmit` to its `FormData`, one entry at a time. */
  method BuildPayload(d: Record) returns (formData: seq<Entry>)
    ensures formData == Payload(d)
  {
    formData := [];
    formData := formData + [Entry("service_id", ToText(Get(d, "service_id")))];
    formData := formData + [Entry("user_id", ToText(Get(d, "user_id")))];
    formData := formData + [Entry("status", ToText(Get(d, "status")))];
    formData := formData + [Entry("document_type", ToText(Get(d, "document_type")))];
    formData := formData + [Entry("bio", ToText(Some(Or(Get(d, "bio"), Str("")))))];
    formData := formData + [Entry("experience_years", ToText(Some(Or(Get(d, "experience_years"), Str("")))))];
    if Truthy(Get(d, "uploaded_file")) {
      var base64String := AfterFirstComma(ToText(Get(d, "uploaded_file")));
      formData := formData + [Entry("uploaded_file", FileText(base64String))];
    }
  }

  /** A file chosen in the picker: its MIME type and the data URL the reader
      produces for it. */
  datatype PickedFile = PickedFile(mimeType: string, dataUrl: string)

  /** Everything the form keeps in its state hooks. */
  datatype FormState = FormState(formData: Record, services: seq<Record>, users: seq<Record>,
                                 error: string, preview: Value)

  /** The form's state; `professional` is the record being edited. */
  class EditProfessionalForm {
    const professional: Record
    var formData: Record
    var services: seq<Record>
    var users: seq<Record>
    var error: string
    var preview: Value

    function State(): FormState
      reads this
    {
      FormState(formData, services, users, error, preview)
    }

    constructor(professional: Record)
      ensures this.professional == professional
      ensures State() == FormState(InitialDraft(professional), [], [], "", Or(Get(professional, "uploaded_file"), Null))
    {
      this.professional := professional;
      formData := InitialDraft(professional);
      services, users := [], [];
      error := "";
      preview := Or(Get(professional, "uploaded_file"), Null);
    }

    /**
     * `fetchServicesAndUsers`, run on mount. A list is taken from an ok
     * response and a non-ok one is skipped; a request that throws sets the
     * message, and when the first one throws the second is never made.
     */
    method Fetched(serviceReply: Reply<seq<Record>>, userReply: Reply<seq<Record>>)
      modifies this
      ensures serviceReply.Thrown? ==> State() == old(State()).(error := FetchFailed)
      ensures !serviceReply.Thrown? ==>
                State() == old(State()).(
                  services := if serviceReply.Success? then serviceReply.body else old(services),
                  users := if userReply.Success? then userReply.body else old(users),
                  error := if userReply.Thrown? then FetchFailed else old(error))
    {
      if serviceReply.Thrown? {
        error := FetchFailed;
        return;
      }
      if serviceReply.Success? {
        services := serviceReply.body;
      }
      if userReply.Thrown? {
        error := FetchFailed;
        return;
      }
      if userReply.Success? {
        users := userReply.body;
      }
    }

    /** `handleChange` for the input named `name`. */
    method Change(name: string, value: string)
      modifies this
      ensures State() == old(State()).(formData := Assign(old(formData), name, Str(value)))
    {
      formData := Assign(formData, name, Str(value));
    }

    /** `handleFileChange`, with the reader's result taken as already loaded:
        an image of an allowed type becomes the draft's file and the preview;
        any other type only sets the message. */
    method PickFile(file: Option<PickedFile>)
      modifies this
      ensures file.None? ==> State() == old(State())
      ensures file.Some? && file.value.mimeType !in AllowedTypes ==>
                State() == old(State()).(error := ImageOnly)
      ensures file.Some? && file.value.mimeType in AllowedTypes ==>
                State() == old(State()).(
                  formData := Assign(old(formData), "uploaded_file", Str(file.value.dataUrl)),
                  preview := Str(file.value.dataUrl))
    {
      if file.Some? {
        if file.value.mimeType !in AllowedTypes {
          error := ImageOnly;
          return;
        }
        formData := Assign(formData, "uploaded_file", Str(file.value.dataUrl));
        preview := Str(file.value.dataUrl);
      }
    }

    /**
     * `handleSubmit`. `sent` is the form data sent to the professional's own
     * path, `updated` the record handed to `updateProfessional` (`None`: not
     * called) and `closed` whether `closeModal` was called. The record is the
     * server's answer, not the draft.
     */
    method Submit(reply: Reply<Record>) returns (path: string, sent: seq<Entry>, updated: Option<Record>, closed: bool)
      modifies this
      ensures path == "/professionals/" + ToText(Get(professional, "professional_id"))
      ensures sent == Payload(old(formData))
      ensures reply.Success? ==> updated == Some(reply.body) && closed && State() == old(State())
      ensures !reply.Success? ==>
                updated == None && !closed && State() == old(State()).(error := FixedMessage(reply, UpdateFailed))
    {
      path := "/professionals/" + ToText(Get(professional, "professional_id"));
      sent := BuildPayload(formData);
      if reply.Success? {
        updated := Some(reply.body);
        closed := true;
      } else {
        updated := None;
        closed := false;
        error := FixedMessage(reply, UpdateFailed);
      }
    }
  }

  /** The six fields are always sent, in order, and the file exactly when one
      was chosen; an absent bio or experience is sent as "". */
  lemma PayloadFields(d: Record)
    ensures Names(Payload(d))[..6] == ["service_id", "user_id", "status", "document_type", "bio", "experience_years"]
    ensures |Payload(d)| == if Truthy(Get(d, "uploaded_file")) then 7 else 6
    ensures Truthy(Get(d, "uploaded_file")) ==> Payload(d)[6].name == "uploaded_file"
    ensures !Truthy(Get(d, "bio")) ==> Payload(d)[4].value == ""
    ensures !Truthy(Get(d, "experience_years")) ==> Payload(d)[5].value == ""
  {
  }

  /** The form opens on a draft that sends no file, the fixed document type and
      the status `'pending'` when the professional has none. */
  lemma OpeningPayload(p: Record)
    ensures |Payload(InitialDraft(p))| == 6
    ensures Payload(InitialDraft(p))[3] == Entry("document_type", "PAN Card")
    ensures !Truthy(Get(p, "status")) ==> Payload(InitialDraft(p))[2] == Entry("status", "pending")
  {
  }

  /** A data URL's base64 part, which holds no comma, is exactly what is sent
      for the chosen file. */
  lemma SentFileIsBase64(header: string, data: string)
    requires ',' !in header && ',' !in data
    ensures AfterFirstComma(header + "," + data) == Some(data)
  {
    assert header + "," + data == header + [','] + data;
    SplitAtSeparator(header, ',', data);
    SplitWithoutSeparator(data, ',');
  }

  /** A data URL without a comma has no second piece: the file is sent as the
      text "undefined". */
  lemma NoCommaSendsUndefined(dataUrl: string)
    requires ',' !in dataUrl
    ensures AfterFirstComma(dataUrl) == None
    ensures FileText(AfterFirstComma(dataUrl)) == "undefined"
  {
    SplitWithoutSeparator(dataUrl, ',');
  }

  /** A chosen image of an allowed type ends up in the form data as the text
      after the data URL's first comma. */
  lemma PickedFileIsSent(d: Record, header: string, data: string)
    requires ',' !in header && ',' !in data
    ensures Payload(Assign(d, "uploaded_file", Str(header + "," + data)))[6] == Entry("uploaded_file", data)
  {
    SentFileIsBase64(header, data);
  }
}
