/**
 * The add-service form: its checks, in the order it runs them, the form data
 * it posts and the record it hands to `addService` once the server answers.
 */
module AddService {
  import opened Base
  import opened Text
  import opened Records
  import opened ListCache
  import Json

  const AllFieldsRequired: string := "All fields are required"
  const DescriptionEmpty: string := "Description cannot be empty"
  const DurationInvalid: string := "Duration must be a positive number of minutes (e.g., 60)"
  const CreateFailed: string := "Failed to create service"
  const Added: string := "Service added successfully"

  /** The text of the form's inputs. */
  datatype Draft = Draft(
    title: string, description: string, serviceType: string, price: string,
    duration: string, categoryId: string, image: string, location: string)

  /** Every input except the location holds some text. */
  predicate AllFilled(d: Draft) {
    d.title != "" && d.description != "" && d.serviceType != "" && d.price != "" &&
    d.duration != "" && d.categoryId != "" && d.image != ""
  }

  /** `description.split('\n').filter(item => item.trim() !== '')`. */
  function DescriptionLines(description: string): (r: seq<string>)
    ensures forall line :: line in r <==> line in Split(description, '\n') && NonBlank(line)
  {
    Filter(Split(description, '\n'), NonBlank)
  }

  /** What the checks establish: the kept lines and the number of minutes. */
  datatype Checked = Checked(lines: seq<string>, minutes: int)

  /** The three checks of `handleSubmit`, in order; the first that fails gives
      the message. */
  function Validate(d: Draft): (r: Result<Checked>)
    ensures r.Ok? <==>
              AllFilled(d) && DescriptionLines(d.description) != [] &&
              ParseInt(d.duration).Some? && ParseInt(d.duration).value > 0
    ensures r.Ok? ==> r.value.lines == DescriptionLines(d.description) &&
                      Some(r.value.minutes) == ParseInt(d.duration) && r.value.minutes > 0
    ensures !AllFilled(d) ==> r == Err(AllFieldsRequired)
    ensures AllFilled(d) && DescriptionLines(d.description) == [] ==> r == Err(DescriptionEmpty)
    ensures AllFilled(d) && DescriptionLines(d.description) != [] &&
            (ParseInt(d.duration).None? || ParseInt(d.duration).value <= 0)
            ==> r == Err(DurationInvalid)
  {
    if !AllFilled(d) then Err(AllFieldsRequired)
    else
      var lines := DescriptionLines(d.description);
      if lines == [] then Err(DescriptionEmpty)
      else match ParseInt(d.duration)
        case None => Err(DurationInvalid)
        case Some(totalMinutes) =>
          if totalMinutes <= 0 then Err(DurationInvalid) else Ok(Checked(lines, totalMinutes))
  }

  /** The form data `handleSubmit` posts, in the order it appends the entries:
      the inputs as typed, except the description, sent as the JSON text of the
      kept lines, the duration, sent as the decimal text of the number read, and
      the location, sent lower-cased. */
  function Payload(d: Draft, c: Checked): (r: seq<Entry>)
  {
    [Entry("service_title", d.title),
     Entry("description", Json.StringifyStrings(c.lines)),
     Entry("service_type", d.serviceType),
     Entry("service_price", d.price),
     Entry("service_duration", IntToString(c.minutes)),
     Entry("category_id", d.categoryId),
     Entry("service_image", d.image),
     Entry("location", Lower(d.location))]
  }

  /** `parseInt(categoryId)`. */
  function CategoryValue(categoryId: string): Value {
    ParseIntValue(Some(Str(categoryId)))
  }

  /** The appends of `handleSubmit` to its `FormData`, one entry at a time. */
  method BuildPayload(d: Draft, c: Checked) returns (formData: seq<Entry>)
    ensures formData == Payload(d, c)
  {
    formData := [];
    formData := formData + [Entry("service_title", d.title)];
    formData := formData + [Entry("description", Json.StringifyStrings(c.lines))];
    formData := formData + [Entry("service_type", d.serviceType)];
    formData := formData + [Entry("service_price", d.price)];
    formData := formData + [Entry("service_duration", IntToString(c.minutes))];
    formData := formData + [Entry("category_id", d.categoryId)];
    formData := formData + [Entry("service_image", d.image)];
    formData := formData + [Entry("location", Lower(d.location))];
  }

  /** The record handed to `addService`, with `category` for
      `parseInt(categoryId)`: it carries the server's id, the kept lines as a
      list, the duration as a number and the active flag, and has no location. */
  function NewService(d: Draft, c: Checked, category: Value, body: Record): (r: Record)
    ensures Get(r, "service_id") == Get(body, "service_id")
    ensures Get(r, "description") == Some(Strings(c.lines))
    ensures Get(r, "service_duration") == Some(Int(c.minutes))
    ensures Get(r, "is_active") == Some(Bool(true))
    ensures Get(r, "category_id") == Some(category)
    ensures Get(r, "location") == None
  {
    var fields := map[
      "service_title" := Str(d.title),
      "description" := Strings(c.lines),
      "service_type" := Str(d.serviceType),
      "service_price" := Str(d.price),
      "service_duration" := Int(c.minutes),
      "category_id" := category,
      "service_image" := Str(d.image),
      "is_active" := Bool(true)];
    if "service_id" in body then fields["service_id" := body["service_id"]] else fields
  }

  /** A category chosen in the select, whose values are decimal ids, is stored
      as that number. */
  lemma CategoryOfSelect(n: nat)
    ensures CategoryValue(NatToString(n)) == Int(n)
  {
    ParseIntOfNatPrefix(n, "");
    assert NatToString(n) + "" == NatToString(n);
  }

  /** The form's state. */
  class AddServiceForm {
    var draft: Draft
    var message: string
    var error: string
    var isSubmitted: bool

    constructor()
      ensures draft == Draft("", "", "", "", "", "", "", "")
      ensures message == "" && error == "" && !isSubmitted
    {
      draft := Draft("", "", "", "", "", "", "", "");
      message := "";
      error := "";
      isSubmitted := false;
    }

    /** The inputs' change handlers, which each store the text typed. */
    method Edit(d: Draft)
      modifies this
      ensures draft == d
      ensures message == old(message) && error == old(error) && isSubmitted == old(isSubmitted)
    {
      draft := d;
    }

    /**
     * `handleSubmit`. `reply` is what the POST would end in; it is only read
     * when the checks pass. `sent` is the form data posted (`None`: nothing was
     * sent) and `added` the record handed to `addService` (`None`: not called).
     */
    method Submit(reply: Reply<Record>) returns (sent: Option<seq<Entry>>, added: Option<Record>)
      modifies this
      ensures draft == old(draft)
      ensures Validate(draft).Err? ==>
                sent == None && added == None && error == Validate(draft).message &&
                message == "" && isSubmitted == old(isSubmitted)
      ensures Validate(draft).Ok? ==> sent == Some(Payload(draft, Validate(draft).value))
      ensures Validate(draft).Ok? && reply.Success? ==>
                added == Some(NewService(draft, Validate(draft).value, CategoryValue(draft.categoryId), reply.body)) &&
                message == Added && error == "" && isSubmitted
      ensures Validate(draft).Ok? && !reply.Success? ==>
                added == None && error == ServerMessage(reply, CreateFailed) &&
                message == "" && isSubmitted == old(isSubmitted)
    {
      message := "";
      error := "";
      var checked := Validate(draft);
      if checked.Err? {
        error := checked.message;
        return None, None;
      }
      var c := checked.value;
      var formData := BuildPayload(draft, c);
      sent := Some(formData);
      if reply.Success? {
        added := Some(NewService(draft, c, CategoryValue(draft.categoryId), reply.body));
        message := Added;
        isSubmitted := true;
      } else {
        added := None;
        error := ServerMessage(reply, CreateFailed);
      }
    }
  }

  /** The form data carries the eight fields in order; the description, the
      duration and the location are sent in their converted forms, the rest as
      typed. */
  lemma PayloadFields(d: Draft, c: Checked)
    ensures Names(Payload(d, c)) == [
      "service_title", "description", "service_type", "service_price",
      "service_duration", "category_id", "service_image", "location"]
    ensures Payload(d, c)[1].value == Json.StringifyStrings(c.lines)
    ensures Payload(d, c)[4].value == IntToString(c.minutes)
    ensures Payload(d, c)[7].value == Lower(d.location)
  {
  }

  /** The duration the server receives reads back, through `parseInt`, as the
      number of minutes the form accepted, and is written without leading zeros
      or sign. */
  lemma SentDurationReadsBack(d: Draft)
    requires Validate(d).Ok?
    ensures ParseInt(IntToString(Validate(d).value.minutes)) == Some(Validate(d).value.minutes)
    ensures IntToString(Validate(d).value.minutes) == NatToString(Validate(d).value.minutes)
    ensures NatToString(Validate(d).value.minutes)[0] != '0'
  {
    ParseIntOfIntToString(Validate(d).value.minutes);
  }

  /** The description the server receives reads back as the kept lines. */
  lemma SentDescriptionReadsBack(d: Draft)
    requires Validate(d).Ok?
    ensures Json.ParseStrings(Json.StringifyStrings(Validate(d).value.lines)) == Some(DescriptionLines(d.description))
  {
  }

  /** The description is rejected as empty exactly when it is all white space
      and line breaks. */
  lemma DescriptionEmptyIffBlank(description: string)
    ensures DescriptionLines(description) == [] <==> AllSpaces(description)
  {
    var pieces := Split(description, '\n');
    if AllSpaces(description) {
      SplitOfSpaces(description, '\n');
      forall line | line in pieces ensures !NonBlank(line) {
        TrimEmptyIffSpaces(line);
      }
      FilterNone(pieces, NonBlank);
    } else if forall line :: line in pieces ==> !NonBlank(line) {
      forall k | 0 <= k < |pieces| ensures AllSpaces(pieces[k]) {
        assert pieces[k] in pieces;
        TrimEmptyIffSpaces(pieces[k]);
      }
      JoinOfSpaces(pieces, '\n');
      JoinSplit(description, '\n');
    } else {
      var line :| line in pieces && NonBlank(line);
      assert line in DescriptionLines(description);
    }
  }

  /** The kept lines keep their order: the lines of two descriptions joined by a
      line break are the lines of the first followed by those of the second. */
  lemma DescriptionLinesConcat(a: string, b: string)
    ensures DescriptionLines(a + "\n" + b) == DescriptionLines(a) + DescriptionLines(b)
  {
    assert a + "\n" + b == a + ['\n'] + b;
    SplitConcat(a, '\n', b);
    FilterConcat(Split(a, '\n'), Split(b, '\n'), NonBlank);
  }
}
