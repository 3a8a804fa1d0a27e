/**
 * The edit-service form: a draft of seven fields seeded from the service, the
 * change handler, and the record handed to `updateService` after the PUT.
 */
module EditService {
  import opened Base
  import opened Records

  const UpdateFailed: string := "Failed to update service"

  /** The fields of the draft, which are also the names of the form's inputs. */
  const DraftKeys: set<string> := {
    "service_title", "description", "service_type", "service_price",
    "service_duration", "category_id", "service_image"}

  /** The draft the form opens with: each field the service's value when that
      is truthy, else "". */
  function InitialDraft(service: Record): (d: Record)
    ensures d.Keys == DraftKeys
    ensures forall k :: k in DraftKeys && Truthy(Get(service, k)) ==> Get(d, k) == Get(service, k)
    ensures forall k :: k in DraftKeys && !Truthy(Get(service, k)) ==> Get(d, k) == Some(Str(""))
  {
    map k | k in DraftKeys :: Or(Get(service, k), Str(""))
  }

  /** The record `updateService` receives: `{ ...service, ...formData }`. */
  function Updated(service: Record, draft: Record): (r: Record)
    ensures r.Keys == service.Keys + draft.Keys
  {
    Spread(service, draft)
  }

  /** The form's state; `service` is the record being edited. */
  class EditServiceForm {
    const service: Record
    var formData: Record
    var error: string

    constructor(service: Record)
      ensures this.service == service
      ensures formData == InitialDraft(service) && error == ""
    {
      this.service := service;
      formData := InitialDraft(service);
      error := "";
    }

    /** `handleChange` for the input named `name`. */
    method Change(name: string, value: string)
      modifies this
      ensures formData == Assign(old(formData), name, Str(value))
      ensures error == old(error)
    {
      formData := Assign(formData, name, Str(value));
    }

    /**
     * `handleSubmit`. `sent` is the draft posted as JSON to the service's own
     * path, `updated` the record handed to `updateService` (`None`: not
     * called) and `closed` whether `closeModal` was called. The server's body
     * is not read.
     */
    method Submit(reply: Reply<Record>) returns (path: string, sent: Record, updated: Option<Record>, closed: bool)
      modifies this
      ensures path == "/services/" + ToText(Get(service, "service_id"))
      ensures sent == formData && formData == old(formData)
      ensures reply.Success? ==> updated == Some(Updated(service, formData)) && closed && error == old(error)
      ensures !reply.Success? ==> updated == None && !closed && error == FixedMessage(reply, UpdateFailed)
    {
      path := "/services/" + ToText(Get(service, "service_id"));
      sent := formData;
      if reply.Success? {
        updated := Some(Updated(service, formData));
        closed := true;
      } else {
        updated := None;
        closed := false;
        error := FixedMessage(reply, UpdateFailed);
      }
    }
  }

  /** Editing an input keeps the draft's fields: the draft always has exactly
      the seven fields. */
  lemma ChangeKeepsFields(draft: Record, name: string, value: string)
    requires draft.Keys == DraftKeys && name in DraftKeys
    ensures Assign(draft, name, Str(value)).Keys == DraftKeys
  {
  }

  /** The update takes every draft field from the draft and keeps every other
      property of the service, its id included. */
  lemma UpdateKeepsOtherProperties(service: Record, draft: Record)
    requires draft.Keys == DraftKeys
    ensures forall k :: k in DraftKeys ==> Get(Updated(service, draft), k) == Get(draft, k)
    ensures forall k :: k !in DraftKeys ==> Get(Updated(service, draft), k) == Get(service, k)
    ensures Get(Updated(service, draft), "service_id") == Get(service, "service_id")
  {
    assert "service_id" !in DraftKeys;
  }

  /** Saving without edits changes only the draft fields the service had
      falsy, which become "". */
  lemma SaveWithoutEdits(service: Record)
    ensures forall k :: Truthy(Get(service, k)) ==> Get(Updated(service, InitialDraft(service)), k) == Get(service, k)
    ensures forall k :: k in DraftKeys && !Truthy(Get(service, k)) ==>
              Get(Updated(service, InitialDraft(service)), k) == Some(Str(""))
  {
    var d := InitialDraft(service);
    forall k | Truthy(Get(service, k))
      ensures Get(Updated(service, d), k) == Get(service, k)
    {
      if k in DraftKeys {
        assert Get(d, k) == Get(service, k);
      }
    }
  }
}
