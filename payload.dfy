/** The inbound webhook body (`StoneWebhook`, main.py) and the validation
    that the web framework applies before the handler runs. */
module Payload {
  import opened Wrappers
  import opened Json

  /** A validated webhook: the five declared fields with their declared types.
      `type` is a Dafny keyword, so the field is called eventType. */
  datatype StoneWebhook = StoneWebhook(
    id: string,
    account: Dict,
    eventType: string,
    createdAt: string,
    data: Dict)

  /** The five field names of the body, as they appear in JSON. */
  const Fields: set<string> := {"id", "account", "type", "created_at", "data"}

  /** `webhook_data.dict()`: the validated webhook as a JSON object; this is
      the payload stored in the raw-event log. */
  function AsDict(w: StoneWebhook): Dict
  {
    map["id" := Some(Str(w.id)),
        "account" := Some(Obj(w.account)),
        "type" := Some(Str(w.eventType)),
        "created_at" := Some(Str(w.createdAt)),
        "data" := Some(Obj(w.data))]
  }

  /** Validation of a decoded body: every one of the five fields present with
      its declared type (strings for id, type and created_at, objects for
      account and data); any other key is dropped. None is the framework's
      rejection, which happens before the handler is called. */
  function Validate(body: Dict): (r: Option<StoneWebhook>)
    ensures r.Some? <==>
      && Text(Get(body, "id")).Some?
      && Text(Get(body, "type")).Some?
      && Text(Get(body, "created_at")).Some?
      && Get(body, "account").Some? && Get(body, "account").value.Obj?
      && Get(body, "data").Some? && Get(body, "data").value.Obj?
  {
    match (Get(body, "id"), Get(body, "account"), Get(body, "type"), Get(body, "created_at"), Get(body, "data"))
    case (Some(Str(id)), Some(Obj(account)), Some(Str(t)), Some(Str(createdAt)), Some(Obj(data))) =>
      Some(StoneWebhook(id, account, t, createdAt, data))
    case _ => None
  }

  /** The stored payload decodes back to the webhook it was made from. */
  lemma ValidateAsDict(w: StoneWebhook)
    ensures Validate(AsDict(w)) == Some(w)
  {
  }

  /** A validated webhook keeps exactly the five declared fields of the body:
      its dict agrees with the body on those keys and has no other key. */
  lemma AsDictValidate(body: Dict, w: StoneWebhook)
    requires Validate(body) == Some(w)
    ensures AsDict(w).Keys == Fields
    ensures forall k :: k in Fields ==> Get(AsDict(w), k) == Get(body, k)
  {
  }
}
