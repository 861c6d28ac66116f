/** The minimal contract a health endpoint's decoded body must meet. */
module HealthContract {
  import opened Json

  /** The three assertions of the validator, in the order it makes them. */
  datatype Assertion = IsMapping | HasStatus | StatusAllowed

  /** Either every assertion holds, or the first one that fails is reported. */
  datatype Verdict = Accepted | Rejected(failed: Assertion)

  /** The `status` values a healthy service may report. */
  const AllowedStatuses: seq<string> := ["ok", "healthy"]

  /** The validator: the body must be a mapping, hold `status`, and `status` must be `ok` or `healthy`. */
  function Validate(body: Json): (v: Verdict)
    ensures v.Accepted? <==>
      body.JObject? && "status" in body.fields
      && body.fields["status"].JString? && body.fields["status"].s in AllowedStatuses
  {
    if !body.JObject? then Rejected(IsMapping)
    else if "status" !in body.fields then Rejected(HasStatus)
    else if !(body.fields["status"].JString? && body.fields["status"].s in AllowedStatuses) then Rejected(StatusAllowed)
    else Accepted
  }

  /** A body that is not a mapping fails the first assertion. */
  lemma RejectsNonMapping(body: Json)
    requires !body.JObject?
    ensures Validate(body) == Rejected(IsMapping)
  {
  }

  /** A mapping without `status` fails the second assertion. */
  lemma RejectsMissingStatus(fields: map<string, Json>)
    requires "status" !in fields
    ensures Validate(JObject(fields)) == Rejected(HasStatus)
  {
  }

  /** A `status` other than `ok` and `healthy` fails the third assertion. */
  lemma RejectsOtherStatus(fields: map<string, Json>)
    requires "status" in fields && fields["status"] != JString("ok") && fields["status"] != JString("healthy")
    ensures Validate(JObject(fields)) == Rejected(StatusAllowed)
  {
  }

  /** Two mappings that agree on `status` get the same verdict, whatever their other keys. */
  lemma OnlyStatusMatters(f1: map<string, Json>, f2: map<string, Json>)
    requires ("status" in f1 <==> "status" in f2)
    requires "status" in f1 ==> f1["status"] == f2["status"]
    ensures Validate(JObject(f1)) == Validate(JObject(f2))
  {
  }

  /** Adding or replacing a key other than `status` never changes the verdict. */
  lemma OtherKeysIgnored(fields: map<string, Json>, key: string, value: Json)
    requires key != "status"
    ensures Validate(JObject(fields[key := value])) == Validate(JObject(fields))
  {
  }

  /** The body a healthy upstream sends is accepted; a `status` of `active` is not. */
  lemma Examples()
    ensures Validate(JObject(map["status" := JString("ok")])) == Accepted
    ensures Validate(JObject(map["status" := JString("healthy")])) == Accepted
    ensures Validate(JObject(map["status" := JString("active")])) == Rejected(StatusAllowed)
    ensures Validate(JObject(map["name" := JString("Test Merchant")])) == Rejected(HasStatus)
    ensures Validate(JArray([JString("ok")])) == Rejected(IsMapping)
  {
  }
}
