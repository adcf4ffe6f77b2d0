/** The remote operations of the Marketo client: looking a lead up
    (get_lead_by) and sending a lead (sync_lead). The SOAP transport is a
    parameter: a function from an operation name and its payload to a
    response or a SOAP fault. */
module MarketoClient {
  import opened Wrappers
  import opened PhpText
  import opened PhpValues
  import opened LeadAttributes
  import opened LeadRecords
  import PhpArrays

  /** The key that locates a lead: its type (IDNUM, COOKIE, EMAIL,
      SFDCCONTACTID, SFDCLEADID) and its value. */
  datatype LeadKey = LeadKey(keyType: string, keyValue: Value)

  /** The parameter object of a remote operation. */
  datatype Payload =
    | GetLeadPayload(leadKey: LeadKey)
    | SyncLeadPayload(marketoCookie: Value, returnLead: bool, leadRecord: OutboundLead)

  /** The `result` object of a remote reply: a getLead result with its
      `leadRecordList`, or a syncLead result with its other properties
      (leadId, syncStatus) and the lead record. */
  datatype Response =
    | LeadListResponse(leadRecordList: RecordField)
    | SyncResponse(fields: map<string, Value>, leadRecord: RawLead)

  /** A SOAP fault: its `faultcode`, its `faultstring`, and
      `detail->serviceException->code` when set. */
  datatype Fault = Fault(faultCode: string, faultString: string, serviceCode: Option<string>)

  /** The SOAP engine's call: operation name and payload in, reply or fault out. */
  type Transport = (string, Payload) -> Result<Response, Fault>

  /** The outcome of a lookup: the leads found, or `FALSE` for none. */
  datatype Lookup = Found(leads: seq<Lead>) | NotFound

  /** The errors the client raises: the plain exception get_lead_by throws,
      whose message is the text of a fault and whose code is 1; a fault
      passed through by sync_lead; or a reply without the lead record
      sync_lead reads. */
  datatype ClientError = Rethrown(message: string, code: int) | Propagated(fault: Fault) | MissingLeadRecord

  /** The text a SoapFault turns into when passed as an exception message:
      its fault code and fault string. The `detail` is not part of it. */
  function FaultText(f: Fault): string
  {
    "SoapFault exception: [" + f.faultCode + "] " + f.faultString
  }

  const GetLeadOperation: string := "getLead"
  const SyncLeadOperation: string := "syncLead"

  /** The service code Marketo reports when no lead matches a key. */
  const LeadNotFoundCode: string := "20103"

  /** The exception code get_lead_by rethrows other faults with. */
  const RethrowCode: int := 1

  /** The payload get_lead_by sends: the key type upper-cased, the key
      value unchanged. */
  function LookupPayload(keyType: string, keyValue: Value): (p: Payload)
    ensures p.GetLeadPayload?
    ensures p.leadKey.keyValue == keyValue
    ensures SameIgnoringCase(p.leadKey.keyType, keyType)
    ensures forall i | 0 <= i < |p.leadKey.keyType| :: !IsLower(p.leadKey.keyType[i])
  {
    GetLeadPayload(LeadKey(Upper(keyType), keyValue))
  }

  /** Key types that differ only in case produce the same payload, and no
      others do. */
  lemma LookupPayloadIgnoresCase(a: string, b: string, v: Value)
    ensures LookupPayload(a, v) == LookupPayload(b, v) <==> SameIgnoringCase(a, b)
  {
    UpperIdentifiesCaseVariants(a, b);
  }

  /** "email", "Email" and "EMAIL" are all sent as "EMAIL". */
  lemma EmailKeyTypeSentUpperCase(v: Value)
    ensures LookupPayload("email", v).leadKey.keyType == "EMAIL"
    ensures LookupPayload("Email", v).leadKey.keyType == "EMAIL"
    ensures LookupPayload("EMAIL", v).leadKey.keyType == "EMAIL"
  {
    assert Upper("email") == "EMAIL";
    assert Upper("Email") == "EMAIL";
    assert Upper("EMAIL") == "EMAIL";
  }

  /** The fault get_lead_by reads as "no lead found": a service code is set
      and equals "20103" under PHP's loose `==`. */
  predicate IsNotFoundFault(f: Fault)
  {
    f.serviceCode.Some? && LooseEquals(f.serviceCode.value, LeadNotFoundCode)
  }

  /** The record field a getLead reply carries; a reply of another shape has
      no `leadRecordList`, which PHP reads as null. */
  function RecordFieldOf(r: Response): RecordField
  {
    match r
    case LeadListResponse(f) => f
    case SyncResponse(_, _) => NoRecord
  }

  /** get_lead_by: a reply yields its leads normalised (attribute lists
      flattened by the corrected `FlattenField`); a "no lead found"
      fault yields NotFound; any other fault is rethrown as a plain
      exception carrying the fault's text and code 1. */
  function GetLeadBy(invoke: Transport, keyType: string, keyValue: Value): (r: Result<Lookup, ClientError>)
    ensures var reply := invoke(GetLeadOperation, LookupPayload(keyType, keyValue));
      && (r == Success(NotFound) <==> reply.Failure? && IsNotFoundFault(reply.error))
      && (r.Failure? <==> reply.Failure? && !IsNotFoundFault(reply.error))
      && (r.Failure? ==> r.error == Rethrown(FaultText(reply.error), RethrowCode))
      && (reply.Success? ==> r.Success? && r.value.Found?
                             && r.value.leads == FormatLeads(RecordFieldOf(reply.value)))
  {
    match invoke(GetLeadOperation, LookupPayload(keyType, keyValue))
    case Success(reply) => Success(Found(FormatLeads(RecordFieldOf(reply))))
    case Failure(fault) =>
      if IsNotFoundFault(fault) then Success(NotFound) else Failure(Rethrown(FaultText(fault), RethrowCode))
  }

  /** The exception get_lead_by rethrows does not carry the fault's service
      code: two faults that differ only there give the same error. */
  lemma RethrownErrorOmitsServiceCode(invoke1: Transport, invoke2: Transport, keyType: string, keyValue: Value)
    requires var p := LookupPayload(keyType, keyValue);
      && invoke1(GetLeadOperation, p).Failure? && invoke2(GetLeadOperation, p).Failure?
      && !IsNotFoundFault(invoke1(GetLeadOperation, p).error)
      && !IsNotFoundFault(invoke2(GetLeadOperation, p).error)
      && invoke1(GetLeadOperation, p).error.(serviceCode := None)
         == invoke2(GetLeadOperation, p).error.(serviceCode := None)
    ensures GetLeadBy(invoke1, keyType, keyValue).Failure?
    ensures GetLeadBy(invoke1, keyType, keyValue) == GetLeadBy(invoke2, keyType, keyValue)
  {
    var p := LookupPayload(keyType, keyValue);
    var f1 := invoke1(GetLeadOperation, p).error;
    var f2 := invoke2(GetLeadOperation, p).error;
    assert f1.faultCode == f1.(serviceCode := None).faultCode == f2.faultCode;
    assert f1.faultString == f1.(serviceCode := None).faultString == f2.faultString;
    assert FaultText(f1) == FaultText(f2);
  }

  /** The digits of the "no lead found" code denote 20103. */
  lemma LeadNotFoundCodeValue()
    ensures AllDigits(LeadNotFoundCode) && DigitsValue(LeadNotFoundCode) == 20103
  {
    DigitsValueSnoc("", '2');
    assert "" + ['2'] == "2";
    DigitsValueSnoc("2", '0');
    assert "2" + ['0'] == "20";
    DigitsValueSnoc("20", '1');
    assert "20" + ['1'] == "201";
    DigitsValueSnoc("201", '0');
    assert "201" + ['0'] == "2010";
    DigitsValueSnoc("2010", '3');
    assert "2010" + ['3'] == "20103";
  }

  /** A fault whose code is a string of digits reads as "no lead found"
      exactly when the digits denote 20103: leading zeros are accepted, as
      PHP's loose `==` compares numeric strings by value. */
  lemma NotFoundDigitCodes(code: string, c: string, m: string)
    requires 0 < |code| && AllDigits(code)
    ensures IsNotFoundFault(Fault(c, m, Some(code))) <==> DigitsValue(code) == 20103
  {
    LeadNotFoundCodeValue();
    LooseEqualsOnDigits(code, LeadNotFoundCode);
  }

  /** The code Marketo sends reads as "no lead found"; a fault without a
      code does not. */
  lemma NotFoundCode(c: string, m: string)
    ensures IsNotFoundFault(Fault(c, m, Some("20103")))
    ensures !IsNotFoundFault(Fault(c, m, None))
  {
    LeadNotFoundCodeValue();
    NotFoundDigitCodes(LeadNotFoundCode, c, m);
  }

  /** The zero-padded spelling of the code also reads as "no lead found". */
  lemma ZeroPaddedNotFoundCode(c: string, m: string)
    ensures IsNotFoundFault(Fault(c, m, Some("020103")))
  {
    LeadNotFoundCodeValue();
    assert DigitsValue("0") == 0;
    assert "0" + LeadNotFoundCode == "020103";
    DigitsValueConcat("0", LeadNotFoundCode);
    NotFoundDigitCodes("020103", c, m);
  }

  /** A neighbouring code is another fault. */
  lemma OtherCodeIsFault(c: string, m: string)
    ensures !IsNotFoundFault(Fault(c, m, Some("20104")))
  {
    LeadNotFoundCodeValue();
    DigitsValueSnoc("2010", '4');
    assert "2010" + ['4'] == "20104";
    assert LeadNotFoundCode[..4] == "2010";
    NotFoundDigitCodes("20104", c, m);
  }

  /** The lead object sync_lead returns: the reply's other properties and the
      normalised lead record, its attributes flattened by the corrected
      `FlattenField`. */
  datatype SyncResult = SyncResult(fields: map<string, Value>, leadRecord: Lead)

  /** The payload sync_lead sends: the cookie, `returnLead` set, and the
      lead record built from the email and the attribute array, whose list
      reads back as that array. */
  function SyncPayload(email: string, cookie: Value, lead: seq<(string, Value)>): (p: Payload)
    ensures p.SyncLeadPayload?
    ensures p.marketoCookie == cookie && p.returnLead
    ensures p.leadRecord == LeadRecord(email, lead)
    ensures Flatten(Objects(p.leadRecord.leadAttributeList)) == PhpArrays.LastWins(lead)
  {
    FlattenInvertsLeadRecord(email, lead);
    SyncLeadPayload(cookie, true, LeadRecord(email, lead))
  }

  /** sync_lead: a fault passes through unchanged; a reply's lead record is
      returned with its attribute list flattened into `attributes` by the
      corrected `FlattenField`. */
  function SyncLead(invoke: Transport, email: string, cookie: Value, lead: seq<(string, Value)>)
    : (r: Result<SyncResult, ClientError>)
    ensures var reply := invoke(SyncLeadOperation, SyncPayload(email, cookie, lead));
      && (reply.Failure? ==> r == Failure(Propagated(reply.error)))
      && (reply.Success? && reply.value.SyncResponse? ==>
            && r.Success?
            && r.value.fields == reply.value.fields
            && r.value.leadRecord.fields == reply.value.leadRecord.fields - ReplacedProperties
            && r.value.leadRecord.attributes == FlattenField(reply.value.leadRecord.leadAttributeList))
      && (reply.Success? && reply.value.LeadListResponse? ==> r == Failure(MissingLeadRecord))
  {
    match invoke(SyncLeadOperation, SyncPayload(email, cookie, lead))
    case Failure(fault) => Failure(Propagated(fault))
    case Success(SyncResponse(fields, raw)) => Success(SyncResult(fields, Normalize(raw)))
    case Success(LeadListResponse(_)) => Failure(MissingLeadRecord)
  }

  /** When the reply carries back the attribute list that was sent, the
      lead sync_lead returns holds exactly the attribute array it was given. */
  lemma SyncLeadEchoesAttributes(invoke: Transport, email: string, cookie: Value,
                                 lead: seq<(string, Value)>, fields: map<string, Value>,
                                 leadFields: map<string, Value>)
    requires var sent := SyncPayload(email, cookie, lead);
      invoke(SyncLeadOperation, sent)
        == Success(SyncResponse(fields, RawLead(leadFields, Many(Objects(sent.leadRecord.leadAttributeList)))))
    ensures SyncLead(invoke, email, cookie, lead).Success?
    ensures SyncLead(invoke, email, cookie, lead).value.leadRecord.attributes == PhpArrays.LastWins(lead)
  {
    var sent := SyncPayload(email, cookie, lead);
    var items := Objects(sent.leadRecord.leadAttributeList);
    var raw := RawLead(leadFields, Many(items));
    assert Normalize(raw).attributes == Flatten(items);
    assert SyncLead(invoke, email, cookie, lead) == Success(SyncResult(fields, Normalize(raw)));
  }
}
