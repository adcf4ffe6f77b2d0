/** Normalising the lead records of a response (format_leads). */
module LeadRecords {
  import opened PhpValues
  import opened LeadAttributes

  /** A lead record as the SOAP engine decodes it: its other properties
      (Id, Email, ForeignSysPersonId, ...) and its raw attribute list. */
  datatype RawLead = RawLead(fields: map<string, Value>, leadAttributeList: AttributeField)

  /** A lead after normalisation: the same pass-through properties, the raw
      list replaced by the flattened `attributes` array. */
  datatype Lead = Lead(fields: map<string, Value>, attributes: map<string, Value>)

  /** The `leadRecord` property of a response's `leadRecordList`: absent, a
      lone object when one lead matched, or an array when several did. */
  datatype RecordField = NoRecord | LoneRecord(lead: RawLead) | RecordArray(leads: seq<RawLead>)

  /** The properties normalisation takes over: `attributes` is assigned and
      `leadAttributeList` unset. */
  const ReplacedProperties: set<string> := {"attributes", "leadAttributeList"}

  /** One record normalised: the flattened list becomes `attributes`,
      overwriting a property of that name (a lone attribute object is
      first wrapped into a one-element list, as `FlattenField` corrects
      the source to do), and no property
      `leadAttributeList` remains; every other property is kept as it was. */
  function Normalize(raw: RawLead): (l: Lead)
    ensures "attributes" !in l.fields && "leadAttributeList" !in l.fields
    ensures l.fields.Keys == raw.fields.Keys - ReplacedProperties
    ensures forall k | k in l.fields :: l.fields[k] == raw.fields[k]
    ensures l.attributes == FlattenField(raw.leadAttributeList)
  {
    Lead(raw.fields - ReplacedProperties, FlattenField(raw.leadAttributeList))
  }

  /** The records of the field, a lone object wrapped into a one-element list. */
  function Records(f: RecordField): seq<RawLead>
  {
    match f
    case NoRecord => []
    case LoneRecord(l) => [l]
    case RecordArray(ls) => ls
  }

  /** format_leads: a lone record yields a one-element list, an array of n
      records yields n leads in the same order, and every lead keeps its
      record's properties with the attribute list flattened by the
      corrected `FlattenField`. */
  function FormatLeads(f: RecordField): (leads: seq<Lead>)
    ensures f.NoRecord? ==> leads == []
    ensures f.LoneRecord? ==> |leads| == 1
    ensures f.RecordArray? ==> |leads| == |f.leads|
    ensures |leads| == |Records(f)|
    ensures forall i | 0 <= i < |leads| ::
      && leads[i].fields == Records(f)[i].fields - ReplacedProperties
      && leads[i].attributes == FlattenField(Records(f)[i].leadAttributeList)
  {
    var records := Records(f);
    seq(|records|, i requires 0 <= i < |records| => Normalize(records[i]))
  }

  /** A lone record and a one-element array normalise to the same list. */
  lemma LoneRecordIsWrapped(l: RawLead)
    ensures FormatLeads(LoneRecord(l)) == FormatLeads(RecordArray([l]))
  {
  }

  /** Normalising an array of records is normalising each part of it. */
  lemma FormatLeadsConcat(a: seq<RawLead>, b: seq<RawLead>)
    ensures FormatLeads(RecordArray(a + b)) == FormatLeads(RecordArray(a)) + FormatLeads(RecordArray(b))
  {
    var whole := FormatLeads(RecordArray(a + b));
    var parts := FormatLeads(RecordArray(a)) + FormatLeads(RecordArray(b));
    forall i | 0 <= i < |a + b|
      ensures whole[i] == parts[i]
    {
      assert whole[i] == Normalize((a + b)[i]);
      if i < |a| {
        assert parts[i] == Normalize(a[i]);
      } else {
        assert parts[i] == Normalize(b[i - |a|]);
      }
    }
  }
}
