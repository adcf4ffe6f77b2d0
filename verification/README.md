# Marketo SOAP client — a Dafny model of its data shaping

The `Marketo` class in `marketo.php` is a thin client for Marketo's SOAP API
(version 1_8). Around each remote call it reshapes data between the caller's
associative arrays and Marketo's wire objects. This project models that
reshaping as pure functions over immutable data and proves what it does:

- **lead_record**: turns an ordered name→value array into the wire attribute
  list `{attrName, attrValue, attrType}`. Booleans become `"1"`/`"0"` with the
  tag `"boolean"`. Every other value passes through untagged.
- **flatten_attributes**: turns an attribute list back into a name→value
  array. A value is cast with `settype` when its tag is `integer`, `string`,
  `boolean` or `float`. When a name repeats, the last entry wins.
- **format_leads**: wraps a lone lead record (the SOAP engine does not wrap a
  single result in an array) into a one-element list. It then replaces each
  record's `leadAttributeList` with the flattened `attributes` array.
- **get_lead_by**: sends `{leadKey: {keyType: strtoupper(type), keyValue}}`.
  The fault with service code `20103` becomes the "not found" result `FALSE`.
  Every other fault is rethrown as a plain exception with code 1. Its message
  is the fault's text, which holds the fault code and fault string but not
  the service code.
- **sync_lead**: sends the built lead record with `returnLead` set. It returns
  the reply's `result` with its lead record's attributes flattened.

The SOAP engine is the `Transport` parameter of `MarketoClient.GetLeadBy` and
`MarketoClient.SyncLead`. It is a function from an operation name and a payload
to either a reply or a `Fault`.

Files and modules:

| file | module | contents |
|---|---|---|
| wrappers.dfy | Wrappers | `Option`, `Result` |
| php_arrays.dfy | PhpArrays | PHP array assignment in order (`LastWins`) |
| php_text.dfy | PhpText | `strtoupper`, decimal text, numeric prefixes, loose `==` of strings |
| php_values.dfy | PhpValues | scalar `Value`, `settype` casts |
| lead_attributes.dfy | LeadAttributes | lead_record, flatten_attributes |
| lead_records.dfy | LeadRecords | format_leads |
| marketo_client.dfy | MarketoClient | get_lead_by, sync_lead |

PHP semantics the model writes out:

- `strtoupper` raises ASCII letters only (PHP 8.2 and later).
- `(int)` of a string reads an optional sign and the leading digits after
  leading whitespace. It saturates to the 64-bit range, and a string without
  such digits gives 0.
- `(bool)` is false exactly for `""`, `"0"`, `0`, `0.0`, `false` and `null`.
- Floats are finite decimals (`Decimal(units, scale)`).
- The fault code test `code == '20103'` is PHP's loose `==`: two numeric
  strings compare by value, so `"020103"` also means "not found". As in
  PHP 8, two integer strings that overflow the 64-bit range on the same
  side are compared as text instead (`PhpText.OverflowSide`).
- A list element that is not an object has null properties. PHP stores it
  under the key `""` with value null rather than skipping it
  (`LeadAttributes.StoredValue`, `LeadAttributes.FlattenNonObjects`).

## Model

| member | source | states |
|---|---|---|
| PhpArrays.LastWins | marketo.php:222-231 | the array built by assigning pairs in order has exactly the assigned keys, and each key holds the value of its last assignment; with `PhpArrays.LastOfKeyExists` this fixes every entry |
| PhpArrays.LastOfKeyExists | marketo.php:230 | every key of the array has a last assignment, so its value is always the one that assignment wrote |
| PhpArrays.LastWinsDistinct | marketo.php:162 | an array whose keys are distinct keeps every pair with its own value, one entry per pair |
| PhpText.Upper | marketo.php:96 | the upper-cased key type has no lower-case letter and equals the input up to case |
| PhpText.UpperIdentifiesCaseVariants | marketo.php:96 | two key types upper-case to the same text exactly when they differ only in letter case |
| PhpText.UpperIdempotent | marketo.php:96 | upper-casing twice is upper-casing once |
| PhpText.IntTextRoundTrip | marketo.php:228 | an in-range integer written as text and read by `(int)` is unchanged |
| PhpText.LooseEqualsOnDigits | marketo.php:108 | two digit strings are `==` in PHP 8 exactly when they denote the same number, except when both exceed the 64-bit range: then PHP compares their text |
| PhpText.LeadingZeroLooseEquality | marketo.php:108 | a digit string with a zero in front is `==` to itself exactly when its number fits in 64 bits |
| PhpValues.CastTarget | marketo.php:221-225 | a tag names a cast target exactly when it is integer, string, boolean or float, and the target's name is the tag |
| PhpValues.Cast | marketo.php:228 | `settype` yields a value of the requested type and leaves a value already of that type alone |
| PhpValues.BooleanWireForm | marketo.php:166-170 | `strval(intval($b))` is "1" for true and "0" for false, and casting that text to boolean gives $b back |
| PhpValues.IntegerTextRoundTrip | marketo.php:228 | an integer cast to string and back to integer is unchanged |
| LeadAttributes.LeadRecord | marketo.php:155-182 | Email is the given email; one entry per input pair in input order, named by its key; a boolean is sent as "1"/"0" tagged "boolean"; any other value is sent unchanged with a null tag |
| LeadAttributes.Assignments | marketo.php:222-230 | the loop assigns exactly the entries' names as keys, and an assignment is the last to its key exactly when its entry is the last with that name |
| LeadAttributes.StoredValue | marketo.php:221-230 | an entry tagged integer/string/boolean/float is stored cast to that type; any other tag leaves the value as received; a non-object entry is stored as null |
| LeadAttributes.Flatten | marketo.php:219-234 | the flattened array's keys are exactly the entries' names, and a repeated name holds the stored value of its last entry |
| LeadAttributes.FlattenInvertsLeadRecord | marketo.php:162-178 | flattening the list lead_record builds gives back the input array, booleans included |
| LeadAttributes.FlattenIdempotent | marketo.php:225-230 | flattening entries whose values were already cast gives the same array as flattening the originals |
| LeadAttributes.FlattenNonObjects | marketo.php:223-230 | a non-empty list with no attribute object flattens to the single entry `"" => null` |
| LeadAttributes.FlattenFieldAsWritten | marketo.php:203 | as written, a lone attribute object is iterated property by property and flattens to `"" => null` |
| LeadAttributes.FlattenField | marketo.php:203 | corrected: an absent list flattens to nothing, a lone attribute object (which this line, like marketo.php:141, iterates property by property) to a one-entry array with its name and stored value, a list to its flattening |
| LeadAttributes.LoneAttributeLostAsWritten | marketo.php:141 | for a lead with one named attribute, the as-written flattening lacks that name and the corrected one has it |
| LeadRecords.Normalize | marketo.php:203-204 | a normalised record has no `leadAttributeList` property; its `attributes` is the flattened list, replacing any earlier property of that name; every other property is kept with its value |
| LeadRecords.FormatLeads | marketo.php:191-210 | no record gives an empty list; a lone record gives one lead; an array of n records gives n leads in order, each with its record's other properties and flattened attributes (corrected, via `FlattenField`) |
| LeadRecords.LoneRecordIsWrapped | marketo.php:195-199 | a lone record and a one-element array of it normalise to the same list |
| LeadRecords.FormatLeadsConcat | marketo.php:201-207 | normalising records is done record by record, preserving order |
| MarketoClient.LookupPayload | marketo.php:94-99 | the lookup key type has no lower-case letter and equals the requested type up to case; the key value is sent unchanged |
| MarketoClient.LookupPayloadIgnoresCase | marketo.php:96 | two key types give the same payload exactly when they differ only in letter case |
| MarketoClient.EmailKeyTypeSentUpperCase | marketo.php:96 | "email", "Email" and "EMAIL" are all sent as "EMAIL" |
| MarketoClient.GetLeadBy | marketo.php:101-119 | the result is "not found" exactly when the call faults with code 20103; it is an error exactly for any other fault, and that error is a plain exception with code 1 whose message is the fault's text (fault code and fault string); a reply gives its leads normalised, attributes flattened (corrected, via `FlattenField`) |
| MarketoClient.RethrownErrorOmitsServiceCode | marketo.php:115 | two faults that differ only in their service code give the same rethrown error, so the caller cannot read that code back |
| MarketoClient.NotFoundDigitCodes | marketo.php:108 | a digit-string fault code means "not found" exactly when it denotes 20103 |
| MarketoClient.NotFoundCode | marketo.php:108 | code "20103" means "not found"; a fault without a service code does not |
| MarketoClient.ZeroPaddedNotFoundCode | marketo.php:108 | code "020103" also means "not found" under PHP's loose comparison |
| MarketoClient.OtherCodeIsFault | marketo.php:108-116 | code "20104" is not "not found" |
| MarketoClient.SyncPayload | marketo.php:133-136 | the sync payload carries the cookie, `returnLead` true and the lead record built from the email and the array; the sent attribute list flattens back to the caller's array |
| MarketoClient.SyncLead | marketo.php:138-144 | a fault propagates unchanged; a reply's other properties are kept, and its lead record keeps its other properties and has its attribute list flattened into `attributes` (corrected, via `FlattenField`), with no `leadAttributeList` left |
| MarketoClient.SyncLeadEchoesAttributes | marketo.php:136-142 | when the reply returns the attribute list that was sent, the returned `attributes` equal the array the caller passed |

## Findings

| source | as written | input that shows it | evidently intended | confidence | as-written member | corrected member |
|---|---|---|---|---|---|---|
| marketo.php:203 | flatten_attributes is handed `leadAttributeList->attribute` as decoded. A lone attribute arrives as an object, not an array. The loop then walks its properties (attrName, attrType, attrValue), none of which is an object, and the result is `"" => null` | a lead with exactly one attribute, e.g. `{attrName: "Email", attrType: "string", attrValue: "a@b.c"}`; the same happens at marketo.php:141 in sync_lead | wrap a lone attribute object into a one-element array, as lines 195-199 do for a lone lead record | medium; not executed | LeadAttributes.FlattenFieldAsWritten, LeadAttributes.LoneAttributeLostAsWritten | LeadAttributes.FlattenField |

`LeadRecords.Normalize`, `LeadRecords.FormatLeads`, `MarketoClient.GetLeadBy`
(through `FormatLeads`) and `MarketoClient.SyncLead` use the corrected
`LeadAttributes.FlattenField`.

## Left out

- The constructor (marketo.php:27-76) is not modelled. It reads the credentials from `define`d constants or `$_ENV`, builds the endpoint URL and the `SoapClient`; all of this is ambient configuration and network setup.
- authentication_header (marketo.php:241-256) is not modelled. It reads the system clock and computes an HMAC-SHA1 in a library that is not part of this model.
- request / `__soapCall` (marketo.php:266-269) is the `Transport` parameter. The authentication header it attaches is not represented.
- MarketoClient.GetLeadBy: the rethrown message is only the start of PHP's text for a SoapFault, `SoapFault exception: [code] string`. PHP then adds ` in file:line` and a stack trace, which depend on where the code runs.
- LeadAttributes.Flatten: the result is a `map`, so the order of the PHP array's keys is lost. PHP keeps keys in the order of their first assignment, and a reassigned key keeps its first position.
- PhpArrays.LastWins: models the keys and values of a PHP array but not the order of its keys (first-assignment order).
- LeadRecords.Normalize: a record's other properties form a `map`, so their order is not modelled.
- PHP's warnings (foreach over null, reading a property of a non-object) are not modelled; only the values they leave behind are.
- Floats are finite decimals. Rounding to the `precision` setting, exponent notation, signed zero, NaN and infinities are not modelled. So is the precision lost when a large integer or a long numeric string goes through a double.
- `ScanNumeral` does not read exponents (`"2.0103e4"`), so `(int)`, `(float)` and the loose fault-code comparison differ from PHP on such strings (`"2.0103e4" == "20103"` holds in PHP). It does not read hexadecimal forms either, and neither does PHP 7 or later: `"0x4E87"` is not numeric and `(int)"0x1A"` is 0 in both.
- `DecimalToInt` takes a float outside the 64-bit range to 0; PHP leaves that case undefined.
- Array keys are strings. PHP turns integer-like keys such as `"123"` into integers, which the SOAP engine writes back as the same text.
- `Value` holds scalars only. Array or object attribute values are not modelled.
- The model follows PHP 8 in two places: a numeric string may end in whitespace, and assigning a property on null raises an error (`MarketoClient.ClientError.MissingLeadRecord`).
- `Upper` follows PHP 8.2 and later, where `strtoupper` ignores the locale.
