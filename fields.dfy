/** The field selection of the oldest layout (internal/processor/fields.go):
    one fixed list of 30 application load balancer fields and the set of
    names to keep. */
module Fields {
  import opened Wrappers
  import opened Text
  import opened Schema

  /** The 30 field names, in record order. */
  const FieldNames: seq<string> := [
    "type", "time", "elb", "client:port", "target:port",
    "request_processing_time", "target_processing_time", "response_processing_time",
    "elb_status_code", "target_status_code", "received_bytes", "sent_bytes",
    "request", "user_agent", "ssl_cipher", "ssl_protocol", "target_group_arn",
    "trace_id", "domain_name", "chosen_cert_arn", "matched_rule_priority",
    "request_creation_time", "actions_executed", "redirect_url", "error_reason",
    "target:port_list", "target_status_code_list", "classification",
    "classification_reason", "conn_trace_id"
  ]

  datatype Fields = Fields(included: set<string>)

  datatype FieldsError = InvalidFieldName(name: string)  // "invalid field name: %q"

  /** `FieldCount`: the length of the fixed list. */
  function FieldCount(): (r: nat)
    ensures r == 30
  {
    |FieldNames|
  }

  lemma FieldCountIs30()
    ensures FieldCount() == 30
    ensures FieldNames[1] == "time"
  {
  }

  lemma FieldNamesDistinct()
    ensures Distinct(FieldNames)
  {
    NamesApart1(); NamesApart2(); NamesApart3(); NamesApart4(); NamesApart5(); NamesApart6();
    DistinctFromBlocks(FieldNames, 10, 20);
  }

  // The pairs of blocks of the list, apart.
  lemma NamesApart1()
    ensures Separated(FieldNames, 0, 10, 0, 10)
  {
  }

  lemma NamesApart2()
    ensures Separated(FieldNames, 0, 10, 10, 20)
  {
  }

  lemma NamesApart3()
    ensures Separated(FieldNames, 0, 10, 20, 30)
  {
  }

  lemma NamesApart4()
    ensures Separated(FieldNames, 10, 20, 10, 20)
  {
  }

  lemma NamesApart5()
    ensures Separated(FieldNames, 10, 20, 20, 30)
  {
  }

  lemma NamesApart6()
    ensures Separated(FieldNames, 20, 30, 20, 30)
  {
  }

  /** What NewFields returns for a configuration. */
  function FieldsFor(config: string): (r: Result<Fields, FieldsError>)
    ensures r.Success? <==> config == "" || forall n :: n in ListTokens(config) ==> n in FieldNames
    ensures r.Success? ==>
              r.value.included == if config == "" then Names(FieldNames) else Names(ListTokens(config))
    ensures r.Failure? ==> r.error.name in ListTokens(config) && r.error.name !in FieldNames
    ensures r.Failure? ==>
              exists k :: 0 <= k < |ListTokens(config)| && ListTokens(config)[k] == r.error.name
                          && forall j :: 0 <= j < k ==> ListTokens(config)[j] in FieldNames
  {
    if config == "" then Success(Fields(Names(FieldNames)))
    else
      match FirstUnknown(ListTokens(config), Names(FieldNames))
      case Some(bad) => Failure(InvalidFieldName(bad))
      case None => Success(Fields(Names(ListTokens(config))))
  }

  /** `NewFields`: the valid set, then all of it or each trimmed listed name,
      failing at the first unknown one. */
  method NewFields(config: string) returns (r: Result<Fields, FieldsError>)
    ensures r == FieldsFor(config)
  {
    var valid := KnownNames(FieldNames);
    if config == "" {
      return Success(Fields(valid));
    }
    var v := CollectNames(Split(config, ','), valid);
    match v
    case Failure(bad) => return Failure(InvalidFieldName(bad));
    case Success(included) => return Success(Fields(included));
  }

  /** `FieldName`: the name at an index, or ("", false) out of range. */
  function FieldName(f: Fields, index: int): (r: (string, bool))
    ensures r.1 <==> 0 <= index < FieldCount()
    ensures r.1 ==> r.0 == FieldNames[index]
    ensures !r.1 ==> r.0 == ""
  {
    if index < 0 || index >= |FieldNames| then ("", false) else (FieldNames[index], true)
  }

  /** `Include`: whether the field at an index is kept. */
  function Include(f: Fields, index: int): (r: bool)
    ensures r <==> 0 <= index < FieldCount() && FieldNames[index] in f.included
  {
    Included(FieldNames, f.included, index)
  }

  /** An empty list keeps every index. */
  lemma EmptyConfigIncludesAll(i: int)
    requires 0 <= i < FieldCount()
    ensures Include(FieldsFor("").value, i)
  {
  }

  /** With a non-empty list, an index is kept iff it is in range and its name
      is one of the trimmed listed names. */
  lemma IncludeIffListed(config: string, i: int)
    requires config != "" && FieldsFor(config).Success?
    ensures Include(FieldsFor(config).value, i) <==> 0 <= i < FieldCount() && FieldNames[i] in ListTokens(config)
  {
  }

  lemma IncludeOutOfRange(f: Fields, i: int)
    requires i < 0 || i >= FieldCount()
    ensures !Include(f, i)
  {
  }

  /** A name outside the 30, such as one only the newer schema knows, is refused. */
  lemma UnknownNameRejected(name: string)
    requires name != "" && name !in FieldNames && ',' !in name && TrimSpace(name) == name
    ensures FieldsFor(name) == Failure(InvalidFieldName(name))
  {
    SplitSingle(name, ',');
    assert ListTokens(name) == [name];
  }
}
