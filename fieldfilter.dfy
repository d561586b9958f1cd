/** The field filter of the current layout (internal/logprocessor/fieldfilter.go):
    the ordered schema of one load-balancer type and the set of names to keep. */
module FieldFilter {
  import opened Wrappers
  import opened Text
  import opened Schema

  const ALB := "alb"
  const NLB := "nlb"

  /** Application load balancer access-log fields, in record order. */
  const AlbFields: seq<string> := [
    "type", "time", "elb", "client:port", "target:port",
    "request_processing_time", "target_processing_time", "response_processing_time",
    "elb_status_code", "target_status_code", "received_bytes", "sent_bytes",
    "request", "user_agent", "ssl_cipher", "ssl_protocol", "target_group_arn",
    "trace_id", "domain_name", "chosen_cert_arn", "matched_rule_priority",
    "request_creation_time", "actions_executed", "redirect_url", "error_reason",
    "target:port_list", "target_status_code_list", "classification",
    "classification_reason", "conn_trace_id", "transformed_host", "transformed_uri",
    "request_transform_status"
  ]

  /** Network load balancer (TLS listener) access-log fields, in record order. */
  const NlbFields: seq<string> := [
    "type", "version", "time", "elb", "listener_id", "client_ip", "client_port",
    "target_ip", "target_port", "tcp_connection_time_ms", "tls_handshake_time_ms",
    "received_bytes", "sent_bytes", "incoming_tls_alert", "cert_arn",
    "certificate_serial", "tls_cipher_suite", "tls_protocol_version",
    "tls_named_group", "domain_name", "alpn_fe_protocol", "alpn_be_protocol",
    "alpn_client_preference_list", "tls_connection_creation_time"
  ]

  datatype Filter = Filter(lbType: string, fields: seq<string>, included: set<string>)

  datatype FilterError =
    | InvalidLBType(lbType: string)             // "invalid load balancer type: %q"
    | InvalidFieldName(lbType: string, name: string)  // "invalid field name for %s: %q"

  function SchemaFor(lbType: string): (r: Option<seq<string>>)
    ensures r.Some? <==> lbType == ALB || lbType == NLB
  {
    if lbType == ALB then Some(AlbFields)
    else if lbType == NLB then Some(NlbFields)
    else None
  }

  /** The two schemas: their lengths and where the time field sits. */
  lemma SchemaShape()
    ensures |AlbFields| == 33 && |NlbFields| == 24
    ensures AlbFields[1] == "time" && NlbFields[2] == "time"
  {
  }

  /** No schema name occurs twice. */
  lemma AlbFieldsDistinct()
    ensures Distinct(AlbFields)
  {
    AlbApart1(); AlbApart2(); AlbApart3(); AlbApart4(); AlbApart5(); AlbApart6();
    DistinctFromBlocks(AlbFields, 11, 22);
  }

  lemma NlbFieldsDistinct()
    ensures Distinct(NlbFields)
  {
    NlbApart1(); NlbApart2(); NlbApart3(); NlbApart4(); NlbApart5(); NlbApart6();
    DistinctFromBlocks(NlbFields, 8, 16);
  }

  // The pairs of blocks of each schema, apart.
  lemma AlbApart1()
    ensures Separated(AlbFields, 0, 11, 0, 11)
  {
    AlbLow(); AlbLowApart(); AlbMid();
    SeparatedWithin(AlbFields, 0, 6, 11);
  }

  lemma AlbLow()
    ensures Separated(AlbFields, 0, 6, 0, 6)
  {
  }

  lemma AlbLowApart()
    ensures Separated(AlbFields, 0, 6, 6, 11)
  {
  }

  lemma AlbMid()
    ensures Separated(AlbFields, 6, 11, 6, 11)
  {
  }

  lemma AlbApart2()
    ensures Separated(AlbFields, 0, 11, 11, 22)
  {
  }

  lemma AlbApart3()
    ensures Separated(AlbFields, 0, 11, 22, 33)
  {
  }

  lemma AlbApart4()
    ensures Separated(AlbFields, 11, 22, 11, 22)
  {
  }

  lemma AlbApart5()
    ensures Separated(AlbFields, 11, 22, 22, 33)
  {
  }

  lemma AlbApart6()
    ensures Separated(AlbFields, 22, 33, 22, 33)
  {
  }

  lemma NlbApart1()
    ensures Separated(NlbFields, 0, 8, 0, 8)
  {
  }

  lemma NlbApart2()
    ensures Separated(NlbFields, 0, 8, 8, 16)
  {
  }

  lemma NlbApart3()
    ensures Separated(NlbFields, 0, 8, 16, 24)
  {
  }

  lemma NlbApart4()
    ensures Separated(NlbFields, 8, 16, 8, 16)
  {
  }

  lemma NlbApart5()
    ensures Separated(NlbFields, 8, 16, 16, 24)
  {
  }

  lemma NlbApart6()
    ensures Separated(NlbFields, 16, 24, 16, 24)
  {
  }

  /** No schema name is empty. */
  lemma NoEmptyFieldName()
    ensures "" !in AlbFields && "" !in NlbFields
  {
    forall i | 0 <= i < |AlbFields| ensures AlbFields[i] != "" {
    }
    forall i | 0 <= i < |NlbFields| ensures NlbFields[i] != "" {
    }
  }

  /** What NewFieldFilter returns once the schema is chosen. */
  function FilterOver(lbType: string, fields: seq<string>, config: string): (r: Result<Filter, FilterError>)
    ensures r.Success? <==> config == "" || forall n :: n in ListTokens(config) ==> n in fields
    ensures r.Success? ==>
              && r.value == Filter(lbType, fields, r.value.included)
              && r.value.included == if config == "" then Names(fields) else Names(ListTokens(config))
    ensures r.Failure? ==>
              && r.error.InvalidFieldName? && r.error.lbType == lbType
              && r.error.name in ListTokens(config) && r.error.name !in fields
    ensures r.Failure? ==>
              exists k :: 0 <= k < |ListTokens(config)| && ListTokens(config)[k] == r.error.name
                          && forall j :: 0 <= j < k ==> ListTokens(config)[j] in fields
  {
    if config == "" then Success(Filter(lbType, fields, Names(fields)))
    else
      match FirstUnknown(ListTokens(config), Names(fields))
      case Some(bad) => Failure(InvalidFieldName(lbType, bad))
      case None => Success(Filter(lbType, fields, Names(ListTokens(config))))
  }

  /** What NewFieldFilter returns, as a function of its two arguments. */
  function FilterFor(lbType: string, config: string): (r: Result<Filter, FilterError>)
    ensures r == Failure(InvalidLBType(lbType)) <==> SchemaFor(lbType).None?
  {
    match SchemaFor(lbType)
    case None => Failure(InvalidLBType(lbType))
    case Some(fields) => FilterOver(lbType, fields, config)
  }

  /** `NewFieldFilter`: choose the schema, then build the filter over it. */
  method NewFieldFilter(lbType: string, fieldConfig: string) returns (r: Result<Filter, FilterError>)
    ensures r == FilterFor(lbType, fieldConfig)
  {
    var fields: seq<string>;
    if lbType == ALB {
      fields := AlbFields;
    } else if lbType == NLB {
      fields := NlbFields;
    } else {
      return Failure(InvalidLBType(lbType));
    }
    r := BuildFilter(lbType, fields, fieldConfig);
  }

  /** The body of NewFieldFilter after the schema switch: collect the known
      names, then either include them all or validate and include each trimmed
      name of the list, failing at the first unknown one. */
  method BuildFilter(lbType: string, fields: seq<string>, fieldConfig: string) returns (r: Result<Filter, FilterError>)
    ensures r == FilterOver(lbType, fields, fieldConfig)
  {
    var known := KnownNames(fields);
    if fieldConfig == "" {
      return Success(Filter(lbType, fields, known));
    }

    var names := Split(fieldConfig, ',');
    var v := CollectNames(names, known);
    match v
    case Failure(bad) => return Failure(InvalidFieldName(lbType, bad));
    case Success(included) => return Success(Filter(lbType, fields, included));
  }

  /** `Name`: the field name at an index, or ("", false) out of range. */
  function Name(f: Filter, index: int): (r: (string, bool))
    ensures r.1 <==> 0 <= index < |f.fields|
    ensures r.1 ==> r.0 == f.fields[index]
    ensures !r.1 ==> r.0 == ""
  {
    if index < 0 || index >= |f.fields| then ("", false) else (f.fields[index], true)
  }

  /** `Includes`: whether the field at an index is kept. */
  function Includes(f: Filter, index: int): (r: bool)
    ensures r <==> 0 <= index < |f.fields| && f.fields[index] in f.included
  {
    Included(f.fields, f.included, index)
  }

  /** `TotalFields`: the length of the filter's schema, whatever is included. */
  function TotalFields(f: Filter): (r: nat)
    ensures WellFormed(f) ==> r == if f.lbType == ALB then 33 else 24
  {
    SchemaShape();
    |f.fields|
  }

  /** `LBType`: the type the filter was built for, whose schema it holds. */
  function LBTypeOf(f: Filter): (r: string)
    ensures WellFormed(f) ==> (r == ALB || r == NLB) && SchemaFor(r) == Some(f.fields)
  {
    f.lbType
  }

  /** A filter as NewFieldFilter builds it: the fields are the schema of its type. */
  ghost predicate WellFormed(f: Filter) {
    SchemaFor(f.lbType) == Some(f.fields)
  }

  lemma FilterForWellFormed(lbType: string, config: string)
    requires FilterFor(lbType, config).Success?
    ensures WellFormed(FilterFor(lbType, config).value)
    ensures Distinct(FilterFor(lbType, config).value.fields)
  {
    AlbFieldsDistinct();
    NlbFieldsDistinct();
  }

  /** Any type other than "alb" or "nlb" is refused, whatever the field list. */
  lemma UnknownTypeRejected(lbType: string, config: string)
    requires lbType != ALB && lbType != NLB
    ensures FilterFor(lbType, config) == Failure(InvalidLBType(lbType))
  {
  }

  /** An empty list includes every index of the schema. */
  lemma EmptyConfigIncludesAll(lbType: string, i: int)
    requires FilterFor(lbType, "").Success?
    requires 0 <= i < TotalFields(FilterFor(lbType, "").value)
    ensures Includes(FilterFor(lbType, "").value, i)
  {
  }

  /** With a non-empty list, an index is included iff it is in range and its
      name is one of the trimmed listed names. */
  lemma IncludesIffListed(lbType: string, config: string, i: int)
    requires config != "" && FilterFor(lbType, config).Success?
    ensures var f := FilterFor(lbType, config).value;
            Includes(f, i) <==> 0 <= i < TotalFields(f) && f.fields[i] in ListTokens(config)
  {
  }

  /** No index out of range is included, whatever the filter. */
  lemma IncludesOutOfRange(f: Filter, i: int)
    requires i < 0 || i >= TotalFields(f)
    ensures !Includes(f, i)
  {
  }

  /** Listing a name a second time builds the same filter, or fails the same way. */
  lemma RepeatedNameIdempotent(lbType: string, config: string, name: string)
    requires config != "" && ',' !in name && TrimSpace(name) in ListTokens(config)
    ensures FilterFor(lbType, config + "," + name) == FilterFor(lbType, config)
  {
    if SchemaFor(lbType).Some? {
      RepeatedNameIdempotentOver(lbType, SchemaFor(lbType).value, config, name);
    }
  }

  lemma RepeatedNameIdempotentOver(lbType: string, fields: seq<string>, config: string, name: string)
    requires config != "" && ',' !in name && TrimSpace(name) in ListTokens(config)
    ensures FilterOver(lbType, fields, config + "," + name) == FilterOver(lbType, fields, config)
  {
    var longer := config + "," + name;
    var tokens := ListTokens(config);
    var t := TrimSpace(name);
    var known := Names(fields);
    ListTokensAppend(config, name);
    NamesAppend(tokens, t);
    assert Names(ListTokens(longer)) == Names(tokens);
    FirstUnknownConcat(tokens, [t], known);
    assert FirstUnknown(ListTokens(longer), known) == FirstUnknown(tokens, known) by {
      if FirstUnknown(tokens, known).None? {
        assert t in known;
        assert FirstUnknown([t], known) == FirstUnknown([], known);
      }
    }
    assert longer != "";
  }

  /** A trailing comma leaves an empty name, which no schema has. */
  lemma TrailingCommaRejected(lbType: string, config: string)
    requires lbType == ALB || lbType == NLB
    ensures FilterFor(lbType, config + ",").Failure?
  {
    ListTokensAppend(config, "");
    assert config + "," + "" == config + ",";
    NoEmptyFieldName();
    assert "" in ListTokens(config + ",");
  }

  /** An ALB-only field names nothing in the NLB schema. */
  lemma AlbOnlyNameRejectedForNlb(name: string)
    requires name in AlbFields && name !in NlbFields
    requires ',' !in name && TrimSpace(name) == name
    ensures FilterFor(NLB, name) == Failure(InvalidFieldName(NLB, name))
  {
    assert SchemaFor(NLB) == Some(NlbFields);
    AlbNameNotEmpty(name);
    UnlistedNameRejected(NLB, NlbFields, name);
  }

  lemma AlbNameNotEmpty(name: string)
    requires name in AlbFields
    ensures name != ""
  {
    NoEmptyFieldName();
  }

  /** A configuration of a single name outside the schema is refused with that name. */
  lemma UnlistedNameRejected(lbType: string, fields: seq<string>, name: string)
    requires name != "" && name !in fields
    requires ',' !in name && TrimSpace(name) == name
    ensures FilterOver(lbType, fields, name) == Failure(InvalidFieldName(lbType, name))
  {
    SplitSingle(name, ',');
    assert ListTokens(name) == [name];
    assert name !in Names(fields);
    assert FirstUnknown([name], Names(fields)) == Some(name);
  }

  /** The filter's size is the schema's: 33 for ALB and 24 for NLB. */
  lemma TotalFieldsByType(lbType: string, config: string)
    requires FilterFor(lbType, config).Success?
    ensures TotalFields(FilterFor(lbType, config).value) == if lbType == ALB then 33 else 24
  {
  }

  /** `Name` answers for exactly the indices below TotalFields. */
  lemma NameInRange(f: Filter, i: int)
    ensures Name(f, i).1 <==> 0 <= i < TotalFields(f)
    ensures Name(f, i).1 ==> Name(f, i).0 == f.fields[i]
  {
  }
}
