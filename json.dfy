/** JSON documents as the sinks build them. The encoder itself
    (`encoding/json.Marshal`, RFC 8259) is not modelled: every operation that
    serialises takes it as a parameter, and `None` stands for a marshal error. */
module Json {
  import opened Wrappers
  import opened Types

  datatype Value =
    | Str(s: string)
    | Int(n: int)
    | StrMap(m: map<string, string>)
    | Obj(members: seq<Member>)

  /** An object member, in the order Go emits struct fields. */
  datatype Member = Member(key: string, value: Value)

  type Marshal = Value -> Option<Bytes>

  /** `data, _ := json.Marshal(v)`: a failed marshal leaves nil, i.e. no bytes. */
  function MarshalOrNil(enc: Marshal, v: Value): Bytes {
    match enc(v)
    case Some(b) => b
    case None => []
  }

  function Keys(members: seq<Member>): seq<string> {
    seq(|members|, i requires 0 <= i < |members| => members[i].key)
  }
}
