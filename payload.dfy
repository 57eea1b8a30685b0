/** The values that go into a request's query parameters or JSON body, and the argument
    conventions the tools share (Python truthiness, opaque JSON parsing, error returns). */
module Payload {
  import opened Wrappers

  /** A JSON value, as httpx serialises a parameter or a body field. `json.loads` can
      return any of them, `null` included; a float is kept as its literal text. */
  datatype Value =
    | Null
    | Str(s: string)
    | Int(n: int)
    | Bool(b: bool)
    | Array(items: seq<Value>)
    | Object(fields: map<string, Value>)
    | Float(text: string)

  /** A Python dict that is sent as query parameters or as a JSON object. */
  type Fields = map<string, Value>

  /** A caller-supplied JSON string together with the outcome of `json.loads` on it;
      the parser itself is outside the model, so its outcome is part of the argument. */
  datatype JsonArg = JsonArg(text: string, parsed: Option<Value>)

  /** Why a tool returns an error text instead of sending its request. */
  datatype Error =
    | InvalidMailbox(mailbox: string)
    | SubtaskWithoutConversation
    | StandaloneWithoutTeamOrAssignees
    | InvalidTaskState(state: string)
    | NothingToUpdate
    | InvalidJson(argument: string)
    | InvalidGroupKind(kind: string)

  /** `if s:` on an `Optional[str]`: present and non-empty. */
  predicate TruthyText(o: Option<string>) {
    o.Some? && |o.value| > 0
  }

  /** `if xs:` on an `Optional[List[str]]`: present and non-empty. */
  predicate TruthyList(o: Option<seq<string>>) {
    o.Some? && |o.value| > 0
  }

  /** `if n:` on an `Optional[int]`: present and non-zero. */
  predicate TruthyInt(o: Option<int>) {
    o.Some? && o.value != 0
  }

  /** A text argument as a payload keeps it: present exactly when it is truthy. */
  function KeptText(o: Option<string>): (k: Option<string>)
    ensures k.Some? <==> TruthyText(o)
    ensures TruthyText(o) ==> k == o
  {
    if TruthyText(o) then o else None
  }

  /** A list argument as a payload keeps it: present exactly when it is truthy. */
  function KeptList(o: Option<seq<string>>): (k: Option<seq<string>>)
    ensures k.Some? <==> TruthyList(o)
    ensures TruthyList(o) ==> k == o
  {
    if TruthyList(o) then o else None
  }
}
