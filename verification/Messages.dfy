/** The message values every other module passes around: a context message with the metadata
    keys that carry tool calls and tool answers. */
module Messages {

  datatype Option<+T> = None | Some(value: T)

  datatype Role = System | User | Assistant | Tool

  /** One entry of the `tool_calls` metadata list. The list holds arbitrary objects, so an entry may
      not be a dict, and each key of a dict may be missing or have another type (`None`).
      `arguments` is the JSON text of the arguments dict; a missing key stands for the empty dict. */
  datatype CallEntry =
    | NotAnObject
    | Call(id: Option<string>, name: Option<string>, arguments: Option<string>)

  /** The value under the `tool_calls` key. */
  datatype RawCalls = NotAList | CallList(entries: seq<CallEntry>)

  /** `json` is the JSON text of the whole metadata dict, which only budgeting looks at. */
  datatype Metadata = Metadata(toolCalls: RawCalls, toolCallId: Option<string>, json: string)

  /** `partsJson` is the JSON text of the multimodal parts, empty when there are none. */
  datatype Message = Message(
    role: Role,
    content: string,
    source: string,
    metadata: Option<Metadata>,
    reasoning: string,
    reasoningSignature: string,
    redactedThinking: bool,
    partsJson: string)

  function TextMessage(role: Role, source: string, content: string): Message {
    Message(role, content, source, None, "", "", false, "")
  }

  lemma Assoc<T>(a: seq<T>, b: seq<T>, c: seq<T>)
    ensures (a + b) + c == a + (b + c)
  {
  }

  function Flatten<T>(groups: seq<seq<T>>): seq<T> {
    if groups == [] then [] else groups[0] + Flatten(groups[1..])
  }

  lemma {:induction false} FlattenAppend<T>(a: seq<seq<T>>, b: seq<seq<T>>)
    ensures Flatten(a + b) == Flatten(a) + Flatten(b)
  {
    if a == [] {
      assert a + b == b;
    } else {
      assert (a + b)[1..] == a[1..] + b;
      FlattenAppend(a[1..], b);
      Assoc(a[0], Flatten(a[1..]), Flatten(b));
    }
  }

  lemma FlattenOne<T>(g: seq<T>)
    ensures Flatten([g]) == g
  {
    assert [g][1..] == [];
    assert g + [] == g;
  }

  /** The number of leading tool messages. */
  function ToolRun(ms: seq<Message>): (n: nat)
    ensures n <= |ms|
    ensures forall i :: 0 <= i < n ==> ms[i].role.Tool?
    ensures n < |ms| ==> !ms[n].role.Tool?
  {
    if ms != [] && ms[0].role.Tool? then 1 + ToolRun(ms[1..]) else 0
  }

  lemma {:induction false} ToolRunUnique(ms: seq<Message>, n: nat)
    requires n <= |ms|
    requires forall i :: 0 <= i < n ==> ms[i].role.Tool?
    requires n < |ms| ==> !ms[n].role.Tool?
    ensures ToolRun(ms) == n
  {
    if n > 0 {
      ToolRunUnique(ms[1..], n - 1);
    }
  }
}
