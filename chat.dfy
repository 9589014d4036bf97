/** The chat-prompt builder of llgtrt: a conversation (an ordered list of
    role-tagged messages) is mapped to render records, one per message, and a
    Liquid template is rendered over those records to give a flat prompt.

    Two collaborators are outside this model and enter as parameters:
    - `str: Content -> string`, the serialisation of a message's content
      (`content.to_string()` in the OpenAI request types);
    - the Liquid engine: `accepts` says whether a template source parses, and
      `render` evaluates a parsed template over the `items` list. The built-in
      default template's behaviour is given exactly by `RenderDefault`.
 */
module Chat {

  datatype Option<T> = None | Some(value: T) {
    /** The value, or `default` when there is none. */
    function UnwrapOr(default: T): T {
      match this
      case Some(v) => v
      case None => default
    }
  }

  datatype Result<T> = Ok(value: T) | Err(error: string)

  /** One segment of multi-part message content. */
  datatype ContentPart = ContentPart(text: string)

  /** Message content: one literal string or an ordered list of segments. */
  datatype Content = Text(text: string) | Parts(parts: seq<ContentPart>)

  /** A tool call attached to an assistant message, kept as an uninspected
      payload: the builder drops it. */
  datatype ToolCall = ToolCall(payload: string)

  /** A chat message, one variant per role. */
  datatype Message =
    | System(content: Content, name: Option<string>)
    | User(content: Content, name: Option<string>)
    | Assistant(content: Content, name: Option<string>, toolCalls: seq<ToolCall>)
    | Tool(content: Content, toolCallId: string)

  /** The `name` key of a render record: missing from the object, present
      with JSON `null`, or present with a string. */
  datatype NameEntry = Absent | Null | Present(name: string)

  /** The JSON object handed to the template for one message. */
  datatype Record = Record(role: string, content: string, name: NameEntry)

  /** Source of the built-in template: one `role: content` line per item,
      then the completion cue `assistant:` with no newline after it. */
  const DefaultTemplate: string :=
    "{% for item in items %}{{ item.role }}: {{ item.content }}\n{% endfor %}assistant:"

  /** The text the default template emits after the loop. */
  const Cue: string := "assistant:"

  /** The JSON encoding of an optional name: `None` serialises to `null`. */
  function NameEntryOf(name: Option<string>): (e: NameEntry)
    ensures e != Absent
    ensures e == Null <==> name.None?
    ensures name.Some? ==> e == Present(name.value)
  {
    match name
    case None => Null
    case Some(n) => Present(n)
  }

  /** `chat_to_json`: the render record of one message. */
  function ChatToRecord(m: Message, str: Content -> string): (r: Record)
    ensures r.content == str(m.content)
    ensures m.Tool? <==> r.name == Absent
    ensures !m.Tool? ==> (r.name == Null <==> m.name == None)
    ensures !m.Tool? && m.name.Some? ==> r.name == Present(m.name.value)
  {
    match m
    case System(content, name) => Record("system", str(content), NameEntryOf(name))
    case User(content, name) => Record("user", str(content), NameEntryOf(name))
    case Assistant(content, name, _) => Record("assistant", str(content), NameEntryOf(name))
    case Tool(content, _) => Record("tool", str(content), Absent)
  }

  /** The role of a record is the tag of its message's variant, and tells
      the variant back. */
  lemma RoleIsVariantTag(m: Message, str: Content -> string)
    ensures m.System? <==> ChatToRecord(m, str).role == "system"
    ensures m.User? <==> ChatToRecord(m, str).role == "user"
    ensures m.Assistant? <==> ChatToRecord(m, str).role == "assistant"
    ensures m.Tool? <==> ChatToRecord(m, str).role == "tool"
  {
    assert "system"[0] != "user"[0] && "system"[0] != "assistant"[0] && "system"[0] != "tool"[0];
    assert "user"[0] != "assistant"[0] && "user"[0] != "tool"[0] && "assistant"[0] != "tool"[0];
  }

  /** The `items` list of `ChatBuilder::build`: every message mapped to its
      record, in order. */
  function BuildItems(ms: seq<Message>, str: Content -> string): (items: seq<Record>)
    ensures |items| == |ms|
    ensures forall i :: 0 <= i < |ms| ==> items[i] == ChatToRecord(ms[i], str)
  {
    if ms == [] then [] else [ChatToRecord(ms[0], str)] + BuildItems(ms[1..], str)
  }

  /** What the default template emits for one item inside its loop. */
  function ItemLine(r: Record): string {
    r.role + ": " + r.content + "\n"
  }

  /** The loop of the default template: the lines of all items, in order. */
  function RenderBody(items: seq<Record>): (s: string)
    ensures s == [] <==> items == []
    ensures items != [] ==> s[|s| - 1] == '\n'
  {
    if items == [] then "" else ItemLine(items[0]) + RenderBody(items[1..])
  }

  /** The whole output of the default template over `items`. */
  function RenderDefault(items: seq<Record>): (s: string)
    ensures |s| >= |Cue| && s[|s| - |Cue|..] == Cue
    ensures items == [] ==> s == Cue
  {
    RenderBody(items) + Cue
  }

  /** A builder holds one parsed template; it is modelled by its source. */
  datatype ChatBuilder = ChatBuilder(template: string)

  /** `ChatBuilder::new`: parse the supplied template, or the default one when
      none is supplied. `accepts` is the Liquid parser's verdict on a source. */
  function New(template: Option<string>, accepts: string -> bool): (r: Result<ChatBuilder>)
    ensures template.None? ==> (r.Ok? <==> accepts(DefaultTemplate))
    ensures template.Some? ==> (r.Ok? <==> accepts(template.value))
    ensures r.Ok? && template.None? ==> r.value.template == DefaultTemplate
    ensures r.Ok? && template.Some? ==> r.value.template == template.value
  {
    var source := template.UnwrapOr(DefaultTemplate);
    if accepts(source) then Ok(ChatBuilder(source)) else Err("template does not parse")
  }

  /** `ChatBuilder::build`: render the builder's template over the records of
      `ms`. `render` is the Liquid engine evaluating a template source with
      `items` bound to the given records. */
  function Build(b: ChatBuilder, ms: seq<Message>, str: Content -> string,
                 render: (string, seq<Record>) -> Result<string>): (r: Result<string>)
    ensures b.template == DefaultTemplate && LiquidDefault(render) ==> r == Ok(RenderDefault(BuildItems(ms, str)))
  {
    render(b.template, BuildItems(ms, str))
  }

  /** The engine renders the default template as `RenderDefault` says. */
  ghost predicate LiquidDefault(render: (string, seq<Record>) -> Result<string>) {
    forall items :: render(DefaultTemplate, items) == Ok(RenderDefault(items))
  }

  /** Mapping distributes over concatenation of message lists. */
  lemma {:induction false} BuildItemsAppend(a: seq<Message>, b: seq<Message>, str: Content -> string)
    ensures BuildItems(a + b, str) == BuildItems(a, str) + BuildItems(b, str)
  {
    if a == [] {
      assert a + b == b;
    } else {
      assert (a + b)[1..] == a[1..] + b;
      BuildItemsAppend(a[1..], b, str);
    }
  }

  /** The loop's output distributes over concatenation of item lists. */
  lemma {:induction false} RenderBodyAppend(a: seq<Record>, b: seq<Record>)
    ensures RenderBody(a + b) == RenderBody(a) + RenderBody(b)
  {
    if a == [] {
      assert a + b == b;
    } else {
      assert (a + b)[1..] == a[1..] + b;
      RenderBodyAppend(a[1..], b);
    }
  }

  /** The i-th item's line sits between the lines of the items before and
      after it. */
  lemma RenderBodyAt(items: seq<Record>, i: nat)
    requires i < |items|
    ensures RenderBody(items)
         == RenderBody(items[..i]) + ItemLine(items[i]) + RenderBody(items[i + 1..])
  {
    var tail := items[i..];
    assert items == items[..i] + tail;
    RenderBodyAppend(items[..i], tail);
    assert tail[1..] == items[i + 1..];
    assert RenderBody(tail) == ItemLine(tail[0]) + RenderBody(tail[1..]);
  }

  /** Appending one message to the conversation appends exactly its line
      before the completion cue. */
  lemma AppendMessage(ms: seq<Message>, m: Message, str: Content -> string)
    ensures RenderDefault(BuildItems(ms + [m], str))
         == RenderBody(BuildItems(ms, str)) + ItemLine(ChatToRecord(m, str)) + Cue
  {
    BuildItemsAppend(ms, [m], str);
    RenderBodyAppend(BuildItems(ms, str), BuildItems([m], str));
    SingleMessageBody(m, str);
  }

  /** A one-message conversation renders to that message's line alone. */
  lemma SingleMessageBody(m: Message, str: Content -> string)
    ensures RenderBody(BuildItems([m], str)) == ItemLine(ChatToRecord(m, str))
  {
    assert BuildItems([m], str) == [ChatToRecord(m, str)];
    assert RenderBody([ChatToRecord(m, str)]) == ItemLine(ChatToRecord(m, str)) + RenderBody([]);
  }

  /** Two conversations that differ only in tool-call data build the same
      records. */
  predicate SameButToolData(m1: Message, m2: Message) {
    match (m1, m2)
    case (Assistant(c1, n1, _), Assistant(c2, n2, _)) => c1 == c2 && n1 == n2
    case (Tool(c1, _), Tool(c2, _)) => c1 == c2
    case _ => m1 == m2
  }

  lemma {:induction false} ToolDataIgnored(ms1: seq<Message>, ms2: seq<Message>, str: Content -> string)
    requires |ms1| == |ms2|
    requires forall i :: 0 <= i < |ms1| ==> SameButToolData(ms1[i], ms2[i])
    ensures BuildItems(ms1, str) == BuildItems(ms2, str)
  {
    var a, b := BuildItems(ms1, str), BuildItems(ms2, str);
    forall i | 0 <= i < |ms1| ensures a[i] == b[i] {
      assert SameButToolData(ms1[i], ms2[i]);
    }
  }

  /** Whatever template the builder holds, it cannot observe tool-call data:
      conversations that differ only there render alike. */
  lemma TemplateSeesNoToolData(b: ChatBuilder, ms1: seq<Message>, ms2: seq<Message>, str: Content -> string,
                               render: (string, seq<Record>) -> Result<string>)
    requires |ms1| == |ms2|
    requires forall i :: 0 <= i < |ms1| ==> SameButToolData(ms1[i], ms2[i])
    ensures Build(b, ms1, str, render) == Build(b, ms2, str, render)
  {
    ToolDataIgnored(ms1, ms2, str);
  }

  /** Without a custom template, `build` yields the transcript of the
      conversation followed by the completion cue. */
  lemma DefaultBuilderOutput(ms: seq<Message>, str: Content -> string,
                             accepts: string -> bool, render: (string, seq<Record>) -> Result<string>)
    requires accepts(DefaultTemplate)
    requires LiquidDefault(render)
    ensures New(None, accepts).Ok?
    ensures Build(New(None, accepts).value, ms, str, render) == Ok(RenderBody(BuildItems(ms, str)) + Cue)
    ensures ms == [] ==> Build(New(None, accepts).value, ms, str, render) == Ok(Cue)
  {
    var items := BuildItems(ms, str);
    assert render(DefaultTemplate, items) == Ok(RenderDefault(items));
  }

  /** A two-message conversation under the default template. */
  lemma SystemUserScenario(str: Content -> string)
    requires str(Text("You are helpful")) == "You are helpful"
    requires str(Text("Hi")) == "Hi"
    ensures RenderDefault(BuildItems([System(Text("You are helpful"), None), User(Text("Hi"), None)], str))
         == "system: You are helpful\nuser: Hi\nassistant:"
  {
    var sysM, userM := System(Text("You are helpful"), None), User(Text("Hi"), None);
    assert [sysM, userM] == [sysM] + [userM];
    AppendMessage([sysM], userM, str);
    SingleMessageBody(sysM, str);
    var sys, user := ChatToRecord(sysM, str), ChatToRecord(userM, str);
    assert sys.role == "system" && sys.content == "You are helpful";
    assert user.role == "user" && user.content == "Hi";
    LiteralTranscript();
  }

  /** Solver helper for `SystemUserScenario`: the scenario's pieces join up
      to its spelled-out prompt. States nothing about the model. */
  lemma LiteralTranscript()
    ensures "system" + ": " + "You are helpful" + "\n" + ("user" + ": " + "Hi" + "\n") + Cue
         == "system: You are helpful\nuser: Hi\nassistant:"
  {
  }

  /** One multi-part user message under the default template, for a content
      serialisation that joins parts with a newline. */
  lemma MultiPartScenario(str: Content -> string)
    requires str(Parts([ContentPart("line1"), ContentPart("line2")])) == "line1\nline2"
    ensures RenderDefault(BuildItems([User(Parts([ContentPart("line1"), ContentPart("line2")]), None)], str))
         == "user: line1\nline2\nassistant:"
  {
    var m := User(Parts([ContentPart("line1"), ContentPart("line2")]), None);
    SingleMessageBody(m, str);
    var r := ChatToRecord(m, str);
    assert r.role == "user" && r.content == "line1\nline2";
    MultiPartLiteral();
  }

  /** Solver helper for `MultiPartScenario`: the scenario's pieces join up
      to its spelled-out prompt. States nothing about the model. */
  lemma MultiPartLiteral()
    ensures "user" + ": " + "line1\nline2" + "\n" + Cue == "user: line1\nline2\nassistant:"
  {
  }
}
