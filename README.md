# llgtrt chat-prompt builder in Dafny

This project models the chat-prompt builder of llgtrt (`llgtrt/src/chat.rs`). The builder turns an
ordered conversation of role-tagged chat messages into one flat prompt string for a
text-completion model. It does this in two steps:

- `chat_to_json` maps each message (`System`, `User`, `Assistant`, `Tool`) to a render record.
  The record has a literal `role`, the message's `content` as a string and, except for tool
  messages, a `name` entry that may be JSON `null`. Tool-call data is dropped.
- `ChatBuilder::build` maps every message to its record, in order, and renders the builder's
  Liquid template with `items` bound to those records. `ChatBuilder::new` parses the supplied
  template, or the built-in default one when none is given.

The default template emits `role: content` and a newline for each item, then `assistant:`.

Module `Chat` (`chat.dfy`) holds the data model, the mapping, the default template's output as
the specification function `RenderDefault`, and the builder. Module `Transcript`
(`transcript.dfy`) is an independent reading of a default-template prompt back into
(role, content) turns. It shows that the prompt is unambiguous when no content string holds a
newline. `Transcript.NewlineForgesTurn` shows that this condition is needed: a content string
holding a newline can forge a turn.

Three collaborators of `chat.rs` are outside the file and enter the model as function-valued
parameters:

- `str: Content -> string` stands for `content.to_string()` of the OpenAI request types.
- `accepts: string -> bool` stands for the Liquid parser's verdict on a template source.
- `render: (string, seq<Record>) -> Result<string>` stands for the Liquid renderer.

The predicate `LiquidDefault(render)` states the one assumption made about the renderer: on the
default template source it produces `RenderDefault` of the items.

The content type follows the OpenAI shape: `Text` or `Parts` of text segments. The model does
not fix how parts are joined. The source delegates that to `to_string()`, which is not part of
this model. The scenario lemmas state the serialisation they rely on as a precondition.

## Model

| member | source | states |
|---|---|---|
| Chat.ChatToRecord | llgtrt/src/chat.rs:27-57 | the record's content is the serialised message content; the `name` entry is absent exactly for tool messages, and for the other variants it is `null` exactly when the optional name is missing and the name itself otherwise |
| Chat.RoleIsVariantTag | llgtrt/src/chat.rs:29-55 | the record's role is "system", "user", "assistant" or "tool" exactly when the message is of that variant, so the role tells the variant back |
| Chat.NameEntryOf | llgtrt/src/chat.rs:33 | an optional name serialises to a present `name` entry: `null` exactly when the name is missing, the name itself otherwise |
| Chat.BuildItems | llgtrt/src/chat.rs:21 | one record per message, the i-th record being the record of the i-th message (length and order preserved) |
| Chat.BuildItemsAppend | llgtrt/src/chat.rs:21 | mapping a concatenated conversation gives the concatenation of the mapped parts |
| Chat.RenderBody | llgtrt/src/chat.rs:9-10 | the default template's loop emits nothing exactly for an empty item list, and otherwise ends with a newline |
| Chat.RenderDefault | llgtrt/src/chat.rs:9-10 | the default template's output always ends with `assistant:` and is exactly `assistant:` for no items |
| Chat.RenderBodyAppend | llgtrt/src/chat.rs:9-10 | the default template's per-item output distributes over concatenation of item lists |
| Chat.RenderBodyAt | llgtrt/src/chat.rs:9-10 | the i-th item's `role: content` line sits between the lines of the items before it and after it |
| Chat.AppendMessage | llgtrt/src/chat.rs:9-10 | appending one message to a conversation inserts exactly that message's `role: content` line before the completion cue |
| Chat.New | llgtrt/src/chat.rs:13-18 | construction succeeds exactly when the chosen source parses; with no template supplied the builder holds the default template, otherwise the supplied one |
| Chat.Build | llgtrt/src/chat.rs:20-24 | a builder holding the default template, with an engine that renders it as specified, returns the default transcript of the conversation's records |
| Chat.ToolDataIgnored | llgtrt/src/chat.rs:43-55 | conversations that differ only in assistant tool calls or tool-call ids build identical records |
| Chat.TemplateSeesNoToolData | llgtrt/src/chat.rs:20-24 | whatever template the builder holds, such conversations render to the same result |
| Chat.DefaultBuilderOutput | llgtrt/src/chat.rs:13-24 | with no custom template, `build` returns the concatenation of every record's `role: content` line followed by `assistant:`, and exactly `assistant:` for an empty conversation |
| Chat.SystemUserScenario | llgtrt/src/chat.rs:9-10 | a system message "You are helpful" and a user message "Hi" render to `system: You are helpful\nuser: Hi\nassistant:` |
| Chat.MultiPartScenario | llgtrt/src/chat.rs:9-10 | a sole user message whose content serialises to `line1\nline2` renders to `user: line1\nline2\nassistant:` |
| Transcript.BodyRoundTrip | llgtrt/src/chat.rs:9-10 | reading back the default template's item lines yields every record's role and content, in order, when roles hold no colon or newline and contents no newline |
| Transcript.RoleReadable | llgtrt/src/chat.rs:31-52 | no role tag contains a colon or a newline |
| Transcript.PromptRoundTrip | llgtrt/src/chat.rs:9-24 | the default prompt of a conversation whose content strings hold no newline reads back as the conversation's roles and contents, in order |
| Transcript.NewlineForgesTurn | llgtrt/src/chat.rs:9-10 | one user message whose text holds a newline followed by `user: b` renders to the same prompt as two separate user messages, so the default prompt is ambiguous once contents hold newlines |

## Left out

- The Liquid engine (parsing and rendering of arbitrary templates) is a foreign library. It is a parameter of the model. Only the default template's output is defined, by `RenderDefault`, and tied to the engine by the `LiquidDefault` hypothesis.
- Parse and render errors are not analysed. `New` fails exactly when the `accepts` parameter rejects the source. This covers both `ParserBuilder::build` and `parse` failing. `Build` returns whatever result the engine returns. The error text is not modelled.
- `content.to_string()` lives in the OpenAI request types, which are not part of this model. It is the parameter `str`. The newline-joining of content parts is not built in.
- The JSON value and Liquid object representations are kept only as far as the record fields `role`, `content` and `name`. The distinction between a missing `name` key and a `null` one is kept.
- Concurrent sharing of a `ChatBuilder` and the HTTP/server plumbing are left out. `build` is a pure function here, so repeated calls agree trivially.
