/** Reading a default-template prompt back into its turns.

    This is not code of llgtrt: it is an independent reading of the default
    template's output, used to show that the transcript the builder emits is
    unambiguous. Each line is split at its first `:`, which must be followed
    by a space; the prompt must end with the completion cue. When no content
    holds a newline, reading the prompt gives back every message's role and
    content string, in order.
 */
module Transcript {
  import opened Chat

  /** One line of a transcript. */
  datatype Turn = Turn(role: string, content: string)

  /** The turns a list of records should read back as. */
  function Turns(items: seq<Record>): (ts: seq<Turn>)
    ensures |ts| == |items|
    ensures forall i :: 0 <= i < |items| ==> ts[i] == Turn(items[i].role, items[i].content)
  {
    if items == [] then [] else [Turn(items[0].role, items[0].content)] + Turns(items[1..])
  }

  /** Position of the first `c` in `s`, or `|s|` when there is none. */
  function IndexOf(s: string, c: char): (i: nat)
    ensures i <= |s|
    ensures forall j :: 0 <= j < i ==> s[j] != c
    ensures i < |s| ==> s[i] == c
  {
    if s == [] then 0
    else if s[0] == c then 0
    else 1 + IndexOf(s[1..], c)
  }

  /** Reads newline-terminated `role: content` lines. */
  function ParseBody(s: string): Option<seq<Turn>>
    decreases |s|
  {
    if s == [] then Some([])
    else
      var nl := IndexOf(s, '\n');
      if nl == |s| then None
      else
        var line := s[..nl];
        var colon := IndexOf(line, ':');
        if colon + 1 >= |line| || line[colon + 1] != ' ' then None
        else
          match ParseBody(s[nl + 1..])
          case None => None
          case Some(rest) => Some([Turn(line[..colon], line[colon + 2..])] + rest)
  }

  /** Reads a whole prompt: the transcript, then the completion cue. */
  function ParsePrompt(s: string): Option<seq<Turn>> {
    if |s| >= |Cue| && s[|s| - |Cue|..] == Cue then ParseBody(s[..|s| - |Cue|]) else None
  }

  /** A record whose line reads back unambiguously. */
  predicate Readable(r: Record) {
    ':' !in r.role && '\n' !in r.role && '\n' !in r.content
  }

  /** The first `c` of `a + [c] + b` is the one after `a` when `a` has none. */
  lemma IndexOfAfter(a: string, c: char, b: string)
    requires c !in a
    ensures IndexOf(a + [c] + b, c) == |a|
  {
    var s := a + [c] + b;
    assert s[|a|] == c;
    assert forall j :: 0 <= j < |a| ==> s[j] == a[j];
  }

  /** An item line, without its newline, holds no newline. */
  lemma LineHasNoNewline(r: Record)
    requires Readable(r)
    ensures '\n' !in r.role + ": " + r.content
  {
    var line := r.role + ": " + r.content;
    forall j | 0 <= j < |line| ensures line[j] != '\n' {
      if j < |r.role| {
        assert line[j] == r.role[j];
      } else if j >= |r.role| + 2 {
        assert line[j] == r.content[j - |r.role| - 2];
      }
    }
  }

  /** An item line splits at its first colon into role and content. */
  lemma SplitAtColon(r: Record)
    requires Readable(r)
    ensures var line := r.role + ": " + r.content;
      var colon := IndexOf(line, ':');
      colon == |r.role| && colon + 1 < |line| && line[colon + 1] == ' '
      && line[..colon] == r.role && line[colon + 2..] == r.content
  {
    var line := r.role + ": " + r.content;
    assert line == r.role + [':'] + (" " + r.content);
    IndexOfAfter(r.role, ':', " " + r.content);
  }

  /** Reading back one line in front of the rest of a transcript. */
  lemma ParseLine(r: Record, rest: string)
    requires Readable(r)
    ensures ParseBody(ItemLine(r) + rest)
         == match ParseBody(rest)
            case None => None
            case Some(ts) => Some([Turn(r.role, r.content)] + ts)
  {
    var line := r.role + ": " + r.content;
    var s := ItemLine(r) + rest;
    assert s == line + "\n" + rest;
    LineHasNoNewline(r);
    IndexOfAfter(line, '\n', rest);
    assert s[..|line|] == line;
    assert s[|line| + 1..] == rest;
    SplitAtColon(r);
  }

  /** The loop's output reads back as the records' turns. */
  lemma {:induction false} BodyRoundTrip(items: seq<Record>)
    requires forall i :: 0 <= i < |items| ==> Readable(items[i])
    ensures ParseBody(RenderBody(items)) == Some(Turns(items))
  {
    if items != [] {
      BodyRoundTrip(items[1..]);
      ParseLine(items[0], RenderBody(items[1..]));
    }
  }

  /** No role tag holds a colon or a newline. */
  lemma RoleReadable(m: Message, str: Content -> string)
    ensures ':' !in ChatToRecord(m, str).role && '\n' !in ChatToRecord(m, str).role
  {
    match m
    case System(_, _) => assert ChatToRecord(m, str).role == "system";
    case User(_, _) => assert ChatToRecord(m, str).role == "user";
    case Assistant(_, _, _) => assert ChatToRecord(m, str).role == "assistant";
    case Tool(_, _) => assert ChatToRecord(m, str).role == "tool";
  }

  /** Every record built from a message is readable when the message's
      content string holds no newline. */
  lemma BuiltItemsReadable(ms: seq<Message>, str: Content -> string)
    requires forall i :: 0 <= i < |ms| ==> '\n' !in str(ms[i].content)
    ensures forall i :: 0 <= i < |ms| ==> Readable(BuildItems(ms, str)[i])
  {
    forall i | 0 <= i < |ms| ensures Readable(BuildItems(ms, str)[i]) {
      RoleReadable(ms[i], str);
    }
  }

  /** The default template's prompt reads back as the conversation's roles
      and content strings, in order. */
  lemma PromptRoundTrip(ms: seq<Message>, str: Content -> string)
    requires forall i :: 0 <= i < |ms| ==> '\n' !in str(ms[i].content)
    ensures ParsePrompt(RenderDefault(BuildItems(ms, str))) == Some(Turns(BuildItems(ms, str)))
  {
    var items := BuildItems(ms, str);
    var s := RenderDefault(items);
    BuiltItemsReadable(ms, str);
    BodyRoundTrip(items);
    assert s[..|s| - |Cue|] == RenderBody(items);
  }

  /** Content holding a newline can forge a turn: one user message whose
      text is `a`, a newline and `user: b` renders to the same prompt as two
      user messages `a` and `b`, so the prompt alone cannot tell them apart. */
  lemma NewlineForgesTurn(str: Content -> string)
    requires str(Text("a\nuser: b")) == "a\nuser: b"
    requires str(Text("a")) == "a" && str(Text("b")) == "b"
    ensures var one := [User(Text("a\nuser: b"), None)];
      var two := [User(Text("a"), None), User(Text("b"), None)];
      |BuildItems(one, str)| != |BuildItems(two, str)|
      && RenderDefault(BuildItems(one, str)) == RenderDefault(BuildItems(two, str))
  {
    var forged := User(Text("a\nuser: b"), None);
    var a, b := User(Text("a"), None), User(Text("b"), None);
    AppendMessage([], forged, str);
    assert [] + [forged] == [forged];
    assert [a, b] == [a] + [b];
    AppendMessage([a], b, str);
    SingleMessageBody(a, str);
    assert RenderBody(BuildItems([], str)) == "";
    var rf, ra, rb := ChatToRecord(forged, str), ChatToRecord(a, str), ChatToRecord(b, str);
    assert rf.role == "user" && rf.content == "a\nuser: b";
    assert ra.role == "user" && ra.content == "a";
    assert rb.role == "user" && rb.content == "b";
    ForgedLiteral();
  }

  /** Solver helper for `NewlineForgesTurn`: both renderings spell the same
      text. States nothing about the model. */
  lemma ForgedLiteral()
    ensures "" + ("user" + ": " + "a\nuser: b" + "\n") + Cue
         == "user" + ": " + "a" + "\n" + ("user" + ": " + "b" + "\n") + Cue
  {
  }
}
