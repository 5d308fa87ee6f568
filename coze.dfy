/** The validator and assistant client (backend/src/services/cozeService.js):
    which API a task goes to, how a verdict is read out of a workflow's
    event stream or a bot's reply, and how the assistant's event stream is
    accumulated into one answer.

    The HTTP requests are not made here: their response bodies are inputs,
    `None` where the request itself fails (and the service throws).
    `JSON.parse` is the `parse` parameter, and `render` is JavaScript's
    string conversion for values that are not strings. */
module Coze {
  import opened Common
  import opened Json

  /** What the validator gives back: a thrown error, or the verdict. */
  datatype CozeOutcome = Threw(message: string) | Verdict(passed: bool, feedback: Value)

  const KeyMissing: string := "Coze API Key 未配置"
  /** The error for a configuration with neither id. The source also names
      the configuration's `type` inside the message; no caller reads the
      text, so the model leaves that part out. */
  const ConfigMissing: string := "NPC 配置错误：缺少 workflowId 或 botId"
  const AssistantMissing: string := "Coze 助教 API 未配置"
  const RequestFailed: string := "request failed"
  /** Feedback when the verdict object names none. */
  const DefaultFeedback: string := "验证完成"
  /** Feedback when the workflow stream holds no usable verdict. */
  const MalformedReply: string := "验证服务响应格式异常，请稍后重试"
  /** The assistant's answer when the stream yields no text. */
  const NoAnswer: string := "抱歉，我暂时无法回答这个问题。"

  // ---------------------------------------------------------------
  // The parser's contract
  // ---------------------------------------------------------------

  /** JSON white space. */
  predicate JsonBlank(l: string)
  {
    forall k :: 0 <= k < |l| ==> l[k] in {' ', '\t', '\n', '\r'}
  }

  /** `s + '\n' + l` */
  function Joined(s: string, l: string): string
  {
    s + "\n" + l
  }

  /** What `JSON.parse` guarantees and the line-joining loop relies on: once
      a text parses, appending a line that is not white space makes it fail,
      whatever is appended after that (a JSON text holds exactly one value),
      and appending a white-space line changes nothing. */
  ghost predicate StrictJson(parse: Parser)
  {
    && (forall s, l, t {:trigger parse(Joined(s, l) + t)} ::
          parse(s).Some? && !JsonBlank(l) ==> parse(Joined(s, l) + t).None?)
    && (forall s, l {:trigger parse(Joined(s, l))} :: JsonBlank(l) ==> parse(Joined(s, l)) == parse(s))
  }

  /** `first` followed by each of `more` on a line of its own: the text the
      retry has built after appending `more`. */
  function JoinRun(first: string, more: seq<string>): string
    decreases |more|
  {
    if more == [] then first
    else Joined(JoinRun(first, more[..|more| - 1]), more[|more| - 1])
  }

  /** A parse that the scan cannot read `.content` from without falling
      into its `catch`: it threw, or gave `null`. */
  predicate Dead(p: Option<Value>)
  {
    p.None? || p.value == JNull
  }

  /** `messageData && messageData.content` */
  predicate HasContent(md: Option<Value>)
  {
    md.Some? && Truthy(Get(md.value, "content"))
  }

  // ---------------------------------------------------------------
  // Workflow stream scan
  // ---------------------------------------------------------------

  /** A trimmed line the scan looks at: it starts with `data: ` and
      mentions `"content"`. */
  predicate Candidate(line: string)
  {
    var t := Trim(line);
    StartsWith(t, "data: ") && Contains(t, "\"content\"")
  }

  /** The JSON text of a candidate line, after `data: `. */
  function Payload(line: string): (p: string)
    requires Candidate(line)
    ensures Trim(line) == "data: " + p
  {
    var t := Trim(line);
    assert t == t[..6] + t[6..];
    t[6..]
  }

  /** The candidate line parses on its own to an object whose `content`
      is truthy. */
  predicate SingleHit(parse: Parser, line: string)
  {
    Candidate(line) && !Dead(parse(Payload(line))) && HasContent(parse(Payload(line)))
  }

  /** The candidate line parses on its own, but its `content` is falsy. */
  predicate SingleMiss(parse: Parser, line: string)
  {
    Candidate(line) && !Dead(parse(Payload(line))) && !HasContent(parse(Payload(line)))
  }

  /** Line `k` is the first to hit, and every candidate before it parsed
      on its own without content. */
  predicate FirstHit(lines: seq<string>, parse: Parser, k: nat)
    requires k < |lines|
  {
    && SingleHit(parse, lines[k])
    && forall m :: 0 <= m < k && Candidate(lines[m]) ==> SingleMiss(parse, lines[m])
  }

  /** The text the retry from candidate line `i` parses once it has
      appended the lines after `i` up to line `m`. */
  function RetryText(lines: seq<string>, i: nat, first: string, m: nat): string
    requires i < m < |lines|
  {
    JoinRun(first, lines[i + 1..m + 1])
  }

  /** The `catch` branch of the scan: the candidate's payload `first` did
      not parse, so the following lines are appended one at a time and the
      text re-parsed, until a parse with `content` or ten lines past `i`.
      A parse without content is kept in `messageData` and the same line is
      appended once more, which, by the parser's contract, fails for good.
      So `messageData` ends as it was, or as the parse of `first` joined with
      the lines after `i` up to some line at most ten lines on. */
  method JoinLines(lines: seq<string>, i: nat, first: string, parse: Parser, md0: Option<Value>)
    returns (md: Option<Value>)
    requires i < |lines| && StrictJson(parse) && Dead(parse(first))
    ensures md == md0 || exists m :: i < m < |lines| && m - i <= 10 && md == parse(RetryText(lines, i, first, m))
  {
    var jsonStr := first;
    var j := i + 1;
    md := md0;
    // Phase 0: every text so far failed. Phase 1: the last text parsed
    // without content. Phase 2: a text that parsed has had a line appended,
    // and no later line can make it parse again.
    ghost var phase := 0;
    ghost var ps, pl, pt := "", "", "";
    ghost var m := i;
    while j < |lines|
      invariant i < j <= |lines| && 0 <= phase <= 2
      invariant phase == 0 ==> j - i <= 10 && jsonStr == JoinRun(first, lines[i + 1..j]) && Dead(parse(jsonStr))
      invariant phase == 1 ==> && j < |lines| && j - i <= 10
                               && jsonStr == JoinRun(first, lines[i + 1..j + 1]) && !Dead(parse(jsonStr))
                               && Dead(parse(JoinRun(first, lines[i + 1..j])))
      invariant phase == 2 ==> jsonStr == Joined(ps, pl) + pt && parse(ps).Some? && !JsonBlank(pl)
      invariant md == md0 || (i < m < |lines| && m - i <= 10 && md == parse(RetryText(lines, i, first, m)))
      decreases 2 * (|lines| - j) + (if phase == 1 then 0 else 1)
    {
      ghost var before := jsonStr;
      jsonStr := Joined(jsonStr, lines[j]);
      if phase == 0 {
        assert lines[i + 1..j + 1][..j - i - 1] == lines[i + 1..j];
        assert jsonStr == JoinRun(first, lines[i + 1..j + 1]);
        assert jsonStr == RetryText(lines, i, first, j);
      } else if phase == 1 {
        assert lines[i + 1..j + 1][..j - i - 1] == lines[i + 1..j];
        assert !JsonBlank(lines[j]);
        ps, pl, pt := before, lines[j], "";
        assert jsonStr == Joined(ps, pl) + pt;
        phase := 2;
      } else {
        assert jsonStr == Joined(ps, pl) + (pt + "\n" + lines[j]);
        pt := pt + "\n" + lines[j];
      }
      var p := parse(jsonStr);
      if !Dead(p) {
        md, m := p, j;
        if HasContent(p) {
          break;
        }
        phase := 1;
      } else {
        if p.Some? {
          md, m := p, j;
        }
        j := j + 1;
        if j - i > 10 {
          break;
        }
      }
    }
  }

  /** One iteration of the scan on candidate line `i`: `hit` is whether
      the loop breaks there. */
  method ScanLine(lines: seq<string>, i: nat, parse: Parser, md0: Option<Value>)
    returns (md: Option<Value>, hit: bool)
    requires i < |lines| && Candidate(lines[i]) && StrictJson(parse)
    requires md0 == None || exists t :: md0 == parse(t)
    ensures hit <==> HasContent(md)
    ensures SingleHit(parse, lines[i]) ==> hit && md == parse(Payload(lines[i]))
    ensures SingleMiss(parse, lines[i]) ==> !hit
    ensures md == None || exists t :: md == parse(t)
  {
    var first := Payload(lines[i]);
    var p := parse(first);
    if !Dead(p) {
      md := p;
    } else {
      md := md0;
      if p.Some? {
        md := p;
      }
      md := JoinLines(lines, i, first, parse, md);
    }
    hit := HasContent(md);
  }

  /** When no line before `i` hits on its own and candidate line `i` does
      not parse on its own into a value without content, no line other than
      `i` is the first hit. */
  lemma OnlyFirstHitAt(lines: seq<string>, parse: Parser, i: nat)
    requires i < |lines| && Candidate(lines[i]) && !SingleMiss(parse, lines[i])
    requires forall k :: 0 <= k < i ==> !SingleHit(parse, lines[k])
    ensures forall k :: 0 <= k < |lines| && k != i ==> !FirstHit(lines, parse, k)
  {
  }

  /** The scan of `callWorkflow` over the lines of the response. It keeps
      `messageData` (initially null) and stops at the first line where it
      holds a truthy `content`. With no candidate line it stays null; when
      the first hit is a line that parses on its own and no earlier
      candidate needed joining, the result is that line's parse. */
  method ScanWorkflow(lines: seq<string>, parse: Parser) returns (md: Option<Value>)
    requires StrictJson(parse)
    ensures (forall k :: 0 <= k < |lines| ==> !Candidate(lines[k])) ==> md == None
    ensures forall k :: 0 <= k < |lines| && FirstHit(lines, parse, k) ==> md == parse(Payload(lines[k]))
    ensures md == None || exists t :: md == parse(t)
  {
    md := None;
    var i := 0;
    while i < |lines|
      invariant 0 <= i <= |lines|
      invariant (forall k :: 0 <= k < i ==> !Candidate(lines[k])) ==> md == None
      invariant forall k :: 0 <= k < i ==> !SingleHit(parse, lines[k])
      invariant md == None || exists t :: md == parse(t)
    {
      if Candidate(lines[i]) {
        var hit;
        md, hit := ScanLine(lines, i, parse, md);
        if hit {
          assert forall k :: 0 <= k < |lines| && FirstHit(lines, parse, k) ==> md == parse(Payload(lines[k])) by {
            OnlyFirstHitAt(lines, parse, i);
          }
          return;
        }
      }
      i := i + 1;
    }
  }

  /** The `content` variable after the scan: a string is parsed (null when
      that throws), an object or array is taken as is, anything else is
      null. */
  function ContentOf(md: Option<Value>, parse: Parser): (c: Option<Value>)
    ensures c.Some? ==> HasContent(md)
    ensures HasContent(md) && Get(md.value, "content").value.JStr? ==>
      c == parse(Get(md.value, "content").value.s)
  {
    if !HasContent(md) then None
    else
      var data := Get(md.value, "content").value;
      if data.JStr? then parse(data.s)
      else if data.JObj? || data.JArr? then Some(data)
      else None
  }

  /** `typeof content === 'object'` on a truthy value. */
  predicate ObjectLike(c: Option<Value>)
  {
    c.Some? && (c.value.JObj? || c.value.JArr?)
  }

  /** The workflow verdict: passed iff `pass` or `passed` is the boolean
      true; feedback is the first truthy of `reason`, `feedback`, `message`,
      else the default text. Without an object verdict: failed, with the
      fixed message. */
  function WorkflowVerdict(c: Option<Value>): (r: CozeOutcome)
    ensures r.Verdict?
    ensures r.passed <==> ObjectLike(c) && (IsTrue(c.value, "pass") || IsTrue(c.value, "passed"))
    ensures !ObjectLike(c) ==> r.feedback == JStr(MalformedReply)
    ensures ObjectLike(c) && Truthy(Get(c.value, "reason")) ==> Some(r.feedback) == Get(c.value, "reason")
    ensures ObjectLike(c) && !Truthy(Get(c.value, "reason")) && Truthy(Get(c.value, "feedback")) ==>
      Some(r.feedback) == Get(c.value, "feedback")
    ensures ObjectLike(c) && !Truthy(Get(c.value, "reason")) && !Truthy(Get(c.value, "feedback")) ==>
      (Truthy(Get(c.value, "message")) ==> Some(r.feedback) == Get(c.value, "message"))
      && (!Truthy(Get(c.value, "message")) ==> r.feedback == JStr(DefaultFeedback))
  {
    if ObjectLike(c) then
      var o := c.value;
      Verdict(IsTrue(o, "pass") || IsTrue(o, "passed"),
              Or(Get(o, "reason"), Or(Get(o, "feedback"), Or(Get(o, "message"), JStr(DefaultFeedback)))))
    else Verdict(false, JStr(MalformedReply))
  }

  /** Whatever the workflow answers, the feedback is never empty, and a
      `pass` that is merely truthy (a string `"true"`, the number 1) does
      not pass. */
  lemma WorkflowVerdictFacts(c: Option<Value>)
    ensures Truthy(Some(WorkflowVerdict(c).feedback))
    ensures ObjectLike(c) && Get(c.value, "pass") == Some(JStr("true")) && !IsTrue(c.value, "passed") ==>
      !WorkflowVerdict(c).passed
  {
  }

  /** The verdict a candidate line gives when it parses on its own. */
  function LineVerdict(line: string, parse: Parser): CozeOutcome
    requires Candidate(line)
  {
    WorkflowVerdict(ContentOf(parse(Payload(line)), parse))
  }

  /** What `CallWorkflow` promises of its verdict `r` for `response`. */
  predicate WorkflowRead(response: string, parse: Parser, r: CozeOutcome)
  {
    var lines := Split(response, '\n');
    && ((forall k :: 0 <= k < |lines| ==> !Candidate(lines[k])) ==> r == Verdict(false, JStr(MalformedReply)))
    && (forall k :: 0 <= k < |lines| && FirstHit(lines, parse, k) ==> r == LineVerdict(lines[k], parse))
  }

  /** `callWorkflow` once the response body is in hand: the verdict of the
      first line that parses on its own with content, when no earlier
      candidate needed joining; the fixed failure when no line is a
      candidate; never an empty feedback. */
  method CallWorkflow(response: string, parse: Parser) returns (r: CozeOutcome)
    requires StrictJson(parse)
    ensures r.Verdict? && Truthy(Some(r.feedback))
    ensures (forall k :: 0 <= k < |Split(response, '\n')| ==> !Candidate(Split(response, '\n')[k])) ==>
      r == Verdict(false, JStr(MalformedReply))
    ensures forall k :: 0 <= k < |Split(response, '\n')| && FirstHit(Split(response, '\n'), parse, k) ==>
      r == LineVerdict(Split(response, '\n')[k], parse)
  {
    var md := ScanWorkflow(Split(response, '\n'), parse);
    r := WorkflowVerdict(ContentOf(md, parse));
    WorkflowVerdictFacts(ContentOf(md, parse));
  }

  // ---------------------------------------------------------------
  // Bot reply
  // ---------------------------------------------------------------

  datatype BotMessage = BotMessage(role: string, content: Option<string>)

  /** `messages.find(m => m.role === 'assistant')?.content || ''`: the
      content of the first assistant message, empty when it has none or
      when no message is the assistant's. */
  function BotReply(messages: seq<BotMessage>): (reply: string)
    ensures (forall k :: 0 <= k < |messages| ==> messages[k].role != "assistant") ==> reply == ""
    ensures forall k :: 0 <= k < |messages| && messages[k].role == "assistant"
                        && (forall j :: 0 <= j < k ==> messages[j].role != "assistant") ==>
      reply == (if messages[k].content.Some? then messages[k].content.value else "")
  {
    if messages == [] then ""
    else if messages[0].role == "assistant" then
      (if messages[0].content.Some? then messages[0].content.value else "")
    else
      assert forall k :: 1 <= k < |messages| ==> messages[k] == messages[1..][k - 1];
      BotReply(messages[1..])
  }

  /** The bot verdict: passed iff the reply mentions 通过, 正确 or 完美;
      the feedback is the reply, or the default text for an empty one. */
  function BotVerdict(reply: string): (r: CozeOutcome)
    ensures r.Verdict?
    ensures r.passed <==> Contains(reply, "通过") || Contains(reply, "正确") || Contains(reply, "完美")
    ensures r.feedback == JStr(if reply == "" then DefaultFeedback else reply)
  {
    Verdict(Contains(reply, "通过") || Contains(reply, "正确") || Contains(reply, "完美"),
            JStr(if reply == "" then DefaultFeedback else reply))
  }

  /** A substring of a string occurs in any string that contains it. */
  lemma {:induction false} ContainsExtend(pre: string, s: string, post: string, sub: string)
    requires Contains(s, sub)
    ensures Contains(pre + s + post, sub)
    decreases |pre| + |s|
  {
    if pre != [] {
      assert (pre + s + post)[1..] == pre[1..] + s + post;
      ContainsExtend(pre[1..], s, post, sub);
    } else if StartsWith(s, sub) {
      assert pre + s + post == s + post;
      assert (s + post)[..|sub|] == s[..|sub|];
    } else {
      assert pre + s + post == s + post;
      assert (s + post)[1..] == [] + s[1..] + post;
      ContainsExtend([], s[1..], post, sub);
    }
  }

  /** A passing reply keeps passing whatever text the bot wraps around it,
      and an empty reply fails. */
  lemma BotVerdictMonotone(pre: string, reply: string, post: string)
    ensures BotVerdict(reply).passed ==> BotVerdict(pre + reply + post).passed
    ensures !BotVerdict("").passed
  {
    if Contains(reply, "通过") { ContainsExtend(pre, reply, post, "通过"); }
    if Contains(reply, "正确") { ContainsExtend(pre, reply, post, "正确"); }
    if Contains(reply, "完美") { ContainsExtend(pre, reply, post, "完美"); }
  }

  // ---------------------------------------------------------------
  // Dispatch
  // ---------------------------------------------------------------

  /** `validateWithCoze(npcConfig, content)`: without an API key it throws
      before any request; a truthy `workflowId` goes to the workflow and
      wins over `botId`, and its answer is read as `CallWorkflow` reads it;
      a truthy `botId` alone goes to the bot; with neither it throws. A
      failed request throws. */
  method ValidateWithCoze(apiKey: bool, npcConfig: Value, workflowResponse: Option<string>,
                          botMessages: Option<Option<seq<BotMessage>>>, parse: Parser)
    returns (r: CozeOutcome)
    requires StrictJson(parse)
    ensures !apiKey ==> r == Threw(KeyMissing)
    ensures apiKey && Truthy(Get(npcConfig, "workflowId")) ==>
      (workflowResponse.None? ==> r == Threw(RequestFailed)) && (workflowResponse.Some? ==> r.Verdict?)
      && (r.Verdict? ==> Truthy(Some(r.feedback)))
    ensures apiKey && Truthy(Get(npcConfig, "workflowId")) && workflowResponse.Some? ==>
      WorkflowRead(workflowResponse.value, parse, r)
    ensures apiKey && !Truthy(Get(npcConfig, "workflowId")) && Truthy(Get(npcConfig, "botId")) ==>
      r == (if botMessages.None? then Threw(RequestFailed)
            else BotVerdict(BotReply(if botMessages.value.Some? then botMessages.value.value else [])))
    ensures apiKey && !Truthy(Get(npcConfig, "workflowId")) && !Truthy(Get(npcConfig, "botId")) ==>
      r == Threw(ConfigMissing)
  {
    if !apiKey {
      return Threw(KeyMissing);
    }
    if Truthy(Get(npcConfig, "workflowId")) {
      if workflowResponse.None? {
        return Threw(RequestFailed);
      }
      r := CallWorkflow(workflowResponse.value, parse);
      return;
    }
    if Truthy(Get(npcConfig, "botId")) {
      if botMessages.None? {
        return Threw(RequestFailed);
      }
      var messages := if botMessages.value.Some? then botMessages.value.value else [];
      return BotVerdict(BotReply(messages));
    }
    r := Threw(ConfigMissing);
  }

  // ---------------------------------------------------------------
  // Assistant stream
  // ---------------------------------------------------------------

  /** `String(v)` for a value in a string concatenation. */
  function Show(v: Value, render: Value -> string): string
  {
    if v.JStr? then v.s else render(v)
  }

  /** The JSON text of an event line, or `None` for a line the loop skips
      before parsing (no `data:` prefix, an empty payload, `[DONE]`). */
  function EventPayload(line: string): (p: Option<string>)
    ensures p.Some? ==> StartsWith(line, "data:") && p.value != "" && p.value != "[DONE]"
    ensures !StartsWith(line, "data:") ==> p.None?
  {
    if !StartsWith(line, "data:") then None
    else
      var j := Trim(line[5..]);
      if j == "" || j == "[DONE]" then None else Some(j)
  }

  /** The parsed event of a line, when it is read at all: lines that are
      skipped, fail to parse, or parse to `null` (whose property reads
      throw inside the `try`) give nothing. */
  function EventOf(line: string, parse: Parser): (ev: Option<Value>)
    ensures ev.Some? ==> ev.value != JNull && EventPayload(line).Some?
  {
    var p := EventPayload(line);
    if p.None? || Dead(parse(p.value)) then None else parse(p.value)
  }

  /** The text one event adds: its own `content` when `type` is `answer`,
      then `message.content` when `message.type` is `answer`. */
  function EventText(ev: Value, render: Value -> string): string
  {
    (if Get(ev, "type") == Some(JStr("answer")) && Truthy(Get(ev, "content"))
     then Show(Get(ev, "content").value, render) else "")
    + (if Get(ev, "message").Some? && Get(Get(ev, "message").value, "type") == Some(JStr("answer"))
          && Truthy(Get(Get(ev, "message").value, "content"))
       then Show(Get(Get(ev, "message").value, "content").value, render) else "")
  }

  function LineText(line: string, parse: Parser, render: Value -> string): string
  {
    var ev := EventOf(line, parse);
    if ev.Some? then EventText(ev.value, render) else ""
  }

  /** The conversation id a line carries, when truthy. */
  function LineId(line: string, parse: Parser): Option<Value>
  {
    var ev := EventOf(line, parse);
    if ev.Some? && Truthy(Get(ev.value, "conversation_id")) then Get(ev.value, "conversation_id") else None
  }

  /** The answer text of a run of lines: their texts, in order. */
  function StreamText(lines: seq<string>, parse: Parser, render: Value -> string): string
  {
    if lines == [] then ""
    else StreamText(lines[..|lines| - 1], parse, render) + LineText(lines[|lines| - 1], parse, render)
  }

  /** The last conversation id seen in a run of lines. */
  function StreamId(lines: seq<string>, parse: Parser): (r: Option<Value>)
    ensures r.Some? ==> Truthy(r)
  {
    if lines == [] then None
    else if LineId(lines[|lines| - 1], parse).Some? then LineId(lines[|lines| - 1], parse)
    else StreamId(lines[..|lines| - 1], parse)
  }

  /** The stream can be cut at any line boundary: the answer of the whole
      is the answer of the first part followed by that of the second. */
  lemma {:induction false} StreamTextAppend(a: seq<string>, b: seq<string>, parse: Parser, render: Value -> string)
    ensures StreamText(a + b, parse, render) == StreamText(a, parse, render) + StreamText(b, parse, render)
    decreases |b|
  {
    if b == [] {
      assert a + b == a;
    } else {
      var b' := b[..|b| - 1];
      var last := b[|b| - 1];
      StreamTextAppend(a, b', parse, render);
      assert (a + b)[..|a + b| - 1] == a + b' && (a + b)[|a + b| - 1] == last;
      AppendAssoc(StreamText(a, parse, render), StreamText(b', parse, render), LineText(last, parse, render));
    }
  }

  lemma AppendAssoc(x: string, y: string, z: string)
    ensures (x + y) + z == x + (y + z)
  {
  }

  /** The id of the whole is the second part's last id when it has one,
      else the first part's. */
  lemma {:induction false} StreamIdAppend(a: seq<string>, b: seq<string>, parse: Parser)
    ensures StreamId(a + b, parse) == if StreamId(b, parse).Some? then StreamId(b, parse) else StreamId(a, parse)
    decreases |b|
  {
    if b == [] {
      assert a + b == a;
    } else {
      var b' := b[..|b| - 1];
      StreamIdAppend(a, b', parse);
      assert (a + b)[..|a + b| - 1] == a + b';
    }
  }

  /** A line without the `data:` prefix changes neither answer nor id. */
  lemma SkippedLine(lines: seq<string>, line: string, parse: Parser, render: Value -> string)
    requires !StartsWith(line, "data:")
    ensures StreamText(lines + [line], parse, render) == StreamText(lines, parse, render)
    ensures StreamId(lines + [line], parse) == StreamId(lines, parse)
  {
    assert (lines + [line])[..|lines|] == lines;
  }

  datatype ChatReply = ChatThrew(message: string) | Answer(answer: string, conversationId: Option<Value>)

  /** The accumulation loop of `chatWithCozeAssistant` over the lines of
      the response text. */
  method AccumulateStream(lines: seq<string>, conversationId: Option<Value>, parse: Parser, render: Value -> string)
    returns (answer: string, conv: Option<Value>)
    ensures answer == StreamText(lines, parse, render)
    ensures conv == (if StreamId(lines, parse).Some? then StreamId(lines, parse)
                     else if Truthy(conversationId) then conversationId else None)
  {
    conv := if Truthy(conversationId) then conversationId else None;
    answer := "";
    var i := 0;
    while i < |lines|
      invariant 0 <= i <= |lines|
      invariant answer == StreamText(lines[..i], parse, render)
      invariant conv == (if StreamId(lines[..i], parse).Some? then StreamId(lines[..i], parse)
                         else if Truthy(conversationId) then conversationId else None)
    {
      assert lines[..i + 1][..i] == lines[..i];
      var ev := EventOf(lines[i], parse);
      if ev.Some? {
        if Truthy(Get(ev.value, "conversation_id")) {
          conv := Get(ev.value, "conversation_id");
        }
        answer := answer + EventText(ev.value, render);
      }
      i := i + 1;
    }
    assert lines[..|lines|] == lines;
  }

  /** `chatWithCozeAssistant`: throws without key or bot id, or when the
      request fails; otherwise the accumulated answer (the fixed apology
      when empty) and the last conversation id, else the one passed in. */
  method ChatWithAssistant(configured: bool, response: Option<string>, conversationId: Option<Value>,
                           parse: Parser, render: Value -> string)
    returns (r: ChatReply)
    ensures !configured ==> r == ChatThrew(AssistantMissing)
    ensures configured && response.None? ==> r.ChatThrew?
    ensures configured && response.Some? ==>
      var lines := Split(response.value, '\n');
      var text := StreamText(lines, parse, render);
      && r.Answer?
      && r.answer == (if text == "" then NoAnswer else text)
      && r.conversationId == (if StreamId(lines, parse).Some? then StreamId(lines, parse)
                              else if Truthy(conversationId) then conversationId else None)
    ensures r.Answer? ==> r.answer != ""
  {
    if !configured {
      return ChatThrew(AssistantMissing);
    }
    if response.None? {
      return ChatThrew(RequestFailed);
    }
    var answer, conv := AccumulateStream(Split(response.value, '\n'), conversationId, parse, render);
    if answer == "" {
      answer := NoAnswer;
    }
    r := Answer(answer, conv);
  }
}
