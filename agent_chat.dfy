/**
 * The conversation side of scripts/08_test_foundry_agent.py: one `chat` turn against the agent
 * service (answering its `execute_sql` calls until it replies in words), the sample questions
 * read from the configuration folder, and the read-eval-print loop around them.
 *
 * The agent service is a script: the answers the service gives, in the order it gives them,
 * one per `responses.create` request. A script that runs out stands for a service that gives
 * no further answer; the request then fails like any other failing request.
 */
module AgentChat {
  import opened Wrappers
  import opened Strings
  import opened Collections
  import AgentSql

  /** One content part of a `message` output item; only parts with a `text` attribute count. */
  datatype Content = TextContent(text: string) | OtherContent

  /** `json.loads(fc.arguments)`: a JSON object of strings, or a payload that makes it raise. */
  datatype Arguments = Decoded(fields: map<string, string>) | Undecodable

  datatype Call = Call(name: string, arguments: Arguments, callId: string)

  /** An item of `response.output`: a function call, a message, or anything else (ignored). */
  datatype Item = FunctionCall(call: Call) | Message(content: seq<Content>) | OtherItem

  /** What one `responses.create` request yields: a response, or the exception it raises. */
  datatype Answer = Responded(output: seq<Item>) | Fault(reason: string)

  /** A `function_call_output` entry sent back to the service. */
  datatype ToolOutput = ToolOutput(callId: string, output: string)

  /** The `input` of one `responses.create` request. */
  datatype RequestInput = UserMessage(text: string) | FunctionOutputs(outputs: seq<ToolOutput>)

  /** Why a turn raised instead of returning. */
  datatype ChatError =
    | EndpointFault(reason: string)  // a request to the service raised
    | NoAnswer                       // the service gave no further answer
    | BadArguments(callId: string)   // `json.loads` raised on this call's arguments

  datatype ChatOutcome = Replied(text: string) | Raised(error: ChatError)

  /** A turn's outcome, how many answers of the script it consumed, and the requests it sent. */
  datatype TurnResult = TurnResult(outcome: ChatOutcome, consumed: nat, sent: seq<RequestInput>)

  /** The one function the script answers. */
  const SqlTool: string := "execute_sql"

  // ---------------------------------------------------------------------------------------
  // Reading one response
  // ---------------------------------------------------------------------------------------

  /** The text a content part adds to `final_text`: its text and a line break. */
  function ContentPiece(c: Content): string
  {
    if c.TextContent? then c.text + "\n" else ""
  }

  /** What the parts of one message add to `final_text`, in order. */
  function ContentText(contents: seq<Content>): string
  {
    if contents == [] then ""
    else ContentText(contents[..|contents| - 1]) + ContentPiece(contents[|contents| - 1])
  }

  function ItemText(item: Item): string
  {
    if item.Message? then ContentText(item.content) else ""
  }

  /** What the items of one response add to `final_text`, in order. */
  function MessageText(items: seq<Item>): string
  {
    if items == [] then "" else MessageText(items[..|items| - 1]) + ItemText(items[|items| - 1])
  }

  /** The `function_calls` list of lines 239-243: the calls among the items, in order. */
  function FunctionCalls(items: seq<Item>): (r: seq<Call>)
    ensures |r| <= |items|
    ensures forall c :: c in r <==> FunctionCall(c) in items
  {
    if items == [] then []
    else
      var last := items[|items| - 1];
      assert items == items[..|items| - 1] + [last];
      FunctionCalls(items[..|items| - 1]) + (if last.FunctionCall? then [last.call] else [])
  }

  lemma {:induction false} MessageTextConcat(a: seq<Item>, b: seq<Item>)
    ensures MessageText(a + b) == MessageText(a) + MessageText(b)
    decreases |b|
  {
    if b == [] {
      assert a + b == a;
    } else {
      var b' := b[..|b| - 1];
      var x := b[|b| - 1];
      assert (a + b)[..|a + b| - 1] == a + b' && (a + b)[|a + b| - 1] == x;
      MessageTextConcat(a, b');
      calc {
        MessageText(a + b);
        MessageText(a + b') + ItemText(x);
        (MessageText(a) + MessageText(b')) + ItemText(x);
        { AppendAssoc(MessageText(a), MessageText(b'), ItemText(x)); }
        MessageText(a) + (MessageText(b') + ItemText(x));
      }
    }
  }

  lemma {:induction false} FunctionCallsConcat(a: seq<Item>, b: seq<Item>)
    ensures FunctionCalls(a + b) == FunctionCalls(a) + FunctionCalls(b)
    decreases |b|
  {
    if b == [] {
      assert a + b == a;
    } else {
      var b' := b[..|b| - 1];
      assert (a + b)[..|a + b| - 1] == a + b';
      FunctionCallsConcat(a, b');
    }
  }

  /** Lines 246-248: the text parts of one message, each followed by a line break. */
  method ReadMessage(contents: seq<Content>, text: string) returns (text': string)
    ensures text' == text + ContentText(contents)
  {
    text' := text;
    var m := 0;
    while m < |contents|
      invariant 0 <= m <= |contents|
      invariant text' == text + ContentText(contents[..m])
    {
      assert contents[..m + 1][..m] == contents[..m];
      assert ContentText(contents[..m + 1]) == ContentText(contents[..m]) + ContentPiece(contents[m]);
      AppendAssoc(text, ContentText(contents[..m]), ContentPiece(contents[m]));
      if contents[m].TextContent? {
        text' := text' + (contents[m].text + "\n");
      } else {
        assert text' + ContentPiece(contents[m]) == text';
      }
      m := m + 1;
    }
    assert contents[..m] == contents;
  }

  /**
   * Lines 239-248 over one response: the calls it asks for, and the text appended to
   * `final_text` (every text part of every message, each followed by a line break).
   */
  method ReadResponse(items: seq<Item>, text: string) returns (calls: seq<Call>, text': string)
    ensures calls == FunctionCalls(items)
    ensures text' == text + MessageText(items)
  {
    calls := [];
    text' := text;
    var j := 0;
    while j < |items|
      invariant 0 <= j <= |items|
      invariant calls == FunctionCalls(items[..j])
      invariant text' == text + MessageText(items[..j])
    {
      var item := items[j];
      assert items[..j + 1][..j] == items[..j];
      assert MessageText(items[..j + 1]) == MessageText(items[..j]) + ItemText(item);
      AppendAssoc(text, MessageText(items[..j]), ItemText(item));
      match item {
        case FunctionCall(c) =>
          calls := calls + [c];
          assert text' + ItemText(item) == text';
        case Message(contents) =>
          text' := ReadMessage(contents, text');
        case OtherItem =>
          assert text' + ItemText(item) == text';
      }
      j := j + 1;
    }
    assert items[..j] == items;
  }

  // ---------------------------------------------------------------------------------------
  // Answering the function calls
  // ---------------------------------------------------------------------------------------

  /** `args.get("sql_query", "")`. */
  function QueryOf(fields: map<string, string>): string
  {
    if "sql_query" in fields then fields["sql_query"] else ""
  }

  /** The `function_call_output` for one decodable `execute_sql` call. */
  function OutputFor(c: Call, endpoint: Option<string>, db: string -> AgentSql.QueryOutcome): ToolOutput
    requires c.arguments.Decoded?
  {
    ToolOutput(c.callId, AgentSql.SqlResultText(endpoint, db(QueryOf(c.arguments.fields))))
  }

  /**
   * The `tool_outputs` list of lines 254-269: one output per `execute_sql` call, calls to any
   * other function skipped, and the first undecodable arguments raising.
   */
  function ToolOutputs(calls: seq<Call>, endpoint: Option<string>, db: string -> AgentSql.QueryOutcome)
    : (r: Result<seq<ToolOutput>, ChatError>)
    ensures r.Failure? ==> r.error.BadArguments?
  {
    if calls == [] then Success([])
    else match ToolOutputs(calls[..|calls| - 1], endpoint, db)
      case Failure(e) => Failure(e)
      case Success(outs) =>
        var c := calls[|calls| - 1];
        if c.name != SqlTool then Success(outs)
        else if c.arguments.Undecodable? then Failure(BadArguments(c.callId))
        else Success(outs + [OutputFor(c, endpoint, db)])
  }

  /** The calls the script answers, in order. */
  function SqlCalls(calls: seq<Call>): (r: seq<Call>)
    ensures forall c :: c in r <==> c in calls && c.name == SqlTool
    ensures IsSubsequence(r, calls)
  {
    if calls == [] then []
    else
      var init := calls[..|calls| - 1];
      var last := calls[|calls| - 1];
      assert calls == init + [last];
      SubsequenceSnoc(SqlCalls(init), init, last);
      if last.name == SqlTool then SqlCalls(init) + [last]
      else assert SqlCalls(init) + [] == SqlCalls(init); SqlCalls(init) + []
  }

  /** The ids of some calls, in order. */
  function CallIds(calls: seq<Call>): seq<string>
  {
    seq(|calls|, i requires 0 <= i < |calls| => calls[i].callId)
  }

  /** The ids of some outputs, in order. */
  function OutputIds(outs: seq<ToolOutput>): seq<string>
  {
    seq(|outs|, i requires 0 <= i < |outs| => outs[i].callId)
  }

  /**
   * The outputs answer calls of the response and keep their order: their ids form a
   * subsequence of the ids of the calls received.
   */
  lemma {:induction false} ToolOutputIdsInOrder(calls: seq<Call>, endpoint: Option<string>,
                                                db: string -> AgentSql.QueryOutcome)
    requires ToolOutputs(calls, endpoint, db).Success?
    ensures IsSubsequence(OutputIds(ToolOutputs(calls, endpoint, db).value), CallIds(calls))
    decreases |calls|
  {
    if calls != [] {
      var init := calls[..|calls| - 1];
      var c := calls[|calls| - 1];
      var outs := ToolOutputs(init, endpoint, db).value;
      ToolOutputIdsInOrder(init, endpoint, db);
      assert CallIds(calls) == CallIds(init) + [c.callId];
      SubsequenceSnoc(OutputIds(outs), CallIds(init), c.callId);
      if c.name == SqlTool {
        assert OutputIds(outs + [OutputFor(c, endpoint, db)]) == OutputIds(outs) + [c.callId];
      }
    }
  }

  /**
   * The outputs answer the `execute_sql` calls one for one and in order, each with its call's
   * id and the text `execute_sql` gives for its query; this fails exactly when some such call
   * has undecodable arguments, and then on the first of them.
   */
  lemma ToolOutputsMatchSqlCalls(calls: seq<Call>, endpoint: Option<string>, db: string -> AgentSql.QueryOutcome)
    ensures var sql := SqlCalls(calls);
            var r := ToolOutputs(calls, endpoint, db);
            && (r.Success? <==> forall i :: 0 <= i < |sql| ==> sql[i].arguments.Decoded?)
            && (r.Success? ==>
                  |r.value| == |sql| && forall i :: 0 <= i < |sql| ==> r.value[i] == OutputFor(sql[i], endpoint, db))
            && (r.Failure? ==>
                  exists i :: FirstUndecodable(sql, i) && r.error == BadArguments(sql[i].callId))
  {
    ToolOutputsSuccess(calls, endpoint, db);
    var k := ToolOutputsFailure(calls, endpoint, db);
  }

  /** `sql[i]` is the first call of `sql` whose arguments cannot be decoded. */
  predicate FirstUndecodable(sql: seq<Call>, i: int)
  {
    0 <= i < |sql| && sql[i].arguments.Undecodable? && forall j :: 0 <= j < i ==> sql[j].arguments.Decoded?
  }

  lemma {:induction false} ToolOutputsSuccess(calls: seq<Call>, endpoint: Option<string>,
                                              db: string -> AgentSql.QueryOutcome)
    ensures var sql := SqlCalls(calls);
            var r := ToolOutputs(calls, endpoint, db);
            r.Success? ==>
              && (forall i :: 0 <= i < |sql| ==> sql[i].arguments.Decoded?)
              && |r.value| == |sql|
              && forall i :: 0 <= i < |sql| ==> r.value[i] == OutputFor(sql[i], endpoint, db)
    decreases |calls|
  {
    if calls != [] {
      var init := calls[..|calls| - 1];
      var c := calls[|calls| - 1];
      ToolOutputsSuccess(init, endpoint, db);
      assert SqlCalls(calls) == SqlCalls(init) + (if c.name == SqlTool then [c] else []);
    }
  }

  lemma {:induction false} ToolOutputsFailure(calls: seq<Call>, endpoint: Option<string>,
                                              db: string -> AgentSql.QueryOutcome)
    returns (k: nat)
    ensures var sql := SqlCalls(calls);
            var r := ToolOutputs(calls, endpoint, db);
            r.Failure? ==> FirstUndecodable(sql, k) && r.error == BadArguments(sql[k].callId)
    decreases |calls|
  {
    k := 0;
    if calls != [] {
      var init := calls[..|calls| - 1];
      var c := calls[|calls| - 1];
      var k0 := ToolOutputsFailure(init, endpoint, db);
      ToolOutputsSuccess(init, endpoint, db);
      var sql0 := SqlCalls(init);
      var sql := SqlCalls(calls);
      assert sql == sql0 + (if c.name == SqlTool then [c] else []);
      var r0 := ToolOutputs(init, endpoint, db);
      if r0.Failure? {
        k := k0;
        assert sql[k] == sql0[k];
        forall j | 0 <= j < k
          ensures sql[j].arguments.Decoded?
        {
          assert sql[j] == sql0[j];
        }
      } else if c.name == SqlTool && c.arguments.Undecodable? {
        k := |sql0|;
        assert sql[k] == c;
        forall j | 0 <= j < k
          ensures sql[j].arguments.Decoded?
        {
          assert sql[j] == sql0[j];
        }
      }
    }
  }

  /** A failure among the first calls is the failure of the whole list. */
  lemma {:induction false} ToolOutputsFailureSticks(calls: seq<Call>, j: nat, endpoint: Option<string>,
                                                    db: string -> AgentSql.QueryOutcome)
    requires j <= |calls| && ToolOutputs(calls[..j], endpoint, db).Failure?
    ensures ToolOutputs(calls, endpoint, db) == ToolOutputs(calls[..j], endpoint, db)
    decreases |calls|
  {
    if j < |calls| {
      var init := calls[..|calls| - 1];
      assert init[..j] == calls[..j];
      ToolOutputsFailureSticks(init, j, endpoint, db);
    } else {
      assert calls[..j] == calls;
    }
  }

  /** Lines 254-269: builds the outputs, calling `execute_sql` for each `execute_sql` call. */
  method AnswerCalls(calls: seq<Call>, endpoint: Option<string>, db: string -> AgentSql.QueryOutcome)
    returns (r: Result<seq<ToolOutput>, ChatError>)
    ensures r == ToolOutputs(calls, endpoint, db)
  {
    var outs := [];
    var j := 0;
    while j < |calls|
      invariant 0 <= j <= |calls|
      invariant ToolOutputs(calls[..j], endpoint, db) == Success(outs)
    {
      var fc := calls[j];
      assert calls[..j + 1][..j] == calls[..j];
      if fc.name == SqlTool {
        if fc.arguments.Undecodable? {
          ToolOutputsFailureSticks(calls, j + 1, endpoint, db);
          return Failure(BadArguments(fc.callId));
        }
        var query := QueryOf(fc.arguments.fields);
        var result := AgentSql.ExecuteSql(endpoint, query, db);
        outs := outs + [ToolOutput(fc.callId, result)];
      }
      j := j + 1;
    }
    assert calls[..j] == calls;
    r := Success(outs);
  }

  // ---------------------------------------------------------------------------------------
  // One turn
  // ---------------------------------------------------------------------------------------

  /**
   * The rest of a turn once `text` has been gathered, with `script` the answers still to come:
   * each response with calls is answered and the next answer read, until a response without
   * calls ends the turn with the stripped text, or something raises.
   */
  function Resolve(script: seq<Answer>, endpoint: Option<string>, db: string -> AgentSql.QueryOutcome,
                   text: string): (r: TurnResult)
    ensures r.consumed <= |script|
    ensures r.outcome == Raised(NoAnswer) ==> r.consumed == |script| == |r.sent|
    ensures r.outcome != Raised(NoAnswer) ==> r.consumed >= 1 && |r.sent| == r.consumed - 1
    decreases |script|
  {
    if script == [] then TurnResult(Raised(NoAnswer), 0, [])
    else match script[0]
      case Fault(reason) => TurnResult(Raised(EndpointFault(reason)), 1, [])
      case Responded(items) =>
        var text' := text + MessageText(items);
        var calls := FunctionCalls(items);
        if calls == [] then TurnResult(Replied(Strip(text')), 1, [])
        else match ToolOutputs(calls, endpoint, db)
          case Failure(e) => TurnResult(Raised(e), 1, [])
          case Success(outs) =>
            var rest := Resolve(script[1..], endpoint, db, text');
            TurnResult(rest.outcome, rest.consumed + 1, [FunctionOutputs(outs)] + rest.sent)
  }

  /** `chat(user_message)`: the first request carries the message, `final_text` starts empty. */
  function Turn(message: string, script: seq<Answer>, endpoint: Option<string>,
                db: string -> AgentSql.QueryOutcome): TurnResult
  {
    var r := Resolve(script, endpoint, db, "");
    TurnResult(r.outcome, r.consumed, [UserMessage(message)] + r.sent)
  }

  /** A loop state of `chat`: `done` answers consumed, `sent` requests made, `rest` to go. */
  function Resume(done: nat, sent: seq<RequestInput>, rest: TurnResult): TurnResult
  {
    TurnResult(rest.outcome, done + rest.consumed, sent + rest.sent)
  }

  /** Lines 222-280. */
  method Chat(message: string, script: seq<Answer>, endpoint: Option<string>,
              db: string -> AgentSql.QueryOutcome)
    returns (outcome: ChatOutcome, consumed: nat, sent: seq<RequestInput>)
    ensures TurnResult(outcome, consumed, sent) == Turn(message, script, endpoint, db)
  {
    sent := [UserMessage(message)];
    var finalText := "";
    var read := 0;
    assert script[..0] == [];
    while true
      invariant read <= |script| && GoesPast(script[..read], endpoint, db)
      invariant sent == [UserMessage(message)] + SentFor(script[..read], endpoint, db)
      invariant finalText == Texts(script[..read])
      decreases |script| - read
    {
      if read == |script| {
        // the request finds no answer
        assert script[..read] == script;
        TurnRunsOut(message, script, endpoint, db);
        return Raised(NoAnswer), read, sent;
      }
      match script[read] {
        case Fault(reason) =>
          TurnEndsAt(message, script, endpoint, db, read, Raised(EndpointFault(reason)));
          return Raised(EndpointFault(reason)), read + 1, sent;
        case Responded(items) =>
          var finished, outputs, text' := HandleResponse(items, finalText, endpoint, db);
          if finished.Some? {
            TurnEndsAt(message, script, endpoint, db, read, finished.value);
            return finished.value, read + 1, sent;
          }
          ChatGoesOn(message, script, endpoint, db, read);
          sent := sent + [FunctionOutputs(outputs)];
          finalText := text';
          read := read + 1;
      }
    }
  }

  /** One more answer gone past: its outputs are sent and its text is kept. */
  lemma ChatGoesOn(message: string, script: seq<Answer>, endpoint: Option<string>,
                   db: string -> AgentSql.QueryOutcome, read: nat)
    requires read < |script| && GoesPast(script[..read], endpoint, db) && Continues(script[read], endpoint, db)
    ensures GoesPast(script[..read + 1], endpoint, db)
    ensures [UserMessage(message)] + SentFor(script[..read + 1], endpoint, db)
         == [UserMessage(message)] + SentFor(script[..read], endpoint, db)
            + [FunctionOutputs(Outputs(script[read], endpoint, db))]
    ensures Texts(script[..read + 1]) == Texts(script[..read]) + MessageText(script[read].output)
  {
    var past := script[..read + 1];
    assert past[..read] == script[..read] && past[read] == script[read];
    TextsSnoc(script[..read], script[read]);
    assert past == script[..read] + [script[read]];
    AppendAssoc([UserMessage(message)], SentFor(script[..read], endpoint, db),
                [FunctionOutputs(Outputs(script[read], endpoint, db))]);
  }

  /** The turn goes past every one of these answers. */
  predicate GoesPast(answers: seq<Answer>, endpoint: Option<string>, db: string -> AgentSql.QueryOutcome)
  {
    answers == []
    || (GoesPast(answers[..|answers| - 1], endpoint, db) && Continues(answers[|answers| - 1], endpoint, db))
  }

  /** The outputs sent back for answers the turn goes past, in order. */
  function SentFor(answers: seq<Answer>, endpoint: Option<string>, db: string -> AgentSql.QueryOutcome)
    : seq<RequestInput>
    requires GoesPast(answers, endpoint, db)
  {
    if answers == [] then []
    else
      SentFor(answers[..|answers| - 1], endpoint, db)
      + [FunctionOutputs(Outputs(answers[|answers| - 1], endpoint, db))]
  }

  lemma {:induction false} GoesPastPrefix(script: seq<Answer>, endpoint: Option<string>,
                                          db: string -> AgentSql.QueryOutcome, n: nat)
    requires n <= |script| && GoesPast(script[..n], endpoint, db)
    ensures forall k :: 0 <= k < n ==> Continues(script[k], endpoint, db)
    ensures SentFor(script[..n], endpoint, db) == SentOutputs(script, endpoint, db, n)
    decreases n
  {
    if n > 0 {
      assert script[..n][..n - 1] == script[..n - 1];
      GoesPastPrefix(script, endpoint, db, n - 1);
      SentOutputsSnoc(script, endpoint, db, n - 1);
    }
  }

  lemma SentOutputsSnoc(script: seq<Answer>, endpoint: Option<string>, db: string -> AgentSql.QueryOutcome, n: nat)
    requires n < |script| && forall k :: 0 <= k <= n ==> Continues(script[k], endpoint, db)
    ensures SentOutputs(script, endpoint, db, n + 1)
         == SentOutputs(script, endpoint, db, n) + [FunctionOutputs(Outputs(script[n], endpoint, db))]
  {
  }

  /**
   * Every request after the user's message answers the response just read: it carries the
   * outputs for that response's calls, whose ids follow the order of those calls.
   */
  lemma TurnOutputsAnswerCalls(message: string, script: seq<Answer>, endpoint: Option<string>,
                               db: string -> AgentSql.QueryOutcome)
    ensures var t := Turn(message, script, endpoint, db);
            && t.sent[0] == UserMessage(message)
            && forall k :: 1 <= k < |t.sent| ==>
                 && k - 1 < |script| && Continues(script[k - 1], endpoint, db)
                 && t.sent[k] == FunctionOutputs(Outputs(script[k - 1], endpoint, db))
                 && IsSubsequence(OutputIds(t.sent[k].outputs), CallIds(FunctionCalls(script[k - 1].output)))
  {
    var t := Turn(message, script, endpoint, db);
    ResolveSendsOutputs(script, endpoint, db, "");
    forall k | 1 <= k < |t.sent|
      ensures IsSubsequence(OutputIds(t.sent[k].outputs), CallIds(FunctionCalls(script[k - 1].output)))
    {
      ToolOutputIdsInOrder(FunctionCalls(script[k - 1].output), endpoint, db);
    }
  }

  /** The requests `Resolve` sends are the outputs of the answers it goes past, one per answer. */
  lemma {:induction false} ResolveSendsOutputs(script: seq<Answer>, endpoint: Option<string>,
                                               db: string -> AgentSql.QueryOutcome, text: string)
    ensures var r := Resolve(script, endpoint, db, text);
            forall k :: 0 <= k < |r.sent| ==>
              k < |script| && Continues(script[k], endpoint, db)
              && r.sent[k] == FunctionOutputs(Outputs(script[k], endpoint, db))
    decreases |script|
  {
    if script != [] && Continues(script[0], endpoint, db) {
      var r := Resolve(script, endpoint, db, text);
      ResolveSendsOutputs(script[1..], endpoint, db, text + MessageText(script[0].output));
      ResolveContinues(script, endpoint, db, text);
      forall k | 1 <= k < |r.sent|
        ensures script[1..][k - 1] == script[k]
      {
      }
    }
  }

  /** The turn ends on the answer at `n`, the first it does not go past. */
  lemma TurnEndsAt(message: string, script: seq<Answer>, endpoint: Option<string>,
                   db: string -> AgentSql.QueryOutcome, n: nat, outcome: ChatOutcome)
    requires n < |script| && GoesPast(script[..n], endpoint, db)
    requires !Continues(script[n], endpoint, db)
    requires outcome == StopOutcome(script[n], endpoint, db, Texts(script[..n]))
    ensures Turn(message, script, endpoint, db)
         == TurnResult(outcome, n + 1, [UserMessage(message)] + SentFor(script[..n], endpoint, db))
  {
    GoesPastPrefix(script, endpoint, db, n);
    TurnStopsAtFirstFinalAnswer(message, script, endpoint, db, n);
  }

  /** The turn goes past every answer and then finds none. */
  lemma TurnRunsOut(message: string, script: seq<Answer>, endpoint: Option<string>,
                    db: string -> AgentSql.QueryOutcome)
    requires GoesPast(script, endpoint, db)
    ensures Turn(message, script, endpoint, db)
         == TurnResult(Raised(NoAnswer), |script|, [UserMessage(message)] + SentFor(script, endpoint, db))
  {
    assert script[..|script|] == script;
    GoesPastPrefix(script, endpoint, db, |script|);
    TurnStopsAtFirstFinalAnswer(message, script, endpoint, db, |script|);
  }

  lemma {:induction false} TextsSnoc(answers: seq<Answer>, a: Answer)
    ensures Texts(answers + [a]) == Texts(answers) + (if a.Responded? then MessageText(a.output) else "")
    decreases |answers|
  {
    var last := if a.Responded? then MessageText(a.output) else "";
    if answers == [] {
      assert answers + [a] == [a] && [a][1..] == [];
    } else {
      var head := if answers[0].Responded? then MessageText(answers[0].output) else "";
      assert (answers + [a])[0] == answers[0] && (answers + [a])[1..] == answers[1..] + [a];
      TextsSnoc(answers[1..], a);
      AppendAssoc(head, Texts(answers[1..]), last);
    }
  }

  /**
   * Lines 238-269 for one response: gathers its text and either ends the turn (no function
   * calls, or arguments that raise) or gives the outputs to send back.
   */
  method HandleResponse(items: seq<Item>, text: string, endpoint: Option<string>,
                        db: string -> AgentSql.QueryOutcome)
    returns (finished: Option<ChatOutcome>, outputs: seq<ToolOutput>, text': string)
    ensures text' == text + MessageText(items)
    ensures finished.None? <==> Continues(Responded(items), endpoint, db)
    ensures finished.Some? ==> finished.value == StopOutcome(Responded(items), endpoint, db, text)
    ensures finished.None? ==> outputs == Outputs(Responded(items), endpoint, db)
  {
    var calls;
    calls, text' := ReadResponse(items, text);
    if calls == [] {
      return Some(Replied(Strip(text'))), [], text';
    }
    var r := AnswerCalls(calls, endpoint, db);
    if r.Failure? {
      return Some(Raised(r.error)), [], text';
    }
    return None, r.value, text';
  }

  /** A response that the turn answers and goes past: it asks for calls, all answerable. */
  predicate Continues(a: Answer, endpoint: Option<string>, db: string -> AgentSql.QueryOutcome)
  {
    a.Responded? && FunctionCalls(a.output) != [] && ToolOutputs(FunctionCalls(a.output), endpoint, db).Success?
  }

  function Outputs(a: Answer, endpoint: Option<string>, db: string -> AgentSql.QueryOutcome): seq<ToolOutput>
    requires Continues(a, endpoint, db)
  {
    ToolOutputs(FunctionCalls(a.output), endpoint, db).value
  }

  /** The text all given answers contribute, in order. */
  function Texts(answers: seq<Answer>): string
  {
    if answers == [] then ""
    else (if answers[0].Responded? then MessageText(answers[0].output) else "") + Texts(answers[1..])
  }

  /** How a turn ends on an answer it does not go past, with `text` gathered before it. */
  function StopOutcome(a: Answer, endpoint: Option<string>, db: string -> AgentSql.QueryOutcome,
                       text: string): ChatOutcome
    requires !Continues(a, endpoint, db)
  {
    if a.Fault? then Raised(EndpointFault(a.reason))
    else if FunctionCalls(a.output) == [] then Replied(Strip(text + MessageText(a.output)))
    else Raised(ToolOutputs(FunctionCalls(a.output), endpoint, db).error)
  }

  /**
   * A turn, told without recursion: with `n` the position of the first answer it does not go
   * past (or the length of the script if there is none), it consumes the answers up to and
   * including that one, sends the user's message and then the outputs for each answer before
   * it, and ends as that answer decides -- a reply holding the text of every response of the
   * turn, stripped -- or raises because no answer is left.
   */
  lemma TurnStopsAtFirstFinalAnswer(message: string, script: seq<Answer>, endpoint: Option<string>,
                                    db: string -> AgentSql.QueryOutcome, n: nat)
    requires n <= |script|
    requires forall k :: 0 <= k < n ==> Continues(script[k], endpoint, db)
    requires n < |script| ==> !Continues(script[n], endpoint, db)
    ensures var t := Turn(message, script, endpoint, db);
            && t.consumed == (if n < |script| then n + 1 else n)
            && t.outcome == (if n < |script| then StopOutcome(script[n], endpoint, db, Texts(script[..n]))
                             else Raised(NoAnswer))
            && t.sent == [UserMessage(message)] + SentOutputs(script, endpoint, db, n)
  {
    ResolveStops(script, endpoint, db, "", n);
    assert "" + Texts(script[..n]) == Texts(script[..n]);
  }

  /** A first answer without function calls ends the turn after one exchange. */
  lemma SingleExchange(message: string, script: seq<Answer>, endpoint: Option<string>,
                       db: string -> AgentSql.QueryOutcome)
    requires script != [] && script[0].Responded? && FunctionCalls(script[0].output) == []
    ensures Turn(message, script, endpoint, db)
         == TurnResult(Replied(Strip(MessageText(script[0].output))), 1, [UserMessage(message)])
  {
    TurnStopsAtFirstFinalAnswer(message, script, endpoint, db, 0);
    assert "" + MessageText(script[0].output) == MessageText(script[0].output);
  }

  lemma {:induction false} ResolveStops(script: seq<Answer>, endpoint: Option<string>,
                                        db: string -> AgentSql.QueryOutcome, text: string, n: nat)
    requires n <= |script|
    requires forall k :: 0 <= k < n ==> Continues(script[k], endpoint, db)
    requires n < |script| ==> !Continues(script[n], endpoint, db)
    ensures var r := Resolve(script, endpoint, db, text);
            && r.consumed == (if n < |script| then n + 1 else n)
            && r.outcome == (if n < |script| then StopOutcome(script[n], endpoint, db, text + Texts(script[..n]))
                             else Raised(NoAnswer))
            && r.sent == SentOutputs(script, endpoint, db, n)
    decreases n
  {
    if n == 0 {
      ResolveAtStop(script, endpoint, db, text);
    } else {
      var a := script[0];
      var text' := text + MessageText(a.output);
      var tail := script[1..];
      assert forall k :: 0 <= k < n - 1 ==> tail[k] == script[k + 1];
      ResolveStops(tail, endpoint, db, text', n - 1);
      ResolveContinues(script, endpoint, db, text);
      TextsFront(script, n);
      AppendAssoc(text, MessageText(a.output), Texts(tail[..n - 1]));
      assert text' + Texts(tail[..n - 1]) == text + Texts(script[..n]);
      assert n < |script| ==> tail[n - 1] == script[n];
      SentFront(script, endpoint, db, n);
    }
  }

  /** No answer, or a first answer the turn does not go past. */
  lemma ResolveAtStop(script: seq<Answer>, endpoint: Option<string>, db: string -> AgentSql.QueryOutcome,
                      text: string)
    requires script != [] ==> !Continues(script[0], endpoint, db)
    ensures var r := Resolve(script, endpoint, db, text);
            && r.consumed == (if 0 < |script| then 1 else 0)
            && r.outcome == (if 0 < |script| then StopOutcome(script[0], endpoint, db, text + Texts(script[..0]))
                             else Raised(NoAnswer))
            && r.sent == SentOutputs(script, endpoint, db, 0)
  {
    assert script[..0] == [] && text + Texts(script[..0]) == text;
    assert SentOutputs(script, endpoint, db, 0) == [];
  }

  /** The outputs sent for the first `n` answers, all of which the turn goes past. */
  function SentOutputs(script: seq<Answer>, endpoint: Option<string>, db: string -> AgentSql.QueryOutcome, n: nat)
    : seq<RequestInput>
    requires n <= |script| && forall k :: 0 <= k < n ==> Continues(script[k], endpoint, db)
  {
    seq(n, k requires 0 <= k < n => FunctionOutputs(Outputs(script[k], endpoint, db)))
  }

  lemma SentFront(script: seq<Answer>, endpoint: Option<string>, db: string -> AgentSql.QueryOutcome, n: nat)
    requires 0 < n <= |script| && forall k :: 0 <= k < n ==> Continues(script[k], endpoint, db)
    ensures SentOutputs(script, endpoint, db, n)
         == [FunctionOutputs(Outputs(script[0], endpoint, db))] + SentOutputs(script[1..], endpoint, db, n - 1)
  {
  }

  /** One answer the turn goes past: its outputs are sent and its text is kept. */
  lemma ResolveContinues(script: seq<Answer>, endpoint: Option<string>, db: string -> AgentSql.QueryOutcome,
                         text: string)
    requires script != [] && Continues(script[0], endpoint, db)
    ensures var rest := Resolve(script[1..], endpoint, db, text + MessageText(script[0].output));
            Resolve(script, endpoint, db, text)
            == TurnResult(rest.outcome, rest.consumed + 1, [FunctionOutputs(Outputs(script[0], endpoint, db))] + rest.sent)
  {
  }

  lemma TextsFront(script: seq<Answer>, n: nat)
    requires 0 < n <= |script| && script[0].Responded?
    ensures Texts(script[..n]) == MessageText(script[0].output) + Texts(script[1..][..n - 1])
  {
    assert script[..n][1..] == script[1..][..n - 1];
  }

  // ---------------------------------------------------------------------------------------
  // Sample questions
  // ---------------------------------------------------------------------------------------

  /** `line.strip().startswith("-")`. */
  predicate IsQuestionLine(line: string)
  {
    var s := Strip(line);
    s != [] && s[0] == '-'
  }

  /** `line.strip()[2:]`: Python's slice gives the empty string on a shorter line. */
  function QuestionText(line: string): string
  {
    var s := Strip(line);
    if |s| >= 2 then s[2..] else ""
  }

  /** The sample questions of a file with these lines, in order. */
  function Questions(lines: seq<string>): seq<string>
  {
    if lines == [] then []
    else
      Questions(lines[..|lines| - 1]) + LineQuestions(lines[|lines| - 1])
  }

  /** What one line of the file contributes: its question, or nothing. */
  function LineQuestions(line: string): seq<string>
  {
    if IsQuestionLine(line) then [QuestionText(line)] else []
  }

  lemma QuestionsSnoc(a: seq<string>, line: string)
    ensures Questions(a + [line]) == Questions(a) + LineQuestions(line)
  {
    assert (a + [line])[..|a|] == a;
  }

  /** Lines 184-190; `file` holds the lines of `sample_questions.txt`, or `None` when it is absent. */
  method LoadSampleQuestions(file: Option<seq<string>>) returns (questions: seq<string>)
    ensures file.None? ==> questions == []
    ensures file.Some? ==> questions == Questions(file.value)
  {
    questions := [];
    if file.Some? {
      var lines := file.value;
      var i := 0;
      while i < |lines|
        invariant 0 <= i <= |lines|
        invariant questions == Questions(lines[..i])
      {
        assert lines[..i + 1] == lines[..i] + [lines[i]];
        QuestionsSnoc(lines[..i], lines[i]);
        var found := ReadQuestionLine(lines[i]);
        questions := questions + found;
        i := i + 1;
      }
      assert lines[..i] == lines;
    }
  }

  /** Lines 189-190 for one line: the question it holds, if it is a bullet. */
  method ReadQuestionLine(line: string) returns (found: seq<string>)
    ensures found == LineQuestions(line)
  {
    var stripped := Strip(line);
    if stripped != [] && stripped[0] == '-' {
      found := [if |stripped| >= 2 then stripped[2..] else ""];
    } else {
      found := [];
    }
  }

  lemma {:induction false} QuestionsConcat(a: seq<string>, b: seq<string>)
    ensures Questions(a + b) == Questions(a) + Questions(b)
    decreases |b|
  {
    if b == [] {
      assert a + b == a;
    } else {
      var b' := b[..|b| - 1];
      var x := b[|b| - 1];
      assert b == b' + [x];
      AppendAssoc(a, b', [x]);
      calc {
        Questions(a + b);
        { QuestionsSnoc(a + b', x); }
        Questions(a + b') + LineQuestions(x);
        { QuestionsConcat(a, b'); }
        (Questions(a) + Questions(b')) + LineQuestions(x);
        { AppendAssoc(Questions(a), Questions(b'), LineQuestions(x)); }
        Questions(a) + (Questions(b') + LineQuestions(x));
        { QuestionsSnoc(b', x); }
        Questions(a) + Questions(b);
      }
    }
  }

  /** The bullet line the questions file holds for one question. */
  function BulletLine(q: string): string
  {
    "- " + q + "\n"
  }

  lemma BulletLineQuestion(q: string)
    requires IsStripped(q)
    ensures IsQuestionLine(BulletLine(q)) && QuestionText(BulletLine(q)) == q
    ensures LineQuestions(BulletLine(q)) == [q]
  {
    if q == [] {
      assert BulletLine(q) == "-" + " \n";
      StripTrailingSpace("-", " \n");
    } else {
      var body := "- " + q;
      assert body[0] == '-' && body[|body| - 1] == q[|q| - 1];
      StripTrailingSpace(body, "\n");
      assert body[2..] == q;
    }
  }

  /** A file written as one `- question` line per stripped, single-line question reads back as those questions. */
  lemma {:induction false} QuestionsRoundTrip(qs: seq<string>)
    requires forall i :: 0 <= i < |qs| ==> IsStripped(qs[i]) && '\n' !in qs[i]
    ensures Questions(seq(|qs|, i requires 0 <= i < |qs| => BulletLine(qs[i]))) == qs
    decreases |qs|
  {
    if qs != [] {
      var init := qs[..|qs| - 1];
      var lines := seq(|qs|, i requires 0 <= i < |qs| => BulletLine(qs[i]));
      assert lines[..|lines| - 1] == seq(|init|, i requires 0 <= i < |init| => BulletLine(init[i]));
      var last := qs[|qs| - 1];
      assert lines == lines[..|lines| - 1] + [BulletLine(last)];
      calc {
        Questions(lines);
        { QuestionsSnoc(lines[..|lines| - 1], BulletLine(last)); }
        Questions(lines[..|lines| - 1]) + LineQuestions(BulletLine(last));
        { QuestionsRoundTrip(init); BulletLineQuestion(last); }
        init + [last];
      }
      assert init + [last] == qs;
    }
  }

  /** Lines that are not bullets, such as headings and blank lines, contribute nothing. */
  lemma OtherLinesIgnored(a: seq<string>, line: string, b: seq<string>)
    requires !IsQuestionLine(line)
    ensures Questions(a + [line] + b) == Questions(a + b)
  {
    calc {
      Questions(a + [line] + b);
      { QuestionsConcat(a + [line], b); }
      Questions(a + [line]) + Questions(b);
      { QuestionsSnoc(a, line); }
      Questions(a) + LineQuestions(line) + Questions(b);
      { assert LineQuestions(line) == []; }
      Questions(a) + Questions(b);
      { QuestionsConcat(a, b); }
      Questions(a + b);
    }
  }

  // ---------------------------------------------------------------------------------------
  // The read-eval-print loop
  // ---------------------------------------------------------------------------------------

  /** What the loop does with one input line. */
  datatype Command = Reprompt | Quit | Help | Forward(message: string)

  /** Lines 290-306, on the stripped line: nothing, an exit word or `help` in any case, or a question. */
  function Classify(line: string): Command
  {
    ClassifyStripped(Strip(line))
  }

  function ClassifyStripped(s: string): Command
  {
    if s == "" then Reprompt
    else if Lower(s) in ["quit", "exit", "q"] then Quit
    else if Lower(s) == "help" then Help
    else Forward(s)
  }

  function Commands(inputs: seq<string>): seq<Command>
  {
    seq(|inputs|, k requires 0 <= k < |inputs| => Classify(inputs[k]))
  }

  /** Each line is classified on its own: what came before or after it makes no difference. */
  lemma CommandsConcat(a: seq<string>, b: seq<string>)
    ensures Commands(a + b) == Commands(a) + Commands(b)
  {
    var ab := a + b;
    forall k | 0 <= k < |ab|
      ensures Commands(ab)[k] == (Commands(a) + Commands(b))[k]
    {
      if k < |a| {
        assert ab[k] == a[k];
      } else {
        assert ab[k] == b[k - |a|];
      }
    }
  }

  /** What the loop prints. */
  datatype Shown =
    | Goodbye
    | SampleQuestions(questions: seq<string>)
    | AgentReply(text: string)
    | NoResponse
    | ErrorShown(error: ChatError)
    | SessionEnded

  /** `sample_questions[:5]`. */
  /** `questions[:5]`: `help` shows the first five sample questions at most, in order. */
  function HelpList(questions: seq<string>): (r: seq<string>)
    ensures |r| == (if |questions| < 5 then |questions| else 5) && r == questions[..|r|]
  {
    if |questions| <= 5 then questions else questions[..5]
  }

  /** Lines 312-317: a non-empty reply, "(No response)", or the error. */
  function Display(outcome: ChatOutcome): Shown
  {
    match outcome
    case Replied(text) => if text == "" then NoResponse else AgentReply(text)
    case Raised(e) => ErrorShown(e)
  }

  /**
   * What the loop prints for these commands (their end is end of input), with the answers of
   * the service taken in order across the turns.
   */
  function Replies(commands: seq<Command>, questions: seq<string>, script: seq<Answer>,
                   endpoint: Option<string>, db: string -> AgentSql.QueryOutcome): seq<Shown>
    decreases |commands|
  {
    if commands == [] then [Goodbye, SessionEnded]
    else match commands[0]
      case Reprompt => Replies(commands[1..], questions, script, endpoint, db)
      case Quit => [Goodbye, SessionEnded]
      case Help => [SampleQuestions(HelpList(questions))] + Replies(commands[1..], questions, script, endpoint, db)
      case Forward(m) =>
        var t := Turn(m, script, endpoint, db);
        [Display(t.outcome)] + Replies(commands[1..], questions, script[t.consumed..], endpoint, db)
  }

  /** What a session prints for these input lines. */
  function Session(inputs: seq<string>, questions: seq<string>, script: seq<Answer>,
                   endpoint: Option<string>, db: string -> AgentSql.QueryOutcome): seq<Shown>
  {
    Replies(Commands(inputs), questions, script, endpoint, db)
  }

  /** Lines 288-320. */
  method Repl(inputs: seq<string>, questions: seq<string>, script: seq<Answer>,
              endpoint: Option<string>, db: string -> AgentSql.QueryOutcome)
    returns (shown: seq<Shown>)
    ensures shown == Session(inputs, questions, script, endpoint, db)
  {
    shown := [];
    var i := 0;
    var answers := script;
    ghost var commands := Commands(inputs);
    while true
      invariant 0 <= i <= |inputs|
      invariant shown + Replies(commands[i..], questions, answers, endpoint, db)
             == Session(inputs, questions, script, endpoint, db)
      decreases |inputs| - i
    {
      if i == |inputs| {
        RepliesAtEnd(commands[i..], questions, answers, endpoint, db);
        shown := shown + [Goodbye];
        break;
      }
      ghost var here := commands[i..];
      var command := ReadCommand(inputs[i]);
      assert here != [] && here[0] == command && here[1..] == commands[i + 1..];
      i := i + 1;
      match command {
        case Reprompt =>
          RepliesOnReprompt(here, questions, answers, endpoint, db);
        case Quit =>
          RepliesOnQuit(here, questions, answers, endpoint, db);
          shown := shown + [Goodbye];
          break;
        case Help =>
          var event := SampleQuestions(HelpList(questions));
          RepliesOnHelp(here, questions, answers, endpoint, db);
          AppendAssoc(shown, [event], Replies(commands[i..], questions, answers, endpoint, db));
          shown := shown + [event];
        case Forward(userInput) =>
          var outcome, consumed, sent := Chat(userInput, answers, endpoint, db);
          RepliesOnForward(here, questions, answers, endpoint, db, outcome, consumed, sent);
          AppendAssoc(shown, [Display(outcome)], Replies(commands[i..], questions, answers[consumed..], endpoint, db));
          shown := shown + [Display(outcome)];
          answers := answers[consumed..];
      }
    }
    AppendAssoc(shown[..|shown| - 1], [Goodbye], [SessionEnded]);
    shown := shown + [SessionEnded];
  }

  lemma RepliesAtEnd(commands: seq<Command>, questions: seq<string>, script: seq<Answer>,
                     endpoint: Option<string>, db: string -> AgentSql.QueryOutcome)
    requires commands == []
    ensures Replies(commands, questions, script, endpoint, db) == [Goodbye] + [SessionEnded]
  {
  }

  lemma RepliesOnReprompt(commands: seq<Command>, questions: seq<string>, script: seq<Answer>,
                          endpoint: Option<string>, db: string -> AgentSql.QueryOutcome)
    requires commands != [] && commands[0] == Reprompt
    ensures Replies(commands, questions, script, endpoint, db) == Replies(commands[1..], questions, script, endpoint, db)
  {
  }

  lemma RepliesOnQuit(commands: seq<Command>, questions: seq<string>, script: seq<Answer>,
                      endpoint: Option<string>, db: string -> AgentSql.QueryOutcome)
    requires commands != [] && commands[0] == Quit
    ensures Replies(commands, questions, script, endpoint, db) == [Goodbye] + [SessionEnded]
  {
  }

  lemma RepliesOnHelp(commands: seq<Command>, questions: seq<string>, script: seq<Answer>,
                      endpoint: Option<string>, db: string -> AgentSql.QueryOutcome)
    requires commands != [] && commands[0] == Help
    ensures Replies(commands, questions, script, endpoint, db)
         == [SampleQuestions(HelpList(questions))] + Replies(commands[1..], questions, script, endpoint, db)
  {
  }

  lemma RepliesOnForward(commands: seq<Command>, questions: seq<string>, script: seq<Answer>,
                         endpoint: Option<string>, db: string -> AgentSql.QueryOutcome,
                         outcome: ChatOutcome, consumed: nat, sent: seq<RequestInput>)
    requires commands != [] && commands[0].Forward?
    requires TurnResult(outcome, consumed, sent) == Turn(commands[0].message, script, endpoint, db)
    ensures consumed <= |script|
    ensures Replies(commands, questions, script, endpoint, db)
         == [Display(outcome)] + Replies(commands[1..], questions, script[consumed..], endpoint, db)
  {
  }

  /** Lines 290-306: strips the line read and tests it in the order the loop does. */
  method ReadCommand(line: string) returns (command: Command)
    ensures command == Classify(line)
  {
    var userInput := Strip(line);
    if userInput == "" {
      return Reprompt;
    }
    if Lower(userInput) in ["quit", "exit", "q"] {
      return Quit;
    }
    if Lower(userInput) == "help" {
      return Help;
    }
    return Forward(userInput);
  }

  /** A session prints "Goodbye!" exactly once, then the closing line, and nothing after. */
  lemma {:induction false} SessionEndsWithGoodbye(commands: seq<Command>, questions: seq<string>,
                                                  script: seq<Answer>, endpoint: Option<string>,
                                                  db: string -> AgentSql.QueryOutcome)
    ensures var s := Replies(commands, questions, script, endpoint, db);
            && |s| >= 2 && s[|s| - 2] == Goodbye && s[|s| - 1] == SessionEnded
            && forall k :: 0 <= k < |s| - 2 ==> s[k] != Goodbye && s[k] != SessionEnded
    decreases |commands|
  {
    if commands == [] {
      RepliesAtEnd(commands, questions, script, endpoint, db);
    } else {
      match commands[0]
      case Reprompt =>
        RepliesOnReprompt(commands, questions, script, endpoint, db);
        SessionEndsWithGoodbye(commands[1..], questions, script, endpoint, db);
      case Quit =>
        RepliesOnQuit(commands, questions, script, endpoint, db);
      case Help =>
        RepliesOnHelp(commands, questions, script, endpoint, db);
        SessionEndsWithGoodbye(commands[1..], questions, script, endpoint, db);
        EndingKept(SampleQuestions(HelpList(questions)), Replies(commands[1..], questions, script, endpoint, db));
      case Forward(m) =>
        var t := Turn(m, script, endpoint, db);
        RepliesOnForward(commands, questions, script, endpoint, db, t.outcome, t.consumed, t.sent);
        SessionEndsWithGoodbye(commands[1..], questions, script[t.consumed..], endpoint, db);
        EndingKept(Display(t.outcome), Replies(commands[1..], questions, script[t.consumed..], endpoint, db));
    }
  }

  /** An event other than the two closing ones, shown first, leaves the ending alone. */
  lemma EndingKept(x: Shown, s: seq<Shown>)
    requires x != Goodbye && x != SessionEnded
    requires |s| >= 2 && s[|s| - 2] == Goodbye && s[|s| - 1] == SessionEnded
    requires forall k :: 0 <= k < |s| - 2 ==> s[k] != Goodbye && s[k] != SessionEnded
    ensures var r := [x] + s;
            && |r| >= 2 && r[|r| - 2] == Goodbye && r[|r| - 1] == SessionEnded
            && forall k :: 0 <= k < |r| - 2 ==> r[k] != Goodbye && r[k] != SessionEnded
  {
    var r := [x] + s;
    forall k | 0 <= k < |r| - 2
      ensures r[k] != Goodbye && r[k] != SessionEnded
    {
      if k > 0 {
        assert r[k] == s[k - 1];
      }
    }
  }

  /** Nothing typed after an exit word has any effect. */
  lemma QuitEndsSession(inputs: seq<string>, later: seq<string>, questions: seq<string>,
                        script: seq<Answer>, endpoint: Option<string>,
                        db: string -> AgentSql.QueryOutcome, k: nat)
    requires k < |inputs| && Classify(inputs[k]) == Quit
    ensures Session(inputs + later, questions, script, endpoint, db)
         == Session(inputs, questions, script, endpoint, db)
  {
    CommandsConcat(inputs, later);
    RepliesStopAtQuit(Commands(inputs), Commands(later), questions, script, endpoint, db, k);
  }

  lemma {:induction false} RepliesStopAtQuit(commands: seq<Command>, later: seq<Command>, questions: seq<string>,
                                             script: seq<Answer>, endpoint: Option<string>,
                                             db: string -> AgentSql.QueryOutcome, k: nat)
    requires k < |commands| && commands[k] == Quit
    ensures Replies(commands + later, questions, script, endpoint, db)
         == Replies(commands, questions, script, endpoint, db)
    decreases k
  {
    assert (commands + later)[0] == commands[0];
    if k > 0 {
      assert (commands + later)[1..] == commands[1..] + later;
      match commands[0]
      case Reprompt =>
        RepliesStopAtQuit(commands[1..], later, questions, script, endpoint, db, k - 1);
      case Quit =>
      case Help =>
        RepliesStopAtQuit(commands[1..], later, questions, script, endpoint, db, k - 1);
      case Forward(m) =>
        var t := Turn(m, script, endpoint, db);
        RepliesStopAtQuit(commands[1..], later, questions, script[t.consumed..], endpoint, db, k - 1);
    }
  }

  /** Only the stripped line matters: padding a line with whitespace changes nothing. */
  lemma SessionIgnoresPadding(inputs: seq<string>, padded: seq<string>, questions: seq<string>,
                              script: seq<Answer>, endpoint: Option<string>,
                              db: string -> AgentSql.QueryOutcome)
    requires |padded| == |inputs| && forall k :: 0 <= k < |inputs| ==> Strip(padded[k]) == Strip(inputs[k])
    ensures Session(padded, questions, script, endpoint, db) == Session(inputs, questions, script, endpoint, db)
  {
    forall k | 0 <= k < |inputs|
      ensures Commands(padded)[k] == Commands(inputs)[k]
    {
      assert Classify(padded[k]) == ClassifyStripped(Strip(inputs[k]));
    }
    assert Commands(padded) == Commands(inputs);
  }

  /** The exit words and `help` are recognised in any mix of upper and lower case. */
  lemma ClassifyIgnoresCase(a: string, b: string)
    requires Strip(a) != "" && Strip(b) != "" && Lower(Strip(a)) == Lower(Strip(b))
    ensures Classify(a) == Quit <==> Classify(b) == Quit
    ensures Classify(a) == Help <==> Classify(b) == Help
  {
  }
}
