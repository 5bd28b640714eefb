/**
 * One chat turn of the movie agent: the outgoing message list, the tool-call
 * loop with its dispatch by tool name, and the conversation history kept on
 * the agent object. The remote model is an oracle whose successive replies
 * are given as a finite script.
 */
module Agent {
  import opened Catalog
  import opened Text

  /** The arguments of a tool call, already decoded from JSON; each tool reads its own fields. */
  datatype ToolArgs = ToolArgs(userId: string, movieIds: seq<int>, genres: seq<string>, watchedMovieIds: seq<int>)

  /** A tool call requested by the model: correlation id, function name and arguments. */
  datatype ToolCall = ToolCall(id: string, name: string, args: ToolArgs)

  /**
   * What a tool returned, standing for its serialised content. The genres of
   * `get_genres` are kept as a set: the order of the list Python serialises
   * is its set iteration order.
   */
  datatype ToolOutput = ReviewsOut(reviews: seq<Review>) | GenresOut(genres: set<string>) | MoviesOut(titles: seq<string>)

  /**
   * A chat message. A tool message sent to the model carries the id of the
   * call it answers; the copy kept in the history carries none.
   */
  datatype Message =
    | SystemMsg(content: string)
    | UserMsg(content: string)
    | AssistantText(content: string)
    | AssistantToolCall(call: ToolCall)
    | ToolMsg(callId: Option<string>, name: string, result: ToolOutput)

  /** A reply of the remote model: message content and tool calls, or a failed API call. */
  datatype Reply = Completion(content: Option<string>, toolCalls: seq<ToolCall>) | ApiError(reason: string)

  /** A completion request: the messages sent and whether the tool catalogue was attached. */
  datatype Request = Request(messages: seq<Message>, withTools: bool)

  /** The exceptions a turn catches and reports as an error text. */
  datatype TurnError =
    | UnknownUser(userId: string)  // KeyError from get_user_past_reviews
    | ApiFailure(reason: string)   // the remote call raised
    | NoContent                    // the final reply had no content to strip
    | ScriptExhausted              // the scripted model has no further reply

  datatype Outcome = Answered(text: string) | Failed(error: TurnError)

  /** One processed round of the tool loop: the call taken and what its tool returned. */
  datatype Round = Round(call: ToolCall, output: ToolOutput)

  datatype Dispatched = Ran(output: ToolOutput) | Raised(error: TurnError) | Unrecognized

  /** How the tool loop ended: it exited normally, or an exception escaped it. */
  datatype LoopExit =
    | Exited(messages: seq<Message>, rounds: seq<Round>, requests: seq<Request>, rest: seq<Reply>)
    | Aborted(error: TurnError, rounds: seq<Round>, requests: seq<Request>)

  /** Everything a turn does: its outcome, the rounds it processed and the requests it sent. */
  datatype Turn = Turn(outcome: Outcome, rounds: seq<Round>, requests: seq<Request>)

  const ToolNames: set<string> := {"get_user_past_reviews", "get_genres", "get_movies"}

  /** A system message is sent when one is given and it is not the empty string. */
  predicate HasSystem(system: Option<string>)
  {
    system.Some? && system.value != ""
  }

  /**
   * The outgoing message list of a turn: the system message if one is given,
   * then the prior history unchanged and in order, then the user message.
   */
  function Outgoing(system: Option<string>, history: seq<Message>, user: string): (m: seq<Message>)
    ensures var off := if HasSystem(system) then 1 else 0;
            && |m| == off + |history| + 1
            && (HasSystem(system) ==> m[0] == SystemMsg(system.value))
            && m[off..off + |history|] == history
            && m[|m| - 1] == UserMsg(user)
  {
    var m := (if HasSystem(system) then [SystemMsg(system.value)] else []) + history + [UserMsg(user)];
    assert HasSystem(system) ==> m[1..1 + |history|] == history;
    assert !HasSystem(system) ==> m[0..|history|] == history;
    m
  }

  /** Runs the tool a call names; an unknown name selects nothing. */
  function Dispatch(call: ToolCall): (d: Dispatched)
    ensures d.Unrecognized? <==> call.name !in ToolNames
    ensures d.Raised? <==> call.name == "get_user_past_reviews" && GetUserPastReviews(call.args.userId).KeyError?
    ensures d.Raised? ==> d.error == UnknownUser(call.args.userId)
    ensures d.Ran? ==>
              && (d.output.ReviewsOut? <==> call.name == "get_user_past_reviews")
              && (d.output.GenresOut? <==> call.name == "get_genres")
              && (d.output.MoviesOut? <==> call.name == "get_movies")
  {
    if call.name == "get_user_past_reviews" then
      match GetUserPastReviews(call.args.userId)
      case Found(reviews) => Ran(ReviewsOut(reviews))
      case KeyError(key) => Raised(UnknownUser(key))
    else if call.name == "get_genres" then
      Ran(GenresOut(GenreUnion(SimulatedGenres, call.args.movieIds)))
    else if call.name == "get_movies" then
      Ran(MoviesOut(Recommend(SimulatedGenresMovies, call.args.genres, call.args.watchedMovieIds)))
    else
      Unrecognized
  }

  /** The two messages a processed round adds to the outgoing list. */
  function RoundMessages(r: Round): seq<Message>
  {
    [AssistantToolCall(r.call), ToolMsg(Some(r.call.id), r.call.name, r.output)]
  }

  /** The entry a processed round adds to the history: a tool message without the call id. */
  function HistoryEntry(r: Round): Message
  {
    ToolMsg(None, r.call.name, r.output)
  }

  function ToolEntries(rounds: seq<Round>): seq<Message>
  {
    seq(|rounds|, k requires 0 <= k < |rounds| => HistoryEntry(rounds[k]))
  }

  /**
   * The tool loop. `reply` answers the last request; `rest` holds the replies
   * still to come. Only the first tool call of a reply is taken.
   */
  function ToolLoop(messages: seq<Message>, rounds: seq<Round>, requests: seq<Request>,
                    reply: Reply, rest: seq<Reply>): LoopExit
    decreases |rest|
  {
    if reply.ApiError? then Aborted(ApiFailure(reply.reason), rounds, requests)
    else if reply.toolCalls == [] then Exited(messages, rounds, requests, rest)
    else
      var call := reply.toolCalls[0];
      match Dispatch(call)
      case Unrecognized => Exited(messages, rounds, requests, rest)
      case Raised(e) => Aborted(e, rounds, requests)
      case Ran(out) =>
        var round := Round(call, out);
        var messages' := messages + RoundMessages(round);
        var requests' := requests + [Request(messages', true)];
        if rest == [] then Aborted(ScriptExhausted, rounds + [round], requests')
        else ToolLoop(messages', rounds + [round], requests', rest[0], rest[1..])
  }

  /** The reply to the final request, sent without tools, decides the answer. */
  function FinalOutcome(rest: seq<Reply>): (r: Outcome)
    ensures r.Answered? <==> rest != [] && rest[0].Completion? && rest[0].content.Some?
    ensures r.Answered? ==> StrippedFrom(r.text, rest[0].content.value)
    ensures rest == [] ==> r == Failed(ScriptExhausted)
    ensures rest != [] && rest[0].ApiError? ==> r == Failed(ApiFailure(rest[0].reason))
    ensures rest != [] && rest[0].Completion? && rest[0].content.None? ==> r == Failed(NoContent)
  {
    if rest == [] then Failed(ScriptExhausted)
    else match rest[0]
      case ApiError(reason) => Failed(ApiFailure(reason))
      case Completion(content, _) =>
        if content.None? then Failed(NoContent) else Answered(Strip(content.value))
  }

  /** The turn a finished tool loop leads to: an escaped exception fails it, otherwise the final request decides. */
  function Conclude(exit: LoopExit): Turn
  {
    match exit
    case Aborted(e, rounds, requests) => Turn(Failed(e), rounds, requests)
    case Exited(messages, rounds, requests, rest) =>
      Turn(FinalOutcome(rest), rounds, requests + [Request(messages, false)])
  }

  /** A whole turn against a scripted model. */
  function RunTurn(history: seq<Message>, user: string, system: Option<string>, script: seq<Reply>): Turn
  {
    var first := Request(Outgoing(system, history, user), true);
    if script == [] then Turn(Failed(ScriptExhausted), [], [first])
    else Conclude(ToolLoop(first.messages, [], [first], script[0], script[1..]))
  }

  /** What a turn appends to the history: its tool entries, then on success the user and assistant entries. */
  function Appended(t: Turn, user: string): seq<Message>
  {
    ToolEntries(t.rounds) + (if t.outcome.Answered? then [UserMsg(user), AssistantText(t.outcome.text)] else [])
  }

  class MovieAgent {
    /** The conversation history, kept across turns. */
    var history: seq<Message>

    constructor ()
      ensures history == []
    {
      history := [];
    }

    /**
     * Handles one user message. Returns the outcome and the requests sent to
     * the model, in order; the history gains what `Appended` says.
     */
    method HandleTurn(userMessage: string, systemMessage: Option<string>, script: seq<Reply>)
      returns (outcome: Outcome, requests: seq<Request>)
      modifies this
      ensures old(history) <= history
      ensures var t := RunTurn(old(history), userMessage, systemMessage, script);
              && outcome == t.outcome
              && requests == t.requests
              && history == old(history) + Appended(t, userMessage)
    {
      var messages := Compose(userMessage, systemMessage);
      requests := [Request(messages, true)];
      if script == [] {
        return Failed(ScriptExhausted), requests;
      }
      var exit := ToolRounds(messages, requests, script);
      assert RunTurn(old(history), userMessage, systemMessage, script) == Conclude(exit);
      assert Conclude(exit).rounds == exit.rounds;
      outcome, requests := Finish(exit, userMessage);
    }

    /** The first outgoing list: the system message when given, the history, the user message. */
    method Compose(userMessage: string, systemMessage: Option<string>) returns (messages: seq<Message>)
      ensures messages == Outgoing(systemMessage, history, userMessage)
    {
      messages := [];
      if systemMessage.Some? && systemMessage.value != "" {
        messages := messages + [SystemMsg(systemMessage.value)];
      }
      messages := messages + history;
      messages := messages + [UserMsg(userMessage)];
    }

    /**
     * Ends a turn whose tool loop has finished: an escaped exception fails
     * it; otherwise the messages are sent once more without tools, and an
     * answer is recorded in the history after the user message.
     */
    method Finish(exit: LoopExit, userMessage: string) returns (outcome: Outcome, requests: seq<Request>)
      modifies this
      ensures outcome == Conclude(exit).outcome
      ensures requests == Conclude(exit).requests
      ensures history == old(history) + (if outcome.Answered? then [UserMsg(userMessage), AssistantText(outcome.text)] else [])
    {
      requests := exit.requests;
      if exit.Aborted? {
        return Failed(exit.error), requests;
      }
      requests := requests + [Request(exit.messages, false)];
      outcome := FinalReply(exit.rest);
      if outcome.Answered? {
        history := history + [UserMsg(userMessage)];
        history := history + [AssistantText(outcome.text)];
      }
    }

    /**
     * The tool loop of a turn, from the reply to the first request on: each
     * round takes the first tool call, runs it, adds the call and its result
     * to the outgoing messages and a tool entry to the history, and sends the
     * messages again.
     */
    method ToolRounds(messages0: seq<Message>, requests0: seq<Request>, script: seq<Reply>)
      returns (exit: LoopExit)
      requires script != []
      modifies this
      ensures exit == ToolLoop(messages0, [], requests0, script[0], script[1..])
      ensures history == old(history) + ToolEntries(exit.rounds)
    {
      ghost var goal := ToolLoop(messages0, [], requests0, script[0], script[1..]);
      var messages, requests := messages0, requests0;
      var rounds: seq<Round> := [];
      var reply := script[0];
      var next := 1;
      while reply.Completion? && reply.toolCalls != []
        invariant 1 <= next <= |script|
        invariant ToolLoop(messages, rounds, requests, reply, script[next..]) == goal
        invariant history == old(history) + ToolEntries(rounds)
        decreases |script| - next
      {
        var call := reply.toolCalls[0];
        var dispatched := RunTool(call);
        if dispatched.Unrecognized? {
          break;
        }
        if dispatched.Raised? {
          return Aborted(dispatched.error, rounds, requests);
        }
        var round := Round(call, dispatched.output);
        messages := messages + [AssistantToolCall(call), ToolMsg(Some(call.id), call.name, round.output)];
        history := history + [ToolMsg(None, call.name, round.output)];
        assert ToolEntries(rounds + [round]) == ToolEntries(rounds) + [HistoryEntry(round)];
        rounds := rounds + [round];
        requests := requests + [Request(messages, true)];
        if next == |script| {
          return Aborted(ScriptExhausted, rounds, requests);
        }
        reply := script[next];
        next := next + 1;
        assert script[next - 1..][1..] == script[next..];
      }
      if reply.ApiError? {
        return Aborted(ApiFailure(reply.reason), rounds, requests);
      }
      exit := Exited(messages, rounds, requests, script[next..]);
    }

    /** Empties the history, whatever it held. */
    method ClearHistory()
      modifies this
      ensures history == []
    {
      history := [];
    }
  }

  /**
   * Reads the reply to the final request, which was sent without tools: its
   * content, stripped of surrounding whitespace, is the answer.
   */
  method FinalReply(rest: seq<Reply>) returns (outcome: Outcome)
    ensures outcome == FinalOutcome(rest)
  {
    if rest == [] {
      return Failed(ScriptExhausted);
    }
    var final := rest[0];
    if final.ApiError? {
      return Failed(ApiFailure(final.reason));
    }
    if final.content.None? {
      return Failed(NoContent);
    }
    outcome := Answered(Strip(final.content.value));
  }

  /**
   * Runs the catalogue function the call names, by comparing the name with
   * each tool name in turn; a KeyError from the review lookup is raised.
   */
  method RunTool(call: ToolCall) returns (d: Dispatched)
    ensures d == Dispatch(call)
  {
    if call.name == "get_user_past_reviews" {
      var found := GetUserPastReviews(call.args.userId);
      if found.KeyError? {
        return Raised(UnknownUser(found.key));
      }
      d := Ran(ReviewsOut(found.value));
    } else if call.name == "get_genres" {
      var genres := GetGenres(call.args.movieIds);
      d := Ran(GenresOut(Elements(genres)));
    } else if call.name == "get_movies" {
      var titles := GetMovies(call.args.genres, call.args.watchedMovieIds);
      d := Ran(MoviesOut(titles));
    } else {
      d := Unrecognized;
    }
  }
}
