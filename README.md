# Movie recommender agent — a Dafny model

The system is a command-line chatbot. It recommends movies by letting a remote
language model call three local lookup tools. This project models the part of
`MovieAgentV2.py` that has logic:

- **The catalogue lookups** (module `Catalog`, `catalog.dfy`). These are
  `get_user_past_reviews`, `get_genres` and `get_movies`, each over its fixed
  in-memory table. A review lookup for an unknown user is a KeyError, modelled
  by the `Lookup` datatype. `get_genres` is a loop that fills a set; the method
  then lists that set once per element, in an order the model leaves open.
  `get_movies` is two nested loops that append titles genre by genre. Both
  methods are proved against recursive specification functions (`GenreUnion`,
  `Recommend`), and the promised properties are lemmas about those functions.
  These functions take the table as a parameter, so the general lemmas hold
  for any table; the methods and the worked examples use the fixed tables.
- **One chat turn** (module `Agent`, `agent.dfy`). This is
  `chat_completion_with_tools` and `clear_conversation_history` on the class
  `MovieAgent`, whose field `history` is the conversation history. The remote
  model is an oracle. Its successive replies are a finite script
  (`seq<Reply>`); each completion request takes the next reply. If the script
  runs out, the turn fails, which bounds the tool loop. The method
  `HandleTurn` returns the outcome and every request it sent (each request is
  the snapshot of the messages and whether tools were attached). It is proved
  equal to the specification function `RunTurn`.
- **Python's `str.strip()`** (module `Text`, `text.dfy`). It is applied to the
  final answer, over the characters for which Python's `str.isspace()` holds.
- **Properties of a turn** (module `TurnProperties`, `turn_properties.dfy`).
  These cover the request chain, the message layout and correlation ids, how a
  turn follows the script, what the history gains, and that only the first
  tool call of a reply matters.

Three behaviours of the code a reader may not expect:

- The code copies a tool round into the history as ONE tool entry, without
  `tool_call_id`. The assistant tool-call message is not copied. So the
  history does not keep a tool message correlated to its call; only the
  outgoing messages do (`ToolMessagesFollowTheirCall`).
- On a failure the history is not "unchanged": tool entries appended by
  earlier rounds of the same turn stay (`TurnHistory`,
  `FailureKeepsEarlierToolEntries`).
- `if system_message:` is a truth test. A system message that is the empty
  string is not sent either (`HasSystem`).

## Model

| member | source | states |
|---|---|---|
| Catalog.GetUserPastReviews | MovieAgentV2.py:10-24 | succeeds exactly for "user1" and "user2" and returns their fixed records; the ids of "user1" are 101, 102, 103, 104 and the "user2" records have none; any other id is a KeyError naming that id |
| Catalog.GetGenres | MovieAgentV2.py:27-43 | the returned list holds exactly the genres of `GenreUnion(SimulatedGenres, movieIds)`, each once |
| Catalog.ListOfSet | MovieAgentV2.py:43 | `list(set)`: every element of the set, each exactly once, in some order |
| Catalog.GenreUnionMembers | MovieAgentV2.py:38-43 | a genre is in the union if and only if some input id that is a key of the table lists it |
| Catalog.GenreUnionOrderFree | MovieAgentV2.py:38-43 | two id lists with the same members give the same union, whatever the order or repetition |
| Catalog.UnknownIdIgnored | MovieAgentV2.py:39-41 | inserting an id that is not a key anywhere in the input leaves the union unchanged |
| Catalog.User1Genres | MovieAgentV2.py:29-43 | ids [101, 103] give {"Sci-Fi", "Thriller", "Adventure"} |
| Catalog.GetMovies | MovieAgentV2.py:46-76 | the nested loops return exactly `Recommend(SimulatedGenresMovies, genres, watchedMovieIds)` |
| Catalog.RecommendConcat | MovieAgentV2.py:70-76 | genre-major order: the result for `g1 + g2` is the result for `g1` followed by that for `g2`, so repeated genres repeat their titles |
| Catalog.RecommendOne | MovieAgentV2.py:71-74 | one genre yields its unwatched titles in catalogue order, and an unknown genre yields nothing |
| Catalog.UnwatchedConcat | MovieAgentV2.py:72-74 | within a genre the filter keeps catalogue order (it distributes over concatenation) |
| Catalog.UnwatchedMembers | MovieAgentV2.py:72-74 | a title is kept if and only if some entry with that title has an id outside the watched list |
| Catalog.RecommendMembers | MovieAgentV2.py:68-76 | a title is returned if and only if some input genre contributes it |
| Catalog.RecommendedTitles | MovieAgentV2.py:68-76 | a title is returned if and only if it is the title of an unwatched entry listed under an input genre that is a key of the table |
| Catalog.RecommendThree | MovieAgentV2.py:70-76 | three genres give their contributions one after another, in input order |
| Catalog.CatalogTitlesDetermineIds | MovieAgentV2.py:48-67 | in the movie table, two entries with the same title have the same id (`TitlesDetermineIds`) |
| Catalog.RecommendExcludesWatched | MovieAgentV2.py:68-76 | over a table in which a title names one id, such as the movie table, no returned title is the title of a catalogue entry whose id is watched |
| Catalog.User1Recommendations | MovieAgentV2.py:48-76 | ["Sci-Fi", "Adventure", "Thriller"] excluding 101 to 104 gives Interstellar, The Martian, Avatar, Guardians of the Galaxy, Tenet, Edge of Tomorrow |
| Text.LeadingSpaces | MovieAgentV2.py:241 | the longest all-whitespace prefix: everything before it is whitespace and the next character is not |
| Text.TrailingSpaces | MovieAgentV2.py:241 | the longest all-whitespace suffix, stated the same way |
| Text.Strip | MovieAgentV2.py:241 | the result is a contiguous slice of the input, what was cut off on both sides is whitespace, and the result neither starts nor ends with whitespace |
| Text.StripTrimmed | MovieAgentV2.py:241 | a string with no whitespace at either end is returned unchanged |
| Text.StripIdempotent | MovieAgentV2.py:241 | stripping twice equals stripping once |
| Agent.Outgoing | MovieAgentV2.py:162-172 | the outgoing list is the system message when given and non-empty, then the prior history unchanged and in order, then the user message |
| Agent.Dispatch | MovieAgentV2.py:191-205 | a call selects nothing exactly when its name is none of the three tools; it raises exactly for an unknown user of `get_user_past_reviews`; the kind of output matches the tool named |
| Agent.RunTool | MovieAgentV2.py:191-205 | the if/elif chain over the tool name, running the catalogue methods, gives what `Dispatch` says |
| Agent.FinalOutcome | MovieAgentV2.py:234-241 | the turn is answered exactly when a reply to the final request exists, is a completion and has content; the answer is that content with only whitespace cut from either end and no whitespace left at either end; no reply, a failed call and missing content give `ScriptExhausted`, `ApiFailure` and `NoContent` |
| Agent.FinalReply | MovieAgentV2.py:234-241 | reading the final reply gives what `FinalOutcome` says |
| Agent.MovieAgent.constructor | MovieAgentV2.py:151 | a new agent has an empty history |
| Agent.MovieAgent.Compose | MovieAgentV2.py:162-172 | the list built from the system message, the history and the user message is `Outgoing` of them |
| Agent.MovieAgent.Finish | MovieAgentV2.py:234-249 | after the loop, the outcome and the requests are those `Conclude` gives, and only an answer adds the user and assistant entries to the history |
| Agent.MovieAgent.HandleTurn | MovieAgentV2.py:153-249 | the pre-turn history is a prefix of the new one; the outcome, the requests sent and the history appended are those of `RunTurn` and `Appended` |
| Agent.MovieAgent.ToolRounds | MovieAgentV2.py:186-232 | the loop's exit is `ToolLoop` from the first reply, and the history gains one tool entry per round of that exit |
| Agent.MovieAgent.ClearHistory | MovieAgentV2.py:341-343 | the history is empty afterwards, whatever it held, so clearing again changes nothing |
| TurnProperties.ChainStep | MovieAgentV2.py:207-229 | one more round extends the chain: its request resends the last messages plus the round's two messages, with tools |
| TurnProperties.ToolLoopChain | MovieAgentV2.py:186-232 | the loop only adds rounds, keeps the chain of requests, and on a normal exit hands on the messages of its last request |
| TurnProperties.ToolLoopScript | MovieAgentV2.py:186-232 | each new round takes the first tool call of the next reply, and on a normal exit the reply after the last round is the one that stopped the loop and the rest follows it |
| TurnProperties.ToolLoopAborts | MovieAgentV2.py:186-232 | an aborted loop ended at the reply after its last round, which failed or whose first call raised, or the script ran out after that round |
| TurnProperties.ChainedSent | MovieAgentV2.py:207-229 | along the chain, request k sends the first list plus the call and result messages of the first k rounds |
| TurnProperties.SentLayout | MovieAgentV2.py:207-218 | each round adds exactly two messages at the end, the assistant tool-call message and then the tool message with the same id; the first list is unchanged |
| TurnProperties.ToolMessagesFollowTheirCall | MovieAgentV2.py:207-218 | every tool message the turn sends directly follows the assistant message of the call whose id it carries |
| TurnProperties.TurnRequests | MovieAgentV2.py:162-239 | the first request sends `Outgoing` with tools; request k sends it plus k rounds, with tools; exactly when the loop stopped normally one more request sends the same messages without tools, and otherwise no request follows the last round's |
| TurnProperties.TurnFollowsScript | MovieAgentV2.py:186-249 | round k ran the first tool call of reply k, which names one of the three tools; when the next reply stops the loop, the reply after it decides the turn; otherwise the turn failed because that reply failed or its call raised, or the script ran out |
| TurnProperties.TurnHistory | MovieAgentV2.py:219-220 | the history gains one tool entry without call id per round; on success the user entry and then the assistant entry follow; on failure only tool entries are added |
| TurnProperties.AnswerIsStripped | MovieAgentV2.py:241-246 | an answer has no whitespace at either end |
| TurnProperties.ToolLoopFirstCallOnly | MovieAgentV2.py:186-187 | two reply sequences that agree on kind, content and first tool call drive the loop to the same result |
| TurnProperties.OnlyFirstToolCallTaken | MovieAgentV2.py:186-187 | two scripts that agree on each reply's kind, content and first tool call give the same turn: later tool calls are dropped |
| TurnProperties.UnknownToolEndsLoop | MovieAgentV2.py:204-205 | a first call with an unknown name leaves the loop with nothing appended, and the final request, without tools, decides the turn |
| TurnProperties.UnknownUserTurn | MovieAgentV2.py:191-193 | asking for the reviews of "user3" fails the turn with the KeyError and adds nothing to the history |
| TurnProperties.FailureKeepsEarlierToolEntries | MovieAgentV2.py:219-249 | when a later round raises, the genres entry of the earlier round stays in the history, with no user or assistant entry |

## Left out

- The remote model calls, `max_tokens` and `temperature` (MovieAgentV2.py:175-182, 222-229, 234-239) are a network API. They are replaced by the scripted replies. A failed call is modelled as an `ApiError` reply.
- JSON: tool arguments are already decoded (`ToolArgs`), and a tool message holds the tool's value (`ToolOutput`), not its JSON text. The `get_genres` output is kept as a set, because the order of the list Python serialises is its set iteration order.
- An argument missing from a tool call, with its `"Unknown"` default, and a malformed JSON argument string are not modelled. Every call carries all its arguments.
- The string-typed ids of the tool schemas are not modelled; ids are integers, as in the tables.
- The tool catalogue `TOOLS` is static data. Only its three names matter for dispatch.
- A reply with no `choices`, and any exception other than those listed in `TurnError`, are not modelled.
- The error text `Error making API call: ...` is not built. A failed turn returns the caught error as `Failed(TurnError)`.
- `start_conversation`, `show_conversation_history`, the `print` calls, environment and credential loading, and main.py are terminal I/O and setup. They are not part of this model.

