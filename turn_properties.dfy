/** What one chat turn does to the outgoing messages, the requests and the history. */
module TurnProperties {
  import opened Catalog
  import opened Text
  import opened Agent

  /** The outgoing messages after the given rounds: the first list, then a call and its result per round. */
  function Sent(first: seq<Message>, rounds: seq<Round>): seq<Message>
  {
    if rounds == [] then first
    else Sent(first, rounds[..|rounds| - 1]) + RoundMessages(rounds[|rounds| - 1])
  }

  /** Each request of the loop resends the previous messages plus the call and the result of one round. */
  ghost predicate Chained(first: seq<Message>, rounds: seq<Round>, requests: seq<Request>)
  {
    && |requests| == |rounds| + 1
    && requests[0] == Request(first, true)
    && forall k :: 0 <= k < |rounds| ==>
         requests[k + 1] == Request(requests[k].messages + RoundMessages(rounds[k]), true)
  }

  /** Round k was taken from reply k: its first tool call, which named a tool that ran. */
  ghost predicate FollowsScript(rounds: seq<Round>, replies: seq<Reply>)
  {
    && |rounds| <= |replies|
    && forall k :: 0 <= k < |rounds| ==>
         && replies[k].Completion?
         && replies[k].toolCalls != []
         && rounds[k].call == replies[k].toolCalls[0]
         && Dispatch(rounds[k].call) == Ran(rounds[k].output)
  }

  /** A reply that ends the tool loop normally: no tool call, or a first call with an unknown name. */
  ghost predicate StopsLoop(reply: Reply)
  {
    reply.Completion? && (reply.toolCalls == [] || reply.toolCalls[0].name !in ToolNames)
  }

  /** `reply` ends the loop with `error`: the call failed, or its first tool call raised. */
  ghost predicate Aborts(reply: Reply, error: TurnError)
  {
    || (reply.ApiError? && error == ApiFailure(reply.reason))
    || (reply.Completion? && reply.toolCalls != [] && Dispatch(reply.toolCalls[0]) == Raised(error))
  }

  /** The loop stopped normally at reply `n` of the script. */
  ghost predicate StoppedAt(script: seq<Reply>, n: int)
  {
    0 <= n < |script| && StopsLoop(script[n])
  }

  /** One more round keeps the chain: its request resends the last messages plus the round's two messages. */
  lemma ChainStep(first: seq<Message>, rounds: seq<Round>, requests: seq<Request>, round: Round)
    requires Chained(first, rounds, requests)
    ensures Chained(first, rounds + [round],
                    requests + [Request(requests[|requests| - 1].messages + RoundMessages(round), true)])
  {
  }

  /**
   * The tool loop keeps the chain of requests, only adds rounds, and when it
   * exits normally the messages it hands on are those of its last request.
   */
  lemma {:induction false} ToolLoopChain(first: seq<Message>, messages: seq<Message>, rounds: seq<Round>,
                                         requests: seq<Request>, reply: Reply, rest: seq<Reply>)
    requires Chained(first, rounds, requests)
    requires messages == requests[|requests| - 1].messages
    ensures var e := ToolLoop(messages, rounds, requests, reply, rest);
            && rounds <= e.rounds
            && Chained(first, e.rounds, e.requests)
            && (e.Exited? ==> e.messages == e.requests[|e.requests| - 1].messages)
    decreases |rest|
  {
    if reply.Completion? && reply.toolCalls != [] {
      var call := reply.toolCalls[0];
      var d := Dispatch(call);
      if d.Ran? {
        var round := Round(call, d.output);
        ChainStep(first, rounds, requests, round);
        if rest != [] {
          var messages' := messages + RoundMessages(round);
          ToolLoopChain(first, messages', rounds + [round], requests + [Request(messages', true)], rest[0], rest[1..]);
        }
      }
    }
  }

  /**
   * The tool loop, started after the replies `before` were consumed by the
   * rounds already done, takes every new round from the next reply; when it
   * exits normally the reply that stopped it is the one after the last round.
   */
  lemma {:induction false} ToolLoopScript(messages: seq<Message>, rounds: seq<Round>, requests: seq<Request>,
                                          before: seq<Reply>, reply: Reply, rest: seq<Reply>)
    requires |before| == |rounds| && FollowsScript(rounds, before)
    ensures var e := ToolLoop(messages, rounds, requests, reply, rest);
            var replies := before + [reply] + rest;
            && FollowsScript(e.rounds, replies)
            && (e.Exited? ==>
                  && |e.rounds| < |replies|
                  && StopsLoop(replies[|e.rounds|])
                  && e.rest == replies[|e.rounds| + 1..])
    decreases |rest|
  {
    var replies := before + [reply] + rest;
    assert replies[|rounds|] == reply;
    assert replies[|rounds| + 1..] == rest;
    if reply.Completion? && reply.toolCalls != [] {
      var call := reply.toolCalls[0];
      var d := Dispatch(call);
      if d.Ran? {
        var round := Round(call, d.output);
        assert FollowsScript(rounds + [round], before + [reply]);
        var messages' := messages + RoundMessages(round);
        if rest != [] {
          assert before + [reply] + [rest[0]] + rest[1..] == replies;
          ToolLoopScript(messages', rounds + [round], requests + [Request(messages', true)],
                         before + [reply], rest[0], rest[1..]);
        }
      }
    }
  }

  /**
   * When the tool loop is aborted, the reply after the last round failed or
   * its first tool call raised, or the script ran out right after that round.
   */
  lemma {:induction false} ToolLoopAborts(messages: seq<Message>, rounds: seq<Round>, requests: seq<Request>,
                                          before: seq<Reply>, reply: Reply, rest: seq<Reply>)
    requires |before| == |rounds|
    ensures var e := ToolLoop(messages, rounds, requests, reply, rest);
            var replies := before + [reply] + rest;
            e.Aborted? ==>
              || (|e.rounds| < |replies| && Aborts(replies[|e.rounds|], e.error))
              || (|e.rounds| == |replies| && e.error == ScriptExhausted)
    decreases |rest|
  {
    var replies := before + [reply] + rest;
    assert replies[|rounds|] == reply;
    if reply.Completion? && reply.toolCalls != [] {
      var call := reply.toolCalls[0];
      var d := Dispatch(call);
      if d.Ran? {
        var round := Round(call, d.output);
        var messages' := messages + RoundMessages(round);
        if rest != [] {
          assert before + [reply] + [rest[0]] + rest[1..] == replies;
          ToolLoopAborts(messages', rounds + [round], requests + [Request(messages', true)],
                         before + [reply], rest[0], rest[1..]);
        }
      }
    }
  }

  /** Along a chain, request k sends the first list plus the calls and results of the first k rounds. */
  lemma {:induction false} ChainedSent(first: seq<Message>, rounds: seq<Round>, requests: seq<Request>, k: nat)
    requires Chained(first, rounds, requests) && k <= |rounds|
    ensures requests[k] == Request(Sent(first, rounds[..k]), true)
  {
    if k > 0 {
      ChainedSent(first, rounds, requests, k - 1);
      assert rounds[..k][..k - 1] == rounds[..k - 1];
    }
  }

  /**
   * The layout of the outgoing messages: the first list unchanged, then for
   * each round the assistant tool-call message and the tool message that
   * answers it under the same correlation id.
   */
  lemma {:induction false} SentLayout(first: seq<Message>, rounds: seq<Round>)
    ensures |Sent(first, rounds)| == |first| + 2 * |rounds|
    ensures Sent(first, rounds)[..|first|] == first
    ensures forall i :: 0 <= i < |rounds| ==>
              && Sent(first, rounds)[|first| + 2 * i] == AssistantToolCall(rounds[i].call)
              && Sent(first, rounds)[|first| + 2 * i + 1] ==
                 ToolMsg(Some(rounds[i].call.id), rounds[i].call.name, rounds[i].output)
  {
    if rounds != [] {
      var n := |rounds| - 1;
      SentLayout(first, rounds[..n]);
      forall i | 0 <= i < n
        ensures rounds[..n][i] == rounds[i]
      {
      }
    }
  }

  /** Every tool message the turn adds to the outgoing list directly follows the call it answers. */
  lemma ToolMessagesFollowTheirCall(first: seq<Message>, rounds: seq<Round>, p: int)
    requires |first| <= p < |Sent(first, rounds)|
    ensures Sent(first, rounds)[p].ToolMsg? ==>
              && |first| < p
              && Sent(first, rounds)[p - 1].AssistantToolCall?
              && Some(Sent(first, rounds)[p - 1].call.id) == Sent(first, rounds)[p].callId
  {
    SentLayout(first, rounds);
    var i := (p - |first|) / 2;
    assert i < |rounds|;
    if p - |first| == 2 * i {
      assert Sent(first, rounds)[|first| + 2 * i] == AssistantToolCall(rounds[i].call);
    } else {
      assert p == |first| + 2 * i + 1;
    }
  }

  /**
   * The requests of a turn: the first sends the system message if any, the
   * history and the user message, with tools; each round resends all of that
   * plus its call and result, with tools; exactly when the loop stops
   * normally, one more request sends the same messages without tools.
   */
  lemma TurnRequests(history: seq<Message>, user: string, system: Option<string>, script: seq<Reply>)
    ensures var t := RunTurn(history, user, system, script);
            var first := Outgoing(system, history, user);
            && |t.rounds| + 1 <= |t.requests| <= |t.rounds| + 2
            && t.requests[0] == Request(first, true)
            && (forall k :: 0 <= k <= |t.rounds| ==> t.requests[k] == Request(Sent(first, t.rounds[..k]), true))
            && (StoppedAt(script, |t.rounds|) ==>
                  |t.requests| == |t.rounds| + 2 && t.requests[|t.rounds| + 1] == Request(Sent(first, t.rounds), false))
            && (!StoppedAt(script, |t.rounds|) ==> |t.requests| == |t.rounds| + 1)
            && (t.outcome.Answered? ==> |t.requests| == |t.rounds| + 2)
  {
    var t := RunTurn(history, user, system, script);
    var first := Outgoing(system, history, user);
    if script == [] {
      assert Chained(first, t.rounds, t.requests);
    } else {
      var e := ToolLoop(first, [], [Request(first, true)], script[0], script[1..]);
      ToolLoopChain(first, first, [], [Request(first, true)], script[0], script[1..]);
      assert Chained(first, t.rounds, e.requests);
      forall k | 0 <= k <= |t.rounds|
        ensures t.requests[k] == Request(Sent(first, t.rounds[..k]), true)
      {
        ChainedSent(first, t.rounds, e.requests, k);
      }
      ToolLoopScript(first, [], [Request(first, true)], [], script[0], script[1..]);
      ToolLoopAborts(first, [], [Request(first, true)], [], script[0], script[1..]);
      assert [] + [script[0]] + script[1..] == script;
      if e.Exited? {
        ChainedSent(first, t.rounds, e.requests, |t.rounds|);
        assert t.rounds[..|t.rounds|] == t.rounds;
      }
    }
  }

  /**
   * The rounds of a turn follow the script: round k runs the first tool call
   * of reply k, whose name is one of the three tools. When the reply after the
   * last round stops the loop, the reply after it decides the turn; otherwise
   * the turn failed because that reply failed or raised, or the script ran out.
   */
  lemma TurnFollowsScript(history: seq<Message>, user: string, system: Option<string>, script: seq<Reply>)
    ensures var t := RunTurn(history, user, system, script);
            && |t.rounds| <= |script|
            && (forall k :: 0 <= k < |t.rounds| ==>
                  && script[k].Completion?
                  && script[k].toolCalls != []
                  && t.rounds[k].call == script[k].toolCalls[0]
                  && t.rounds[k].call.name in ToolNames
                  && Dispatch(t.rounds[k].call) == Ran(t.rounds[k].output))
            && (StoppedAt(script, |t.rounds|) ==> t.outcome == FinalOutcome(script[|t.rounds| + 1..]))
            && (!StoppedAt(script, |t.rounds|) ==>
                  && t.outcome.Failed?
                  && (|| (|t.rounds| < |script| && Aborts(script[|t.rounds|], t.outcome.error))
                      || (|t.rounds| == |script| && t.outcome.error == ScriptExhausted)))
            && (t.outcome.Answered? ==> |t.rounds| + 1 < |script| && StoppedAt(script, |t.rounds|))
  {
    if script != [] {
      var first := Outgoing(system, history, user);
      ToolLoopScript(first, [], [Request(first, true)], [], script[0], script[1..]);
      ToolLoopAborts(first, [], [Request(first, true)], [], script[0], script[1..]);
      assert [] + [script[0]] + script[1..] == script;
    }
  }

  /**
   * What a turn adds to the history: one tool entry, without call id, per
   * processed round; on success the user entry and then the assistant entry
   * follow; on failure nothing but those tool entries is added.
   */
  lemma TurnHistory(history: seq<Message>, user: string, system: Option<string>, script: seq<Reply>)
    ensures var t := RunTurn(history, user, system, script);
            var added := Appended(t, user);
            && |added| == |t.rounds| + (if t.outcome.Answered? then 2 else 0)
            && (forall k :: 0 <= k < |t.rounds| ==>
                  added[k] == ToolMsg(None, t.rounds[k].call.name, t.rounds[k].output))
            && (t.outcome.Answered? ==>
                  added[|t.rounds|..] == [UserMsg(user), AssistantText(t.outcome.text)])
            && (t.outcome.Failed? ==> forall m :: m in added ==> m.ToolMsg? && m.callId == None)
  {
    TurnFollowsScript(history, user, system, script);
  }

  /** The answer of a turn carries no whitespace at either end. */
  lemma AnswerIsStripped(history: seq<Message>, user: string, system: Option<string>, script: seq<Reply>)
    requires RunTurn(history, user, system, script).outcome.Answered?
    ensures var a := RunTurn(history, user, system, script).outcome.text;
            a == [] || (!IsSpace(a[0]) && !IsSpace(a[|a| - 1]))
  {
    var t := RunTurn(history, user, system, script);
    TurnFollowsScript(history, user, system, script);
    var final := script[|t.rounds| + 1];
    assert t.outcome == Answered(Strip(final.content.value));
  }

  /** Two replies agree on everything the turn reads: the kind, the content and the first tool call. */
  ghost predicate SameHead(a: Reply, b: Reply)
  {
    || (a.ApiError? && a == b)
    || (&& a.Completion? && b.Completion?
        && a.content == b.content
        && (a.toolCalls == [] <==> b.toolCalls == [])
        && (a.toolCalls != [] ==> a.toolCalls[0] == b.toolCalls[0]))
  }

  lemma {:induction false} ToolLoopFirstCallOnly(messages: seq<Message>, rounds: seq<Round>, requests: seq<Request>,
                                                 a: Reply, restA: seq<Reply>, b: Reply, restB: seq<Reply>)
    requires SameHead(a, b) && |restA| == |restB|
    requires forall k :: 0 <= k < |restA| ==> SameHead(restA[k], restB[k])
    ensures var ea, eb := ToolLoop(messages, rounds, requests, a, restA), ToolLoop(messages, rounds, requests, b, restB);
            && ea.Aborted? == eb.Aborted?
            && (ea.Aborted? ==> ea == eb)
            && (ea.Exited? ==>
                  && ea.messages == eb.messages && ea.rounds == eb.rounds && ea.requests == eb.requests
                  && |ea.rest| == |eb.rest|
                  && forall k :: 0 <= k < |ea.rest| ==> SameHead(ea.rest[k], eb.rest[k]))
    decreases |restA|
  {
    if a.Completion? && a.toolCalls != [] && restA != [] {
      var call := a.toolCalls[0];
      if Dispatch(call).Ran? {
        var round := Round(call, Dispatch(call).output);
        ToolLoopFirstCallOnly(messages + RoundMessages(round), rounds + [round],
                              requests + [Request(messages + RoundMessages(round), true)],
                              restA[0], restA[1..], restB[0], restB[1..]);
      }
    }
  }

  /**
   * Only the first tool call of each reply matters: two scripts whose replies
   * agree on kind, content and first tool call give the same turn.
   */
  lemma OnlyFirstToolCallTaken(history: seq<Message>, user: string, system: Option<string>,
                               scriptA: seq<Reply>, scriptB: seq<Reply>)
    requires |scriptA| == |scriptB|
    requires forall k :: 0 <= k < |scriptA| ==> SameHead(scriptA[k], scriptB[k])
    ensures RunTurn(history, user, system, scriptA) == RunTurn(history, user, system, scriptB)
  {
    if scriptA != [] {
      var first := Outgoing(system, history, user);
      var restA, restB := scriptA[1..], scriptB[1..];
      ToolLoopFirstCallOnly(first, [], [Request(first, true)], scriptA[0], restA, scriptB[0], restB);
      var ea := ToolLoop(first, [], [Request(first, true)], scriptA[0], restA);
      var eb := ToolLoop(first, [], [Request(first, true)], scriptB[0], restB);
      if ea.Exited? && ea.rest != [] {
        assert SameHead(ea.rest[0], eb.rest[0]);
      }
    }
  }

  /** A first reply whose first tool call has an unknown name ends the loop before anything is appended. */
  lemma UnknownToolEndsLoop(history: seq<Message>, user: string, system: Option<string>, script: seq<Reply>)
    requires script != [] && script[0].Completion? && script[0].toolCalls != []
    requires script[0].toolCalls[0].name !in ToolNames
    ensures var t := RunTurn(history, user, system, script);
            var first := Outgoing(system, history, user);
            && t.rounds == []
            && t.requests == [Request(first, true), Request(first, false)]
            && t.outcome == FinalOutcome(script[1..])
  {
  }

  // ---------------------------------------------------------------------------
  // Worked turns
  // ---------------------------------------------------------------------------

  const NoArgs := ToolArgs("", [], [], [])

  /** A model asking for the reviews of "user3" ends the turn with the KeyError; the history is left as it was. */
  lemma UnknownUserTurn(history: seq<Message>)
    ensures var call := ToolCall("call_1", "get_user_past_reviews", NoArgs.(userId := "user3"));
            var t := RunTurn(history, "recommend me a movie", None, [Completion(None, [call])]);
            && t.outcome == Failed(UnknownUser("user3"))
            && t.rounds == []
            && Appended(t, "recommend me a movie") == []
  {
  }

  /**
   * A round that ran keeps its tool entry when the next round raises: the
   * history gains the genres entry and neither the user nor the assistant entry.
   */
  lemma FailureKeepsEarlierToolEntries(history: seq<Message>)
    ensures var genres := ToolCall("call_1", "get_genres", NoArgs.(movieIds := [101, 103]));
            var reviews := ToolCall("call_2", "get_user_past_reviews", NoArgs.(userId := "user3"));
            var t := RunTurn(history, "hi", Some("be brief"), [Completion(None, [genres]), Completion(None, [reviews])]);
            && t.outcome == Failed(UnknownUser("user3"))
            && Appended(t, "hi") == [ToolMsg(None, "get_genres", GenresOut({"Sci-Fi", "Thriller", "Adventure"}))]
  {
    var genres := ToolCall("call_1", "get_genres", NoArgs.(movieIds := [101, 103]));
    var reviews := ToolCall("call_2", "get_user_past_reviews", NoArgs.(userId := "user3"));
    var first := Outgoing(Some("be brief"), history, "hi");
    var round := Round(genres, GenresOut({"Sci-Fi", "Thriller", "Adventure"}));
    User1Genres();
    assert Dispatch(genres) == Ran(round.output);
    assert Dispatch(reviews) == Raised(UnknownUser("user3"));
    var requests := [Request(first, true), Request(first + RoundMessages(round), true)];
    assert ToolLoop(first, [], [Request(first, true)], Completion(None, [genres]), [Completion(None, [reviews])]) ==
           ToolLoop(first + RoundMessages(round), [round], requests, Completion(None, [reviews]), []);
    assert ToolEntries([round]) == [HistoryEntry(round)];
  }
}
