/** The chat hook of one conversation: the body each sent message is
    posted with, and the loading of the stored history into the chat, with
    its single retry and the guard that keeps an abandoned load from
    writing. A load is split at its `await`: the effect that starts it and
    the callbacks that run when it settles. */
module UseNosisChat {
  import opened Wrappers
  import opened AiSdk
  import opened WorkerApi

  // ---------------------------------------------------------------------
  // prepareSendMessagesRequest
  // ---------------------------------------------------------------------

  /** `prepareSendMessagesRequest`: the body's content is the text of the
      first text part of the last message, or "" when there is none. */
  function RequestContent(messages: seq<UiMessage>): (content: string)
    ensures messages == [] ==> content == ""
    ensures messages != [] ==> content == FirstText(messages[|messages| - 1].parts)
  {
    if messages == [] then "" else FirstText(messages[|messages| - 1].parts)
  }

  /** Sending right after the history was loaded posts the content of the
      last stored message again. */
  lemma RequestAfterHistory(history: seq<ConversationMessage>)
    requires history != []
    ensures RequestContent(ToUiMessages(history)) == history[|history| - 1].content
  {
    UiMessagesFaithful(history);
  }

  /** Text in non-text parts is never sent; the first text part is. */
  lemma {:induction false} FirstTextSkipsOtherParts(parts: seq<UiPart>, kinds: seq<string>, text: string)
    ensures FirstText(seq(|kinds|, i requires 0 <= i < |kinds| => OtherPart(kinds[i])) + [TextPart(text)] + parts) == text
    decreases |kinds|
  {
    var others := seq(|kinds|, i requires 0 <= i < |kinds| => OtherPart(kinds[i]));
    var all := others + [TextPart(text)] + parts;
    if kinds != [] {
      var rest := seq(|kinds| - 1, i requires 0 <= i < |kinds| - 1 => OtherPart(kinds[1..][i]));
      assert all[1..] == rest + [TextPart(text)] + parts;
      FirstTextSkipsOtherParts(parts, kinds[1..], text);
    }
  }

  // ---------------------------------------------------------------------
  // toHistoryError
  // ---------------------------------------------------------------------

  const HISTORY_RETRY_LATER: string := "Could not load chat history right now. Please retry in a moment."
  const HISTORY_FAILED: string := "Failed to load chat history"

  /** A server error of the worker: an `ApiError` with a 5xx status. */
  predicate IsServerError(e: Thrown) {
    e.ApiError? && e.status >= 500
  }

  /** `toHistoryError`: a server error becomes a plain `Error` with the
      fixed retry text, any other `Error` is kept as it is, and anything
      else becomes a plain `Error` with the default text. */
  function ToHistoryError(e: Thrown): (r: Thrown)
    ensures !r.NonError?
    ensures IsServerError(e) ==> r == PlainError(HISTORY_RETRY_LATER)
    ensures !IsServerError(e) && !e.NonError? ==> r == e
    ensures e.NonError? ==> r == PlainError(HISTORY_FAILED)
  {
    if IsServerError(e) then PlainError(HISTORY_RETRY_LATER)
    else if e.NonError? then PlainError(HISTORY_FAILED)
    else e
  }

  /** Mapping an error already mapped changes nothing. */
  lemma HistoryErrorIdempotent(e: Thrown)
    ensures ToHistoryError(ToHistoryError(e)) == ToHistoryError(e)
  {
  }

  // ---------------------------------------------------------------------
  // loadHistory
  // ---------------------------------------------------------------------

  type History = Result<seq<ConversationMessage>, Thrown>

  /** `loadHistory`, given the answers of the first and of a second
      request: a server error on the first is retried once, after a pause;
      any other outcome of the first is final. Returns the outcome and the
      number of requests made. */
  method LoadHistory(first: History, second: History) returns (r: History, requests: nat)
    ensures requests == (if first.Err? && IsServerError(first.error) then 2 else 1)
    ensures requests == 1 ==> r == first
    ensures requests == 2 ==> r == second
  {
    requests := 1;
    if first.Ok? {
      return first, requests;
    }
    if !IsServerError(first.error) {
      return first, requests;
    }
    requests := requests + 1;
    r := second;
  }

  /** A history load is retried at most once, and never after a client
      error or a failure that is not an `ApiError`. */
  method NoRetryOnClientError(first: History, second: History) returns (r: History)
    requires first.Err? && !IsServerError(first.error)
    ensures r == first
  {
    var requests;
    r, requests := LoadHistory(first, second);
  }

  // ---------------------------------------------------------------------
  // The effect and its guard
  // ---------------------------------------------------------------------

  /** The hook's state. Each run of the effect has its own `cancelled`
      flag; `live` holds the runs whose cleanup has not run. */
  class ChatHistory {
    var messages: seq<UiMessage>
    var isHydrating: bool
    var historyError: Option<Thrown>
    var runs: nat
    var live: set<nat>

    constructor()
      ensures messages == [] && isHydrating && historyError.None? && runs == 0 && live == {}
    {
      messages, isHydrating, historyError, runs, live := [], true, None, 0, {};
    }

    /** The effect's body, on a new conversation: hydrating is shown, the
        error cleared and the chat emptied, all before the load starts. */
    method StartEffect() returns (run: nat)
      modifies this
      ensures run == old(runs) + 1 && runs == run
      ensures live == old(live) + {run}
      ensures messages == [] && isHydrating && historyError.None?
    {
      runs := runs + 1;
      run := runs;
      live := live + {run};
      isHydrating := true;
      historyError := None;
      messages := [];
    }

    /** The effect's cleanup: `cancelled = true` for that run. */
    method Cleanup(run: nat)
      modifies this
      ensures live == old(live) - {run}
      ensures messages == old(messages) && isHydrating == old(isHydrating)
      ensures historyError == old(historyError) && runs == old(runs)
    {
      live := live - {run};
    }

    /** The `then`, `catch` and `finally` callbacks of a run's load: a
        cancelled run writes nothing; a live one shows the history or the
        mapped error and stops hydrating. */
    method Settle(run: nat, outcome: History)
      modifies this
      ensures run !in old(live) ==> unchanged(this)
      ensures run in old(live) && outcome.Ok? ==> messages == ToUiMessages(outcome.value) && historyError == old(historyError)
      ensures run in old(live) && outcome.Err? ==> messages == old(messages) && historyError == Some(ToHistoryError(outcome.error))
      ensures run in old(live) ==> !isHydrating
      ensures runs == old(runs) && live == old(live)
    {
      if run !in live {
        return;
      }
      match outcome {
        case Ok(history) =>
          messages := ToUiMessages(history);
        case Err(e) =>
          historyError := Some(ToHistoryError(e));
      }
      isHydrating := false;
    }
  }

  /** Switching conversations while the first history is still loading:
      the first load settles last but is ignored, and the chat shows the
      second conversation's history. */
  method SwitchConversation(chat: ChatHistory, firstHistory: History, secondHistory: seq<ConversationMessage>)
    modifies chat
    ensures chat.messages == ToUiMessages(secondHistory)
    ensures !chat.isHydrating && chat.historyError.None?
  {
    var first := chat.StartEffect();
    chat.Cleanup(first);
    var second := chat.StartEffect();
    chat.Settle(second, Ok(secondHistory));
    chat.Settle(first, firstHistory);
  }
}
