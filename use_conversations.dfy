/** The conversations hook: the list, its loading and error state, the
    request counter that lets only the latest load write its result, and
    the creation of a conversation. A load is split at its `await`: the
    part that starts it, and the part that runs when the answer comes. */
module UseConversations {
  import opened Wrappers
  import opened WorkerApi

  const RETRY_LATER: string := "Could not load chats right now. Please refresh in a moment."
  const LOAD_FAILED: string := "Failed to load conversations"
  const CREATE_FAILED: string := "Failed to create conversation"

  /** `toConversationListError`: a server-side failure gets the fixed
      retry text, any other `Error` its own message, anything else the
      default text. */
  function ToConversationListError(e: Thrown): (m: string)
    ensures e.ApiError? && e.status >= 500 ==> m == RETRY_LATER
    ensures e.ApiError? && e.status < 500 ==> m == e.message
    ensures e.PlainError? ==> m == e.message
    ensures e.NonError? ==> m == LOAD_FAILED
  {
    if e.ApiError? && e.status >= 500 then RETRY_LATER else MessageOr(e, LOAD_FAILED)
  }

  /** A server error never shows its own message, whatever it says. */
  lemma ServerErrorsHidden(status: int, message: string, message': string)
    requires status >= 500
    ensures ToConversationListError(ApiError(status, message)) == ToConversationListError(ApiError(status, message'))
  {
  }

  /** Whether a conversation with that id is listed. */
  predicate HasId(cs: seq<Conversation>, id: string) {
    exists i :: 0 <= i < |cs| && cs[i].id == id
  }

  /** The update `createNewConversation` applies to the list: unchanged
      when the id is already there, the new conversation first otherwise. */
  function DedupPrepend(existing: seq<Conversation>, c: Conversation): (r: seq<Conversation>)
    ensures HasId(existing, c.id) ==> r == existing
    ensures !HasId(existing, c.id) ==> r == [c] + existing
  {
    if HasId(existing, c.id) then existing else [c] + existing
  }

  predicate DistinctIds(cs: seq<Conversation>) {
    forall i, j :: 0 <= i < j < |cs| ==> cs[i].id != cs[j].id
  }

  /** After the update the id is listed exactly once when ids were
      distinct before; applying it again changes nothing. */
  lemma DedupPrependKeepsIdsDistinct(existing: seq<Conversation>, c: Conversation)
    requires DistinctIds(existing)
    ensures DistinctIds(DedupPrepend(existing, c))
    ensures HasId(DedupPrepend(existing, c), c.id)
    ensures DedupPrepend(DedupPrepend(existing, c), c) == DedupPrepend(existing, c)
  {
    var r := DedupPrepend(existing, c);
    if !HasId(existing, c.id) {
      forall i, j | 0 <= i < j < |r|
        ensures r[i].id != r[j].id
      {
        if i == 0 {
          assert r[j] == existing[j - 1];
        } else {
          assert r[i] == existing[i - 1] && r[j] == existing[j - 1];
        }
      }
      assert r[0].id == c.id;
    }
  }

  /** The request `createNewConversation` sends: each option given wins
      over the hook's default. */
  datatype CreateRequest = CreateRequest(title: Option<string>, executionTarget: string,
                                         workspaceId: Option<string>, officeId: Option<string>)

  function NewConversationRequest(
    title: Option<string>, executionTarget: Option<string>, workspaceId: Option<string>, officeId: Option<string>,
    defaultTarget: string, defaultWorkspace: Option<string>, defaultOffice: Option<string>): (q: CreateRequest)
    ensures q.title == title
    ensures q.executionTarget == (if executionTarget.Some? then executionTarget.value else defaultTarget)
    ensures q.workspaceId == (if workspaceId.Some? then workspaceId else defaultWorkspace)
    ensures q.officeId == (if officeId.Some? then officeId else defaultOffice)
  {
    CreateRequest(title, executionTarget.GetOr(defaultTarget),
      if workspaceId.Some? then workspaceId else defaultWorkspace,
      if officeId.Some? then officeId else defaultOffice)
  }

  /** The hook's state. `requestId` is `requestIdRef.current`. */
  class ConversationsHook {
    var conversations: seq<Conversation>
    var isLoading: bool
    var isCreating: bool
    var error: Option<string>
    var requestId: nat

    constructor()
      ensures conversations == [] && isLoading && !isCreating && error.None? && requestId == 0
    {
      conversations, isLoading, isCreating, error, requestId := [], true, false, None, 0;
    }

    /** `loadConversations` up to its `await`: a new request number is
        taken, loading shows if asked, and the error is cleared. */
    method StartLoad(showLoading: bool) returns (ticket: nat)
      modifies this
      ensures ticket == old(requestId) + 1 && requestId == ticket
      ensures isLoading == (showLoading || old(isLoading))
      ensures error.None?
      ensures conversations == old(conversations) && isCreating == old(isCreating)
    {
      ticket := requestId + 1;
      requestId := ticket;
      if showLoading {
        isLoading := true;
      }
      error := None;
    }

    /** `loadConversations` after its `await`: only the request still
        current writes the rows or the error, and only it, when it showed
        loading, hides it again. */
    method FinishLoad(ticket: nat, showLoading: bool, outcome: Result<seq<Conversation>, Thrown>)
      modifies this
      ensures ticket != old(requestId) ==> unchanged(this)
      ensures ticket == old(requestId) && outcome.Ok? ==> conversations == outcome.value && error == old(error)
      ensures ticket == old(requestId) && outcome.Err? ==> (
        && conversations == old(conversations)
        && error == Some(ToConversationListError(outcome.error)))
      ensures ticket == old(requestId) ==> isLoading == (old(isLoading) && !showLoading)
      ensures requestId == old(requestId) && isCreating == old(isCreating)
    {
      match outcome {
        case Ok(rows) =>
          if ticket == requestId {
            conversations := rows;
          }
        case Err(e) =>
          if ticket == requestId {
            error := Some(ToConversationListError(e));
          }
      }
      if showLoading && ticket == requestId {
        isLoading := false;
      }
    }

    /** The effect's cleanup: the counter moves on, so a load still in
        flight no longer matches it. */
    method Unmount()
      modifies this
      ensures requestId == old(requestId) + 1
      ensures conversations == old(conversations) && isLoading == old(isLoading)
      ensures isCreating == old(isCreating) && error == old(error)
    {
      requestId := requestId + 1;
    }

    /** `createNewConversation` once the request has answered: the new
        conversation is added unless already listed, or the failure
        becomes the error and is passed on. */
    method CreateNewConversation(answer: Result<Conversation, Thrown>) returns (r: Result<Conversation, Thrown>)
      modifies this
      ensures r == answer
      ensures answer.Ok? ==> conversations == DedupPrepend(old(conversations), answer.value) && error.None?
      ensures answer.Err? ==> conversations == old(conversations) && error == Some(MessageOr(answer.error, CREATE_FAILED))
      ensures !isCreating
      ensures isLoading == old(isLoading) && requestId == old(requestId)
    {
      isCreating := true;
      error := None;
      match answer {
        case Ok(c) =>
          conversations := DedupPrepend(conversations, c);
        case Err(e) =>
          error := Some(MessageOr(e, CREATE_FAILED));
      }
      r := answer;
      isCreating := false;
    }
  }

  /** Two loads overlap and the older answers last: the list holds the
      newer load's rows, and the newer load's end hid the spinner. */
  method StaleLoadDiscarded(hook: ConversationsHook, older: seq<Conversation>, newer: seq<Conversation>)
    modifies hook
    ensures hook.conversations == newer
    ensures !hook.isLoading
    ensures hook.error.None?
  {
    var first := hook.StartLoad(true);
    var second := hook.StartLoad(true);
    hook.FinishLoad(second, true, Ok(newer));
    hook.FinishLoad(first, true, Ok(older));
  }

  /** A load still in flight when the hook unmounts writes nothing. */
  method UnmountedLoadDiscarded(hook: ConversationsHook, rows: seq<Conversation>, failure: Thrown)
    modifies hook
    ensures hook.conversations == old(hook.conversations)
    ensures hook.error.None?
    ensures hook.isLoading
  {
    var ticket := hook.StartLoad(true);
    hook.Unmount();
    hook.FinishLoad(ticket, true, Ok(rows));
    hook.FinishLoad(ticket, true, Err(failure));
  }
}
