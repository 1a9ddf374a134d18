/** The shared agent runtime: execution-target rules, and the per-conversation
    agent resolution with its race between concurrent requests, the chat
    stream set-up and the work scheduled to run after the response. The Letta
    service, the conversation store and the host's hooks are objects whose
    state is the part of the world the runtime changes; the outcome of every
    remote call is a parameter. */
module AgentRuntime {
  import opened Wrappers
  import opened JsStrings
  import opened AiSdk

  const SANDBOX_EXECUTION_TARGET: string := "sandbox"
  const LOCAL_EXECUTION_TARGET: string := "local"
  const LEGACY_DEFAULT_EXECUTION_TARGET: string := "default"

  /** A JavaScript `string | null | undefined`. */
  datatype NullableString = Undefined | Null | Str(s: string)

  datatype SharedExecutionTarget = Sandbox | Local
  datatype ExecutionSurface = Worker | Web | Desktop

  function TargetName(t: SharedExecutionTarget): string {
    match t
    case Sandbox => SANDBOX_EXECUTION_TARGET
    case Local => LOCAL_EXECUTION_TARGET
  }

  function UnsupportedTargetMessage(v: string): string {
    "Unsupported cloud execution target: " + v + ". Worker supports sandbox only."
  }

  /** Every stored or requested cloud target resolves to "sandbox": absent,
      empty, "sandbox" and the legacy "default" are accepted, anything else
      is refused with the offending value in the message. */
  function CanonicalizeExecutionTarget(value: NullableString): (r: Result<string, string>)
    ensures r.Ok? <==> (value.Str? ==> value.s in {"", SANDBOX_EXECUTION_TARGET, LEGACY_DEFAULT_EXECUTION_TARGET})
    ensures r.Ok? ==> r.value == SANDBOX_EXECUTION_TARGET
    ensures r.Err? ==> value.Str? && r.error == UnsupportedTargetMessage(value.s)
  {
    if value == Undefined || value == Null || value == Str("")
      || value == Str(SANDBOX_EXECUTION_TARGET) || value == Str(LEGACY_DEFAULT_EXECUTION_TARGET)
    then Ok(SANDBOX_EXECUTION_TARGET)
    else Err(UnsupportedTargetMessage(value.s))
  }

  /** Canonicalising is idempotent: the canonical target canonicalises to
      itself, so a stored value can be re-read and re-canonicalised. */
  lemma CanonicalizeIdempotent(value: NullableString)
    requires CanonicalizeExecutionTarget(value).Ok?
    ensures CanonicalizeExecutionTarget(Str(CanonicalizeExecutionTarget(value).value))
         == CanonicalizeExecutionTarget(value)
  {
  }

  /** The desktop runs both targets; the worker and the web app only the
      sandbox. */
  predicate SupportsExecutionTargetOnSurface(target: SharedExecutionTarget, surface: ExecutionSurface) {
    if surface == Desktop then target == Sandbox || target == Local
    else target == Sandbox
  }

  function SupportedExecutionTargetsForSurface(surface: ExecutionSurface): (r: seq<SharedExecutionTarget>)
    ensures forall t :: t in r <==> SupportsExecutionTargetOnSurface(t, surface)
    ensures |r| > 0 && r[0] == Sandbox
  {
    if surface == Desktop then [Sandbox, Local] else [Sandbox]
  }

  /** The list for a surface has no repeats and lists exactly the targets
      the surface supports, sandbox first. */
  lemma SupportedTargetsAgree(surface: ExecutionSurface)
    ensures var r := SupportedExecutionTargetsForSurface(surface);
      && (forall i, j :: 0 <= i < j < |r| ==> r[i] != r[j])
      && (forall t :: SupportsExecutionTargetOnSurface(t, surface) ==> t in r)
      && (|r| == 2 <==> surface == Desktop)
  {
  }

  /** `${message} [${errorContext}]`, or the message alone when the context
      is absent or empty. */
  function FormatErrorContext(message: string, errorContext: Option<string>): (r: string)
    ensures !Truthy(errorContext) ==> r == message
    ensures Truthy(errorContext) ==>
      && StartsWith(r, message + " [")
      && r[|message| + 2..] == errorContext.value + "]"
  {
    if !Truthy(errorContext) then message else message + " [" + errorContext.value + "]"
  }

  const FAILED_TO_DELETE_ORPHAN: string := "Failed to delete orphan agent"
  const FAILED_TO_RESOLVE: string := "Failed to resolve agent for conversation"
  const STREAM_ERROR: string := "streamText error"
  const FAILED_TO_SAVE_ASSISTANT: string := "Failed to save assistant message"

  /** A call to the host's `onError` hook: the formatted message and the
      thrown value, rendered as its message. */
  datatype ErrorReport = ErrorReport(message: string, cause: string)

  /** A background task handed to the host's `schedule` hook. */
  datatype Task =
    | DeleteOrphanAgent(agentId: string, errorContext: Option<string>)
    | SaveReplyAndCleanup(tools: ToolSet, errorContext: Option<string>)

  /** The host's hooks, as the record of what was handed to them. */
  class Hooks {
    var scheduled: seq<Task>
    var errors: seq<ErrorReport>

    constructor()
      ensures scheduled == [] && errors == []
    {
      scheduled := [];
      errors := [];
    }

    method Schedule(task: Task)
      modifies this`scheduled
      ensures scheduled == old(scheduled) + [task]
    {
      scheduled := scheduled + [task];
    }

    method OnError(message: string, cause: string)
      modifies this`errors
      ensures errors == old(errors) + [ErrorReport(message, cause)]
    {
      errors := errors + [ErrorReport(message, cause)];
    }
  }

  /** The conversation's row: the claimed agent id, which the store sets
      only when it is still empty, and the saved messages. */
  class ConversationStore {
    var agentId: Option<string>
    var userMessages: seq<string>
    var assistantMessages: seq<string>

    constructor(agentId: Option<string>)
      ensures this.agentId == agentId && userMessages == [] && assistantMessages == []
    {
      this.agentId := agentId;
      userMessages := [];
      assistantMessages := [];
    }

    method GetExistingAgentId() returns (r: Option<string>)
      ensures r == agentId
    {
      r := agentId;
    }

    /** A compare-and-set: the id is written only when no id is stored. */
    method ClaimAgentId(candidate: string) returns (claimed: bool)
      modifies this`agentId
      ensures claimed <==> old(agentId).None?
      ensures agentId == (if claimed then Some(candidate) else old(agentId))
    {
      claimed := agentId.None?;
      if claimed {
        agentId := Some(candidate);
      }
    }

    method GetWinningAgentId() returns (r: Option<string>)
      ensures r == agentId
    {
      r := agentId;
    }

    /** Saving either succeeds (`failure` is None) or rejects with the given
        message and stores nothing. */
    method SaveUserMessage(content: string, failure: Option<string>) returns (r: Option<string>)
      modifies this`userMessages
      ensures r == failure
      ensures userMessages == old(userMessages) + (if failure.None? then [content] else [])
    {
      r := failure;
      if failure.None? {
        userMessages := userMessages + [content];
      }
    }

    method SaveAssistantMessage(content: string, failure: Option<string>) returns (r: Option<string>)
      modifies this`assistantMessages
      ensures r == failure
      ensures assistantMessages == old(assistantMessages) + (if failure.None? then [content] else [])
    {
      r := failure;
      if failure.None? {
        assistantMessages := assistantMessages + [content];
      }
    }
  }

  /** The Letta agents service, as the record of agents created and of
      deletions requested. */
  class AgentService {
    var created: seq<string>
    var deleteRequests: seq<string>

    constructor()
      ensures created == [] && deleteRequests == []
    {
      created := [];
      deleteRequests := [];
    }

    /** Creating an agent yields a fresh id or an error; `outcome` is the
        service's answer. */
    method CreateAgent(agentSeed: string, outcome: Result<string, string>) returns (r: Result<string, string>)
      modifies this`created
      ensures r == outcome
      ensures created == old(created) + (if outcome.Ok? then [outcome.value] else [])
    {
      r := outcome;
      if outcome.Ok? {
        created := created + [outcome.value];
      }
    }

    method DeleteAgent(id: string, failure: Option<string>) returns (r: Option<string>)
      modifies this`deleteRequests
      ensures r == failure
      ensures deleteRequests == old(deleteRequests) + [id]
    {
      deleteRequests := deleteRequests + [id];
      r := failure;
    }
  }

  /** The await points of `resolveOrCreateAgentId`: each phase names the
      remote call the resolver performs next. */
  datatype Phase =
    | ReadingExisting
    | CreatingAgent
    | Claiming(newAgentId: string)
    | FindingWinner(newAgentId: string)
    | Finished(result: Result<string, string>)

  datatype Claim = NotClaimed | Won(agentId: string) | Lost(agentId: string)

  /** How many steps a resolver in this phase may still take. */
  function Rank(p: Phase): nat {
    match p
    case ReadingExisting => 4
    case CreatingAgent => 3
    case Claiming(_) => 2
    case FindingWinner(_) => 1
    case Finished(_) => 0
  }

  /** The state the resolvers of one conversation share: the stored agent
      id, the tasks scheduled with the host and the agents created. */
  datatype Shared = Shared(stored: Option<string>, scheduled: seq<Task>, created: seq<string>)

  /** One resolver's own state. */
  datatype ResolverState = ResolverState(errorContext: Option<string>, phase: Phase, claim: Claim) {
    /** The agent id this resolver created and has not yet given up on. */
    function HeldId(): Option<string> {
      if claim.Won? || claim.Lost? then Some(claim.agentId)
      else if phase.Claiming? then Some(phase.newAgentId)
      else None
    }
  }

  /** One await step of `resolveOrCreateAgentId`: the remote call of the
      current phase and the move to the next phase. `creation` is the
      service's answer should this step create an agent. Every step brings
      the resolver closer to finishing, a stored id is never overwritten,
      and a step schedules at most one task. */
  function Advance(s: Shared, r: ResolverState, creation: Result<string, string>): (n: (Shared, ResolverState))
    ensures n.1.errorContext == r.errorContext
    ensures r.phase.Finished? ==> n == (s, r)
    ensures !r.phase.Finished? ==> Rank(n.1.phase) < Rank(r.phase)
    ensures s.stored.Some? ==> n.0.stored == s.stored
    ensures n.0.stored != s.stored ==> n.1.claim.Won? && n.0.stored == Some(n.1.claim.agentId)
    ensures n.0.scheduled != s.scheduled ==>
      n.1.claim.Lost? && n.0.scheduled == s.scheduled + [DeleteOrphanAgent(n.1.claim.agentId, r.errorContext)]
  {
    match r.phase
    case ReadingExisting =>
      if Truthy(s.stored) then (s, r.(phase := Finished(Ok(s.stored.value))))
      else (s, r.(phase := CreatingAgent))
    case CreatingAgent =>
      if creation.Ok? then (s.(created := s.created + [creation.value]), r.(phase := Claiming(creation.value)))
      else (s, r.(phase := Finished(Err(creation.error))))
    case Claiming(id) =>
      if s.stored.None? then (s.(stored := Some(id)), r.(phase := Finished(Ok(id)), claim := Won(id)))
      else (s.(scheduled := s.scheduled + [DeleteOrphanAgent(id, r.errorContext)]),
            r.(phase := FindingWinner(id), claim := Lost(id)))
    case FindingWinner(id) =>
      (s, r.(phase := Finished(if Truthy(s.stored) then Ok(s.stored.value) else Err(FAILED_TO_RESOLVE))))
    case Finished(_) =>
      (s, r)
  }

  /** One call of `resolveOrCreateAgentId`, run one await point at a time so
      that calls for the same conversation can interleave. */
  class Resolver {
    const agentSeed: string
    const errorContext: Option<string>
    var phase: Phase
    var claim: Claim

    constructor(agentSeed: string, errorContext: Option<string>)
      ensures this.agentSeed == agentSeed && this.errorContext == errorContext
      ensures phase == ReadingExisting && claim == NotClaimed
    {
      this.agentSeed := agentSeed;
      this.errorContext := errorContext;
      phase := ReadingExisting;
      claim := NotClaimed;
    }

    function State(): ResolverState
      reads this
    {
      ResolverState(errorContext, phase, claim)
    }

    /** Runs the remote call of the current phase against the store, the
        hooks and the agent service, as `Advance` describes. */
    method Step(store: ConversationStore, hooks: Hooks, agents: AgentService, creation: Result<string, string>)
      modifies this`phase, this`claim, store`agentId, hooks`scheduled, agents`created
      ensures (Shared(store.agentId, hooks.scheduled, agents.created), State())
           == Advance(old(Shared(store.agentId, hooks.scheduled, agents.created)), old(State()), creation)
    {
      match phase
      case ReadingExisting =>
        var existing := store.GetExistingAgentId();
        if Truthy(existing) {
          phase := Finished(Ok(existing.value));
        } else {
          phase := CreatingAgent;
        }
      case CreatingAgent =>
        var r := agents.CreateAgent(agentSeed, creation);
        if r.Ok? {
          phase := Claiming(r.value);
        } else {
          phase := Finished(Err(r.error));
          assert Shared(store.agentId, hooks.scheduled, agents.created)
              == old(Shared(store.agentId, hooks.scheduled, agents.created));
        }
      case Claiming(id) =>
        var claimed := store.ClaimAgentId(id);
        if claimed {
          claim := Won(id);
          phase := Finished(Ok(id));
        } else {
          claim := Lost(id);
          hooks.Schedule(DeleteOrphanAgent(id, errorContext));
          phase := FindingWinner(id);
        }
      case FindingWinner(id) =>
        var winner := store.GetWinningAgentId();
        if Truthy(winner) {
          phase := Finished(Ok(winner.value));
        } else {
          phase := Finished(Err(FAILED_TO_RESOLVE));
        }
      case Finished(_) =>
    }
  }

  /** `resolveOrCreateAgentId` run without interference: a stored id is
      reused; otherwise a new agent is created and claimed; a lost claim
      schedules the deletion of the new agent and returns the winner. */
  method ResolveOrCreateAgentId(
    store: ConversationStore, hooks: Hooks, agents: AgentService,
    agentSeed: string, errorContext: Option<string>, creation: Result<string, string>)
    returns (r: Result<string, string>)
    modifies store`agentId, hooks`scheduled, agents`created
    ensures Truthy(old(store.agentId)) ==>
      r == Ok(old(store.agentId).value) && store.agentId == old(store.agentId)
      && hooks.scheduled == old(hooks.scheduled) && agents.created == old(agents.created)
    ensures !Truthy(old(store.agentId)) && creation.Err? ==>
      r == Err(creation.error) && store.agentId == old(store.agentId)
      && hooks.scheduled == old(hooks.scheduled) && agents.created == old(agents.created)
    ensures !Truthy(old(store.agentId)) && creation.Ok? ==>
      agents.created == old(agents.created) + [creation.value]
    ensures old(store.agentId).None? && creation.Ok? ==>
      r == Ok(creation.value) && store.agentId == Some(creation.value)
      && hooks.scheduled == old(hooks.scheduled)
    ensures old(store.agentId) == Some("") && creation.Ok? ==>
      r == Err(FAILED_TO_RESOLVE) && store.agentId == old(store.agentId)
      && hooks.scheduled == old(hooks.scheduled) + [DeleteOrphanAgent(creation.value, errorContext)]
  {
    var resolver := new Resolver(agentSeed, errorContext);
    resolver.Step(store, hooks, agents, creation);
    resolver.Step(store, hooks, agents, creation);
    resolver.Step(store, hooks, agents, creation);
    resolver.Step(store, hooks, agents, creation);
    r := resolver.phase.result;
  }

  /** One scheduling decision: which resolver runs its next step, and the
      service's answer should that step create an agent. */
  datatype Turn = Turn(resolver: nat, creation: Result<string, string>)

  predicate InRange(turns: seq<Turn>, count: nat) {
    forall t :: 0 <= t < |turns| ==> turns[t].resolver < count
  }

  /** Several calls of `resolveOrCreateAgentId` for one conversation,
      interleaved at their await points in the order `turns` gives. */
  function Interleave(s: Shared, rs: seq<ResolverState>, turns: seq<Turn>): (r: (Shared, seq<ResolverState>))
    requires InRange(turns, |rs|)
    ensures |r.1| == |rs|
  {
    if turns == [] then (s, rs)
    else
      var prev := Interleave(s, rs, turns[..|turns| - 1]);
      var t := turns[|turns| - 1];
      var next := Advance(prev.0, prev.1[t.resolver], t.creation);
      (next.0, prev.1[t.resolver := next.1])
  }

  /** How many turns of `turns` go to resolver `j`. */
  function TurnsOf(turns: seq<Turn>, j: nat): nat {
    if turns == [] then 0
    else TurnsOf(turns[..|turns| - 1], j) + (if turns[|turns| - 1].resolver == j then 1 else 0)
  }

  /** The ids the service hands out in `turns`. */
  function OkValues(turns: seq<Turn>): set<string> {
    set t | 0 <= t < |turns| && turns[t].creation.Ok? :: turns[t].creation.value
  }

  /** The service never hands out an id twice, nor the id already stored. */
  predicate FreshCreations(turns: seq<Turn>, stored: Option<string>) {
    && (forall a, b :: 0 <= a < b < |turns| && turns[a].creation.Ok? && turns[b].creation.Ok?
          ==> turns[a].creation.value != turns[b].creation.value)
    && (forall a :: 0 <= a < |turns| && turns[a].creation.Ok? ==> Some(turns[a].creation.value) != stored)
  }

  /** Every creation succeeds with a non-empty id. */
  predicate CreationsSucceed(turns: seq<Turn>) {
    forall a :: 0 <= a < |turns| ==> turns[a].creation.Ok? && turns[a].creation.value != ""
  }

  predicate AllStarting(rs: seq<ResolverState>) {
    forall j :: 0 <= j < |rs| ==> rs[j].phase == ReadingExisting && rs[j].claim == NotClaimed
  }

  /** A stored id is never empty: the store holds nothing or a truthy id. */
  predicate WellStored(stored: Option<string>) {
    stored.None? || Truthy(stored)
  }

  /** The orphan deletion each losing resolver has scheduled. */
  function Deletion(r: ResolverState): multiset<Task> {
    if r.claim.Lost? then multiset{DeleteOrphanAgent(r.claim.agentId, r.errorContext)} else multiset{}
  }

  /** The union of `f` over the elements of `xs`. */
  function SumOf<X, U>(xs: seq<X>, f: X -> multiset<U>): multiset<U> {
    if xs == [] then multiset{} else SumOf(xs[..|xs| - 1], f) + f(xs[|xs| - 1])
  }

  function LostDeletions(rs: seq<ResolverState>): multiset<Task> {
    SumOf(rs, Deletion)
  }

  /** How the shared state and the resolvers' states agree. */
  predicate Consistent(stored0: Option<string>, s: Shared, rs: seq<ResolverState>) {
    && (stored0.Some? ==> s.stored == stored0)
    && (forall j :: 0 <= j < |rs| && !rs[j].phase.Finished? && !rs[j].phase.FindingWinner? ==> rs[j].claim.NotClaimed?)
    && (forall j :: 0 <= j < |rs| && rs[j].phase.FindingWinner? ==> rs[j].claim == Lost(rs[j].phase.newAgentId))
    && (forall j :: 0 <= j < |rs| && rs[j].phase.Finished? && rs[j].phase.result.Ok? ==>
          s.stored == Some(rs[j].phase.result.value))
    && (forall j :: 0 <= j < |rs| && rs[j].claim.Won? ==> stored0.None? && s.stored == Some(rs[j].claim.agentId))
    && (forall j, k :: 0 <= j < |rs| && 0 <= k < |rs| && rs[j].claim.Won? && rs[k].claim.Won? ==> j == k)
    && (forall j :: 0 <= j < |rs| && rs[j].claim.Lost? ==> s.stored.Some?)
    && (s.stored != stored0 ==> exists w :: 0 <= w < |rs| && rs[w].claim.Won?)
  }

  /** The tasks scheduled since the start are exactly the losers' deletions. */
  predicate Accounted(sched0: seq<Task>, s: Shared, rs: seq<ResolverState>) {
    && |sched0| <= |s.scheduled| && s.scheduled[..|sched0|] == sched0
    && multiset(s.scheduled[|sched0|..]) == LostDeletions(rs)
  }

  /** Under fresh creations: the agents created since the start are distinct
      ids from `ok`, every held id is one of them, no two resolvers hold the
      same id, and no loser's id is the stored one. */
  predicate HeldDistinct(created0: seq<string>, ok: set<string>, s: Shared, rs: seq<ResolverState>) {
    && |created0| <= |s.created| && s.created[..|created0|] == created0
    && (forall p :: |created0| <= p < |s.created| ==> s.created[p] in ok)
    && (forall p, q :: |created0| <= p < q < |s.created| ==> s.created[p] != s.created[q])
    && (forall j :: 0 <= j < |rs| && rs[j].HeldId().Some? ==> rs[j].HeldId().value in s.created[|created0|..])
    && (forall j, k :: 0 <= j < k < |rs| && rs[j].HeldId().Some? && rs[k].HeldId().Some? ==>
          rs[j].HeldId() != rs[k].HeldId())
    && (forall j :: 0 <= j < |rs| && rs[j].claim.Lost? ==> s.stored != Some(rs[j].claim.agentId))
  }

  /** Every resolver has finished or has at most `4 - turns taken` steps left. */
  predicate Progressing(turns: seq<Turn>, rs: seq<ResolverState>) {
    forall j :: 0 <= j < |rs| ==> rs[j].phase.Finished? || Rank(rs[j].phase) + TurnsOf(turns, j) <= 4
  }

  /** Every finished resolver returned an id, and every id held is
      non-empty. */
  predicate AllOk(rs: seq<ResolverState>) {
    && (forall j :: 0 <= j < |rs| && rs[j].phase.Finished? ==> rs[j].phase.result.Ok?)
    && (forall j :: 0 <= j < |rs| && rs[j].phase.Claiming? ==> rs[j].phase.newAgentId != "")
  }

  lemma AdvanceConsistent(stored0: Option<string>, s: Shared, rs: seq<ResolverState>, k: nat, creation: Result<string, string>)
    requires k < |rs| && Consistent(stored0, s, rs)
    ensures var n := Advance(s, rs[k], creation); Consistent(stored0, n.0, rs[k := n.1])
  {
    var n := Advance(s, rs[k], creation);
    var rs' := rs[k := n.1];
    if n.0.stored != s.stored {
      assert rs'[k].claim.Won?;
    } else if n.0.stored != stored0 {
      var w :| 0 <= w < |rs| && rs[w].claim.Won?;
      assert rs'[w].claim.Won?;
    }
  }

  /** Replacing one element replaces its share of the union. */
  lemma {:induction false} SumUpdate<X, U>(xs: seq<X>, f: X -> multiset<U>, k: nat, x: X)
    requires k < |xs|
    ensures SumOf(xs[k := x], f) + f(xs[k]) == SumOf(xs, f) + f(x)
    decreases |xs|
  {
    var last := |xs| - 1;
    var ys := xs[k := x];
    if k < last {
      var front := xs[..last];
      assert ys[..last] == front[k := x];
      assert front[k] == xs[k];
      SumUpdate(front, f, k, x);
      assert ys[last] == xs[last];
      var a, a' := SumOf(front, f), SumOf(front[k := x], f);
      assert SumOf(ys, f) == a' + f(xs[last]);
      assert SumOf(xs, f) == a + f(xs[last]);
      assert a' + f(xs[last]) + f(xs[k]) == a' + f(xs[k]) + f(xs[last]);
    } else {
      assert ys[..last] == xs[..last];
    }
  }

  lemma AdvanceAccounted(sched0: seq<Task>, s: Shared, rs: seq<ResolverState>, k: nat, creation: Result<string, string>)
    requires k < |rs| && Accounted(sched0, s, rs)
    requires rs[k].phase.Claiming? ==> rs[k].claim.NotClaimed?
    ensures var n := Advance(s, rs[k], creation); Accounted(sched0, n.0, rs[k := n.1])
  {
    var n := Advance(s, rs[k], creation);
    if rs[k].phase.Claiming? && s.stored.Some? {
      AccountedAppend(sched0, s, rs, k, n.0, n.1, DeleteOrphanAgent(rs[k].phase.newAgentId, rs[k].errorContext));
    } else {
      assert n.0.scheduled == s.scheduled && Deletion(n.1) == Deletion(rs[k]);
      AccountedSame(sched0, s, rs, k, n.0, n.1);
    }
  }

  /** A step that schedules nothing and changes no loss keeps the account. */
  lemma AccountedSame(sched0: seq<Task>, s: Shared, rs: seq<ResolverState>, k: nat, s': Shared, r: ResolverState)
    requires k < |rs| && Accounted(sched0, s, rs)
    requires s'.scheduled == s.scheduled && Deletion(r) == Deletion(rs[k])
    ensures Accounted(sched0, s', rs[k := r])
  {
    SumUpdate(rs, Deletion, k, r);
    Cancel(LostDeletions(rs[k := r]), LostDeletions(rs), Deletion(rs[k]));
  }

  /** A step that makes one resolver lose and schedules its deletion keeps
      the account. */
  lemma AccountedAppend(sched0: seq<Task>, s: Shared, rs: seq<ResolverState>, k: nat, s': Shared, r: ResolverState, d: Task)
    requires k < |rs| && Accounted(sched0, s, rs)
    requires s'.scheduled == s.scheduled + [d] && Deletion(rs[k]) == multiset{} && Deletion(r) == multiset{d}
    ensures Accounted(sched0, s', rs[k := r])
  {
    assert LostDeletions(rs[k := r]) == LostDeletions(rs) + multiset{d} by {
      SumUpdate(rs, Deletion, k, r);
    }
    assert multiset(s'.scheduled[|sched0|..]) == multiset(s.scheduled[|sched0|..]) + multiset{d} by {
      assert s'.scheduled[|sched0|..] == s.scheduled[|sched0|..] + [d];
    }
    assert s'.scheduled[..|sched0|] == s.scheduled[..|sched0|];
  }

  lemma Cancel<U>(a: multiset<U>, b: multiset<U>, d: multiset<U>)
    requires a + d == b + d
    ensures a == b
  {
    assert forall e :: a[e] == (a + d)[e] - d[e];
  }

  lemma AdvanceHeldDistinct(
    stored0: Option<string>, created0: seq<string>, ok: set<string>,
    s: Shared, rs: seq<ResolverState>, k: nat, creation: Result<string, string>)
    requires k < |rs| && Consistent(stored0, s, rs) && HeldDistinct(created0, ok, s, rs)
    requires forall v :: v in ok ==> Some(v) != stored0
    requires creation.Ok? ==> creation.value !in ok && Some(creation.value) != stored0
    ensures var n := Advance(s, rs[k], creation);
      HeldDistinct(created0, ok + (if creation.Ok? then {creation.value} else {}), n.0, rs[k := n.1])
  {
    if rs[k].phase.CreatingAgent? && creation.Ok? {
      HeldDistinctCreating(stored0, created0, ok, s, rs, k, creation);
    } else if rs[k].phase.Claiming? && s.stored.Some? {
      HeldDistinctLosing(stored0, created0, ok, s, rs, k, creation);
    } else {
      HeldDistinctOther(stored0, created0, ok, s, rs, k, creation);
    }
  }

  /** A created agent's id is new, so no resolver holds it yet. */
  lemma HeldDistinctCreating(
    stored0: Option<string>, created0: seq<string>, ok: set<string>,
    s: Shared, rs: seq<ResolverState>, k: nat, creation: Result<string, string>)
    requires k < |rs| && Consistent(stored0, s, rs) && HeldDistinct(created0, ok, s, rs)
    requires rs[k].phase.CreatingAgent? && creation.Ok?
    requires creation.value !in ok
    ensures var n := Advance(s, rs[k], creation);
      HeldDistinct(created0, ok + {creation.value}, n.0, rs[k := n.1])
  {
    var n := Advance(s, rs[k], creation);
    assert n.0.created[|created0|..] == s.created[|created0|..] + [creation.value];
    forall j | 0 <= j < |rs| && rs[j].HeldId().Some?
      ensures rs[j].HeldId().value != creation.value
    {
      var x := rs[j].HeldId().value;
      var p :| 0 <= p < |s.created[|created0|..]| && s.created[|created0|..][p] == x;
      assert s.created[|created0| + p] in ok;
    }
  }

  /** A lost claim's id is not the stored one: it came from the service
      after the start, and the winner holds a different id. */
  lemma HeldDistinctLosing(
    stored0: Option<string>, created0: seq<string>, ok: set<string>,
    s: Shared, rs: seq<ResolverState>, k: nat, creation: Result<string, string>)
    requires k < |rs| && Consistent(stored0, s, rs) && HeldDistinct(created0, ok, s, rs)
    requires rs[k].phase.Claiming? && s.stored.Some?
    requires forall v :: v in ok ==> Some(v) != stored0
    ensures var n := Advance(s, rs[k], creation);
      HeldDistinct(created0, ok + (if creation.Ok? then {creation.value} else {}), n.0, rs[k := n.1])
  {
    var x := rs[k].phase.newAgentId;
    assert x in s.created[|created0|..];
    var p :| 0 <= p < |s.created[|created0|..]| && s.created[|created0|..][p] == x;
    assert s.created[|created0| + p] in ok;
    if s.stored != stored0 {
      var w :| 0 <= w < |rs| && rs[w].claim.Won?;
      if w < k {
        assert rs[w].HeldId() != rs[k].HeldId();
      } else {
        assert rs[k].HeldId() != rs[w].HeldId();
      }
    }
  }

  /** The remaining steps create nothing, hold no new id and lose no claim. */
  lemma HeldDistinctOther(
    stored0: Option<string>, created0: seq<string>, ok: set<string>,
    s: Shared, rs: seq<ResolverState>, k: nat, creation: Result<string, string>)
    requires k < |rs| && Consistent(stored0, s, rs) && HeldDistinct(created0, ok, s, rs)
    requires !(rs[k].phase.CreatingAgent? && creation.Ok?) && !(rs[k].phase.Claiming? && s.stored.Some?)
    ensures var n := Advance(s, rs[k], creation);
      HeldDistinct(created0, ok + (if creation.Ok? then {creation.value} else {}), n.0, rs[k := n.1])
  {
  }

  lemma AdvanceProgressing(turns: seq<Turn>, i: nat, s: Shared, rs: seq<ResolverState>)
    requires i < |turns| && turns[i].resolver < |rs| && Progressing(turns[..i], rs)
    ensures var k := turns[i].resolver; var n := Advance(s, rs[k], turns[i].creation);
      Progressing(turns[..i + 1], rs[k := n.1])
  {
    TurnsOfPrefix(turns, i);
  }

  lemma AdvanceAllOk(stored0: Option<string>, s: Shared, rs: seq<ResolverState>, k: nat, creation: Result<string, string>)
    requires k < |rs| && Consistent(stored0, s, rs) && AllOk(rs) && WellStored(s.stored)
    requires creation.Ok? && creation.value != ""
    ensures var n := Advance(s, rs[k], creation); AllOk(rs[k := n.1]) && WellStored(n.0.stored)
  {
  }

  lemma {:induction false} TurnsOfPrefix(turns: seq<Turn>, i: nat)
    requires i < |turns|
    ensures forall j :: TurnsOf(turns[..i + 1], j) == TurnsOf(turns[..i], j) + (if turns[i].resolver == j then 1 else 0)
    ensures OkValues(turns[..i + 1]) == OkValues(turns[..i]) + (if turns[i].creation.Ok? then {turns[i].creation.value} else {})
  {
    assert turns[..i + 1][..i] == turns[..i];
    var a := OkValues(turns[..i + 1]);
    var b := OkValues(turns[..i]) + (if turns[i].creation.Ok? then {turns[i].creation.value} else {});
    forall v | v in a ensures v in b {
      var t :| 0 <= t < i + 1 && turns[..i + 1][t].creation.Ok? && turns[..i + 1][t].creation.value == v;
      if t < i {
        assert turns[..i][t] == turns[t];
      }
    }
    forall v | v in b ensures v in a {
      if v in OkValues(turns[..i]) {
        var t :| 0 <= t < i && turns[..i][t].creation.Ok? && turns[..i][t].creation.value == v;
        assert turns[..i + 1][t] == turns[t];
      } else {
        assert turns[..i + 1][i] == turns[i];
      }
    }
  }
  /** The first `n` turns, as one more turn after the first `n - 1`. */
  lemma InterleaveLast(s0: Shared, rs0: seq<ResolverState>, turns: seq<Turn>, n: nat)
    requires InRange(turns, |rs0|) && 0 < n <= |turns|
    ensures InRange(turns[..n], |rs0|) && InRange(turns[..n - 1], |rs0|)
    ensures var prev := Interleave(s0, rs0, turns[..n - 1]);
      var k := turns[n - 1].resolver;
      var next := Advance(prev.0, prev.1[k], turns[n - 1].creation);
      Interleave(s0, rs0, turns[..n]) == (next.0, prev.1[k := next.1])
  {
    assert turns[..n][..n - 1] == turns[..n - 1];
  }

  predicate RaceStart(s0: Shared, rs0: seq<ResolverState>, turns: seq<Turn>) {
    AllStarting(rs0) && InRange(turns, |rs0|)
  }

  lemma {:induction false} ConsistentThroughout(s0: Shared, rs0: seq<ResolverState>, turns: seq<Turn>, n: nat)
    requires RaceStart(s0, rs0, turns) && n <= |turns|
    ensures InRange(turns[..n], |rs0|)
    ensures var r := Interleave(s0, rs0, turns[..n]); Consistent(s0.stored, r.0, r.1)
  {
    if n == 0 {
      assert turns[..0] == [];
    } else {
      ConsistentThroughout(s0, rs0, turns, n - 1);
      InterleaveLast(s0, rs0, turns, n);
      var prev := Interleave(s0, rs0, turns[..n - 1]);
      AdvanceConsistent(s0.stored, prev.0, prev.1, turns[n - 1].resolver, turns[n - 1].creation);
    }
  }

  lemma {:induction false} AccountedThroughout(s0: Shared, rs0: seq<ResolverState>, turns: seq<Turn>, n: nat)
    requires RaceStart(s0, rs0, turns) && n <= |turns|
    ensures InRange(turns[..n], |rs0|)
    ensures var r := Interleave(s0, rs0, turns[..n]); Accounted(s0.scheduled, r.0, r.1)
  {
    if n == 0 {
      assert turns[..0] == [];
      LostDeletionsNone(rs0);
    } else {
      AccountedThroughout(s0, rs0, turns, n - 1);
      ConsistentThroughout(s0, rs0, turns, n - 1);
      InterleaveLast(s0, rs0, turns, n);
      var prev := Interleave(s0, rs0, turns[..n - 1]);
      AdvanceAccounted(s0.scheduled, prev.0, prev.1, turns[n - 1].resolver, turns[n - 1].creation);
    }
  }

  lemma {:induction false} ProgressingThroughout(s0: Shared, rs0: seq<ResolverState>, turns: seq<Turn>, n: nat)
    requires RaceStart(s0, rs0, turns) && n <= |turns|
    ensures InRange(turns[..n], |rs0|)
    ensures var r := Interleave(s0, rs0, turns[..n]); Progressing(turns[..n], r.1)
  {
    if n == 0 {
      assert turns[..0] == [];
    } else {
      ProgressingThroughout(s0, rs0, turns, n - 1);
      InterleaveLast(s0, rs0, turns, n);
      var prev := Interleave(s0, rs0, turns[..n - 1]);
      AdvanceProgressing(turns, n - 1, prev.0, prev.1);
    }
  }

  lemma {:induction false} AllOkThroughout(s0: Shared, rs0: seq<ResolverState>, turns: seq<Turn>, n: nat)
    requires RaceStart(s0, rs0, turns) && n <= |turns| && CreationsSucceed(turns) && WellStored(s0.stored)
    ensures InRange(turns[..n], |rs0|)
    ensures var r := Interleave(s0, rs0, turns[..n]); AllOk(r.1) && WellStored(r.0.stored)
  {
    if n == 0 {
      assert turns[..0] == [];
    } else {
      AllOkThroughout(s0, rs0, turns, n - 1);
      ConsistentThroughout(s0, rs0, turns, n - 1);
      InterleaveLast(s0, rs0, turns, n);
      var prev := Interleave(s0, rs0, turns[..n - 1]);
      AdvanceAllOk(s0.stored, prev.0, prev.1, turns[n - 1].resolver, turns[n - 1].creation);
    }
  }

  lemma {:induction false} HeldDistinctThroughout(s0: Shared, rs0: seq<ResolverState>, turns: seq<Turn>, n: nat)
    requires RaceStart(s0, rs0, turns) && n <= |turns| && FreshCreations(turns, s0.stored)
    ensures InRange(turns[..n], |rs0|)
    ensures var r := Interleave(s0, rs0, turns[..n]); HeldDistinct(s0.created, OkValues(turns[..n]), r.0, r.1)
  {
    if n == 0 {
      assert turns[..0] == [];
      assert OkValues(turns[..0]) == {};
    } else {
      var i := n - 1;
      HeldDistinctThroughout(s0, rs0, turns, i);
      ConsistentThroughout(s0, rs0, turns, i);
      InterleaveLast(s0, rs0, turns, n);
      TurnsOfPrefix(turns, i);
      var prev := Interleave(s0, rs0, turns[..i]);
      var t := turns[i];
      forall v | v in OkValues(turns[..i]) ensures Some(v) != s0.stored {
        var a :| 0 <= a < i && turns[..i][a].creation.Ok? && turns[..i][a].creation.value == v;
        assert turns[..i][a] == turns[a];
      }
      AdvanceHeldDistinct(s0.stored, s0.created, OkValues(turns[..i]), prev.0, prev.1, t.resolver, t.creation);
    }
  }

  lemma {:induction false} LostDeletionsNone(rs: seq<ResolverState>)
    requires forall j :: 0 <= j < |rs| ==> !rs[j].claim.Lost?
    ensures LostDeletions(rs) == multiset{}
    decreases |rs|
  {
    if rs != [] {
      LostDeletionsNone(rs[..|rs| - 1]);
      assert Deletion(rs[|rs| - 1]) == multiset{};
    }
  }

  /** Concurrent resolutions agree: every call that returns an id returns
      the id the store holds, and an id once stored is never replaced. */
  lemma RaceAgrees(s0: Shared, rs0: seq<ResolverState>, turns: seq<Turn>)
    requires RaceStart(s0, rs0, turns)
    ensures var r := Interleave(s0, rs0, turns);
      && (forall j :: 0 <= j < |r.1| && r.1[j].phase.Finished? && r.1[j].phase.result.Ok? ==>
            r.0.stored == Some(r.1[j].phase.result.value))
      && (s0.stored.Some? ==> r.0.stored == s0.stored)
  {
    ConsistentThroughout(s0, rs0, turns, |turns|);
    assert turns[..|turns|] == turns;
  }

  /** At most one call wins the claim, and only when nothing was stored. */
  lemma RaceSingleWinner(s0: Shared, rs0: seq<ResolverState>, turns: seq<Turn>)
    requires RaceStart(s0, rs0, turns)
    ensures var r := Interleave(s0, rs0, turns);
      && (forall j, k :: 0 <= j < |r.1| && 0 <= k < |r.1| && r.1[j].claim.Won? && r.1[k].claim.Won? ==> j == k)
      && (forall j :: 0 <= j < |r.1| && r.1[j].claim.Won? ==>
            s0.stored.None? && r.0.stored == Some(r.1[j].claim.agentId))
  {
    ConsistentThroughout(s0, rs0, turns, |turns|);
    assert turns[..|turns|] == turns;
  }

  /** The tasks scheduled during the race are exactly one orphan deletion per
      losing call, for the agent that call created. */
  lemma RaceDeletesLosers(s0: Shared, rs0: seq<ResolverState>, turns: seq<Turn>)
    requires RaceStart(s0, rs0, turns)
    ensures var r := Interleave(s0, rs0, turns);
      && |s0.scheduled| <= |r.0.scheduled| && r.0.scheduled[..|s0.scheduled|] == s0.scheduled
      && multiset(r.0.scheduled[|s0.scheduled|..]) == LostDeletions(r.1)
  {
    AccountedThroughout(s0, rs0, turns, |turns|);
    assert turns[..|turns|] == turns;
  }

  /** When the service never repeats an id, no orphan deletion targets the
      agent the conversation ends up with. */
  lemma RaceNeverDeletesWinner(s0: Shared, rs0: seq<ResolverState>, turns: seq<Turn>)
    requires RaceStart(s0, rs0, turns)
    requires FreshCreations(turns, s0.stored)
    ensures var r := Interleave(s0, rs0, turns);
      forall j :: 0 <= j < |r.1| && r.1[j].claim.Lost? ==> r.0.stored != Some(r.1[j].claim.agentId)
  {
    HeldDistinctThroughout(s0, rs0, turns, |turns|);
    assert turns[..|turns|] == turns;
  }

  /** A call given four turns has returned; when every creation succeeds
      with a non-empty id, every call that returned returned an id. */
  lemma RaceTerminates(s0: Shared, rs0: seq<ResolverState>, turns: seq<Turn>)
    requires RaceStart(s0, rs0, turns)
    ensures var r := Interleave(s0, rs0, turns);
      && (forall j :: 0 <= j < |r.1| && TurnsOf(turns, j) >= 4 ==> r.1[j].phase.Finished?)
      && (CreationsSucceed(turns) && WellStored(s0.stored) ==>
            forall j :: 0 <= j < |r.1| && r.1[j].phase.Finished? ==> r.1[j].phase.result.Ok?)
  {
    ProgressingThroughout(s0, rs0, turns, |turns|);
    if CreationsSucceed(turns) && WellStored(s0.stored) {
      AllOkThroughout(s0, rs0, turns, |turns|);
    }
    assert turns[..|turns|] == turns;
  }

  /** The scheduled orphan deletion: the delete request is always sent and a
      failure is reported to the host with the conversation's context. */
  method RunDeleteOrphanTask(
    agents: AgentService, hooks: Hooks,
    agentId: string, errorContext: Option<string>, failure: Option<string>)
    modifies agents`deleteRequests, hooks`errors
    ensures agents.deleteRequests == old(agents.deleteRequests) + [agentId]
    ensures hooks.errors == old(hooks.errors)
      + (if failure.Some? then [ErrorReport(FormatErrorContext(FAILED_TO_DELETE_ORPHAN, errorContext), failure.value)] else [])
  {
    var r := agents.DeleteAgent(agentId, failure);
    if r.Some? {
      hooks.OnError(FormatErrorContext(FAILED_TO_DELETE_ORPHAN, errorContext), r.value);
    }
  }

  /** The tools loaded for one request and how often their cleanup ran. */
  class LoadedTools {
    const tools: ToolSet
    var cleanups: nat

    constructor(tools: ToolSet)
      ensures this.tools == tools && cleanups == 0
    {
      this.tools := tools;
      cleanups := 0;
    }

    /** The cleanup's own failure is swallowed. */
    method Cleanup()
      modifies this`cleanups
      ensures cleanups == old(cleanups) + 1
    {
      cleanups := cleanups + 1;
    }
  }

  /** What the runtime hands to the model stream: the resolved agent, the
      prompt and the tools, which are omitted when there are none. */
  datatype StreamRequest = StreamRequest(agentId: string, prompt: string, tools: Option<ToolSet>)

  /** Whether an uninterrupted resolution yields an agent id: a stored
      truthy id, or a new agent claimed on an empty store. */
  predicate Resolvable(stored: Option<string>, creation: Result<string, string>) {
    Truthy(stored) || (stored.None? && creation.Ok?)
  }

  /** `hasTools && { tools }`: tools are passed only when there is at least
      one. */
  function ToolsOption(tools: ToolSet): (r: Option<ToolSet>)
    ensures r.Some? <==> |tools| > 0
    ensures r.Some? ==> r.value == tools
  {
    if |tools.Keys| > 0 then Some(tools) else None
  }

  /** The model stream's `onError` callback. */
  method ReportStreamError(hooks: Hooks, errorContext: Option<string>, cause: string)
    modifies hooks`errors
    ensures hooks.errors == old(hooks.errors) + [ErrorReport(FormatErrorContext(STREAM_ERROR, errorContext), cause)]
  {
    hooks.OnError(FormatErrorContext(STREAM_ERROR, errorContext), cause);
  }

  /** The task scheduled after the stream starts: a reply whose trimmed text
      is non-empty is saved verbatim; a failed stream or a failed save is
      reported; the tools' cleanup runs exactly once in every case.
      `text` is the stream's final text or its error, `saveFailure` the
      store's answer to the save. */
  method RunPostStreamTask(
    store: ConversationStore, hooks: Hooks, loaded: LoadedTools,
    errorContext: Option<string>, text: Result<string, string>, saveFailure: Option<string>)
    modifies store`assistantMessages, hooks`errors, loaded`cleanups
    ensures loaded.cleanups == old(loaded.cleanups) + 1
    ensures store.assistantMessages == old(store.assistantMessages)
      + (if text.Ok? && Trim(text.value) != [] && saveFailure.None? then [text.value] else [])
    ensures hooks.errors == old(hooks.errors)
      + (if text.Err? then [ErrorReport(FormatErrorContext(FAILED_TO_SAVE_ASSISTANT, errorContext), text.error)]
         else if Trim(text.value) != [] && saveFailure.Some?
         then [ErrorReport(FormatErrorContext(FAILED_TO_SAVE_ASSISTANT, errorContext), saveFailure.value)]
         else [])
  {
    if text.Err? {
      hooks.OnError(FormatErrorContext(FAILED_TO_SAVE_ASSISTANT, errorContext), text.error);
    } else if |Trim(text.value)| > 0 {
      var failure := store.SaveAssistantMessage(text.value, saveFailure);
      if failure.Some? {
        hooks.OnError(FormatErrorContext(FAILED_TO_SAVE_ASSISTANT, errorContext), failure.value);
      }
    }
    loaded.Cleanup();
  }

  /** Whether a task scheduled from `from` on releases the tools. */
  predicate CleanupScheduled(scheduled: seq<Task>, from: nat) {
    exists i :: from <= i < |scheduled| && scheduled[i].SaveReplyAndCleanup?
  }

  /** `streamAgentChat` up to the response, as written: resolve the agent,
      then save the user message while loading the tools, then start the
      stream and schedule the post-stream task. Any failure before the
      stream starts is the call's error; when both the save and the tool
      load fail the error is one of the two. When the save fails but the
      tools loaded, `Promise.all` has already rejected: the loaded tools
      are returned in `loaded` only so that the contract can say they are
      never cleaned up and no task will clean them up. */
  method StreamAgentChat(
    store: ConversationStore, hooks: Hooks, agents: AgentService,
    agentSeed: string, content: string, errorContext: Option<string>,
    creation: Result<string, string>, saveFailure: Option<string>, toolsOutcome: Result<ToolSet, string>)
    returns (r: Result<StreamRequest, string>, loaded: Option<LoadedTools>)
    modifies store`agentId, store`userMessages, hooks`scheduled, agents`created
    ensures r.Ok? ==> store.agentId.Some? && r.value.agentId == store.agentId.value
    ensures r.Ok? ==> r.value.prompt == content
    ensures r.Ok? <==> Resolvable(old(store.agentId), creation) && saveFailure.None? && toolsOutcome.Ok?
    ensures r.Ok? ==> r.value.tools == ToolsOption(toolsOutcome.value)
    ensures r.Ok? ==>
      && loaded.Some? && fresh(loaded.value) && loaded.value.tools == toolsOutcome.value
      && loaded.value.cleanups == 0
      && |hooks.scheduled| > 0
      && hooks.scheduled[|hooks.scheduled| - 1] == SaveReplyAndCleanup(toolsOutcome.value, errorContext)
    ensures r.Err? && Resolvable(old(store.agentId), creation) ==>
      (saveFailure.Some? && r.error == saveFailure.value) || (toolsOutcome.Err? && r.error == toolsOutcome.error)
    ensures store.userMessages == old(store.userMessages)
      + (if Resolvable(old(store.agentId), creation) && saveFailure.None? then [content] else [])
    ensures Resolvable(old(store.agentId), creation) && saveFailure.Some? && toolsOutcome.Ok? ==>
      && r.Err? && loaded.Some? && fresh(loaded.value) && loaded.value.cleanups == 0
      && !CleanupScheduled(hooks.scheduled, |old(hooks.scheduled)|)
    ensures loaded.Some? <==> Resolvable(old(store.agentId), creation) && toolsOutcome.Ok?
    ensures loaded.Some? ==> fresh(loaded.value) && loaded.value.tools == toolsOutcome.value && loaded.value.cleanups == 0
    ensures !Resolvable(old(store.agentId), creation) ==>
      r == Err(if creation.Err? then creation.error else FAILED_TO_RESOLVE)
    ensures store.agentId == (if old(store.agentId).None? && creation.Ok? then Some(creation.value) else old(store.agentId))
    ensures agents.created == old(agents.created)
      + (if !Truthy(old(store.agentId)) && creation.Ok? then [creation.value] else [])
    ensures hooks.scheduled == old(hooks.scheduled)
      + (if old(store.agentId) == Some("") && creation.Ok? then [DeleteOrphanAgent(creation.value, errorContext)] else [])
      + (if r.Ok? then [SaveReplyAndCleanup(toolsOutcome.value, errorContext)] else [])
    ensures r.Ok? ==> hooks.scheduled == old(hooks.scheduled) + [SaveReplyAndCleanup(toolsOutcome.value, errorContext)]
    ensures r.Err? ==> !CleanupScheduled(hooks.scheduled, |old(hooks.scheduled)|)
  {
    loaded := None;
    var agentId := ResolveOrCreateAgentId(store, hooks, agents, agentSeed, errorContext, creation);
    if agentId.Err? {
      r := Err(agentId.error);
      return;
    }
    var saved := store.SaveUserMessage(content, saveFailure);
    if saved.Some? {
      if toolsOutcome.Ok? {
        var dropped := new LoadedTools(toolsOutcome.value);
        loaded := Some(dropped);
      }
      r := Err(saved.value);
      return;
    }
    if toolsOutcome.Err? {
      r := Err(toolsOutcome.error);
      return;
    }
    var tools := new LoadedTools(toolsOutcome.value);
    loaded := Some(tools);
    hooks.Schedule(SaveReplyAndCleanup(tools.tools, errorContext));
    r := Ok(StreamRequest(agentId.value, content, ToolsOption(tools.tools)));
  }

  /** `streamAgentChat` as evidently intended: tools that loaded while the
      save failed are released at once, so every tool set that loads is
      either cleaned up or handed to the scheduled post-stream task. */
  method StreamAgentChatReleasingTools(
    store: ConversationStore, hooks: Hooks, agents: AgentService,
    agentSeed: string, content: string, errorContext: Option<string>,
    creation: Result<string, string>, saveFailure: Option<string>, toolsOutcome: Result<ToolSet, string>)
    returns (r: Result<StreamRequest, string>, loaded: Option<LoadedTools>)
    modifies store`agentId, store`userMessages, hooks`scheduled, agents`created
    ensures r.Ok? <==> Resolvable(old(store.agentId), creation) && saveFailure.None? && toolsOutcome.Ok?
    ensures r.Ok? ==> r.value.tools == ToolsOption(toolsOutcome.value)
    ensures loaded.Some? ==> fresh(loaded.value)
    ensures loaded.Some? && r.Err? ==> loaded.value.cleanups == 1
    ensures loaded.Some? && r.Ok? ==>
      && loaded.value.cleanups == 0
      && |hooks.scheduled| > 0
      && hooks.scheduled[|hooks.scheduled| - 1] == SaveReplyAndCleanup(loaded.value.tools, errorContext)
    ensures Resolvable(old(store.agentId), creation) && toolsOutcome.Ok? ==> loaded.Some?
    ensures r.Ok? ==> hooks.scheduled == old(hooks.scheduled) + [SaveReplyAndCleanup(toolsOutcome.value, errorContext)]
    ensures r.Err? ==> !CleanupScheduled(hooks.scheduled, |old(hooks.scheduled)|)
    ensures store.userMessages == old(store.userMessages)
      + (if Resolvable(old(store.agentId), creation) && saveFailure.None? then [content] else [])
    ensures store.agentId == (if old(store.agentId).None? && creation.Ok? then Some(creation.value) else old(store.agentId))
    ensures agents.created == old(agents.created)
      + (if !Truthy(old(store.agentId)) && creation.Ok? then [creation.value] else [])
    ensures !Resolvable(old(store.agentId), creation) ==>
      r == Err(if creation.Err? then creation.error else FAILED_TO_RESOLVE)
  {
    r, loaded := StreamAgentChat(store, hooks, agents, agentSeed, content, errorContext,
                                 creation, saveFailure, toolsOutcome);
    if r.Err? && loaded.Some? {
      loaded.value.Cleanup();
    }
  }
}
