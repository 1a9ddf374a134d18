/** The web client's guards in front of every worker request: identifier,
    path-segment and branch-name validation, pagination clamping, the
    message a failed response is reported with, the checks before a pull
    request or an office is created, and the conversion of stored messages
    into chat UI messages. The request itself is not modelled. */
module WorkerApi {
  import opened Wrappers
  import opened JsStrings
  import opened AiSdk

  /** What the client code can throw or catch: an `ApiError` (an `Error`
      with the HTTP status), any other `Error`, or a thrown value that is
      not an `Error` at all. */
  datatype Thrown = ApiError(status: int, message: string) | PlainError(message: string) | NonError

  /** A conversation as the worker lists it; the target is "default" or
      "sandbox". */
  datatype Conversation = Conversation(
    id: string, title: string, executionTarget: string, workspaceId: Option<string>)

  /** `err instanceof Error ? err.message : fallback`. */
  function MessageOr(e: Thrown, fallback: string): (m: string)
    ensures e.NonError? ==> m == fallback
    ensures !e.NonError? ==> m == e.message
  {
    if e.NonError? then fallback else e.message
  }

  /** The message every validator throws. */
  function Invalid(field: string): string {
    "Invalid " + field
  }

  // ---------------------------------------------------------------------
  // assertUuid
  // ---------------------------------------------------------------------

  /** `[0-9a-f]` under the `i` flag. */
  predicate IsHexDigit(c: char) {
    '0' <= c <= '9' || 'a' <= c <= 'f' || 'A' <= c <= 'F'
  }

  /** An anchored pattern of hexadecimal runs of the given widths separated
      by single '-', read group by group as the regular expression is. */
  predicate MatchesGroups(s: string, widths: seq<nat>)
    decreases widths
  {
    if widths == [] then s == []
    else
      var w := widths[0];
      && |s| >= w
      && (forall i :: 0 <= i < w ==> IsHexDigit(s[i]))
      && if |widths| == 1 then |s| == w
         else |s| > w && s[w] == '-' && MatchesGroups(s[w + 1..], widths[1..])
  }

  const UUID_GROUPS: seq<nat> := [8, 4, 4, 4, 12]

  /** The text form of a UUID, position by position: 36 characters, '-' at
      8, 13, 18 and 23, a hexadecimal digit everywhere else. */
  predicate IsUuidText(s: string) {
    && |s| == 36
    && forall i :: 0 <= i < 36 ==>
         if i == 8 || i == 13 || i == 18 || i == 23 then s[i] == '-' else IsHexDigit(s[i])
  }

  /** `assertUuid`. */
  function AssertUuid(value: string, field: string): (r: Result<(), string>)
    ensures r.Err? ==> r.error == Invalid(field)
    ensures r.Ok? <==> IsUuidText(value)
  {
    UuidPatternIff(value);
    if MatchesGroups(value, UUID_GROUPS) then Ok(()) else Err(Invalid(field))
  }

  /** The total length a group pattern matches. */
  function Width(widths: seq<nat>): nat
    requires widths != []
  {
    if |widths| == 1 then widths[0] else widths[0] + 1 + Width(widths[1..])
  }

  /** Whether position `i` is a separator of the group pattern. */
  predicate IsDash(widths: seq<nat>, i: int)
    requires widths != []
  {
    |widths| > 1 && (i == widths[0] || (i > widths[0] && IsDash(widths[1..], i - widths[0] - 1)))
  }

  predicate FitsAt(s: string, widths: seq<nat>, i: int)
    requires widths != [] && 0 <= i < |s|
  {
    if IsDash(widths, i) then s[i] == '-' else IsHexDigit(s[i])
  }

  /** The group-by-group reading of the pattern agrees with the position
      by position one. */
  lemma {:induction false} GroupsAt(s: string, widths: seq<nat>)
    requires widths != []
    ensures MatchesGroups(s, widths) <==>
      |s| == Width(widths) && forall i :: 0 <= i < |s| ==> FitsAt(s, widths, i)
    decreases widths
  {
    var w := widths[0];
    if |widths| > 1 {
      var rest := widths[1..];
      if |s| > w {
        var t := s[w + 1..];
        GroupsAt(t, rest);
        forall i | w < i < |s|
          ensures FitsAt(s, widths, i) <==> FitsAt(t, rest, i - w - 1)
        {
          assert s[i] == t[i - w - 1];
        }
        if |s| == Width(widths) && forall i :: 0 <= i < |s| ==> FitsAt(s, widths, i) {
          assert FitsAt(s, widths, w);
          forall j | 0 <= j < |t|
            ensures FitsAt(t, rest, j)
          {
            assert FitsAt(s, widths, j + w + 1);
          }
          forall i | 0 <= i < w
            ensures IsHexDigit(s[i])
          {
            assert FitsAt(s, widths, i);
          }
        }
        if MatchesGroups(s, widths) {
          forall i | 0 <= i < |s|
            ensures FitsAt(s, widths, i)
          {
            if i > w {
              assert FitsAt(t, rest, i - w - 1);
            }
          }
        }
      } else if |s| == Width(widths) {
        assert false;
      }
    } else {
      if |s| == Width(widths) && forall i :: 0 <= i < |s| ==> FitsAt(s, widths, i) {
        forall i | 0 <= i < w
          ensures IsHexDigit(s[i])
        {
          assert FitsAt(s, widths, i);
        }
      }
    }
  }

  lemma UuidDashes(i: int)
    requires 0 <= i < 36
    ensures IsDash(UUID_GROUPS, i) <==> (i == 8 || i == 13 || i == 18 || i == 23)
  {
    var g1, g2, g3, g4 := [4, 4, 4, 12], [4, 4, 12], [4, 12], [12];
    assert UUID_GROUPS[1..] == g1 && g1[1..] == g2 && g2[1..] == g3 && g3[1..] == g4;
    assert !IsDash(g4, i - 24);
    assert IsDash(g3, i - 19) <==> i == 23;
    assert IsDash(g2, i - 14) <==> i == 18 || i == 23;
    assert IsDash(g1, i - 9) <==> i == 13 || i == 18 || i == 23;
  }

  /** `UUID_RE` accepts exactly the text form of a UUID. */
  lemma {:induction false} UuidPatternIff(s: string)
    ensures MatchesGroups(s, UUID_GROUPS) <==> IsUuidText(s)
  {
    GroupsAt(s, UUID_GROUPS);
    assert Width(UUID_GROUPS) == 36 by {
      var g := UUID_GROUPS;
      assert g[1..] == [4, 4, 4, 12] && g[1..][1..] == [4, 4, 12];
      assert g[1..][1..][1..] == [4, 12] && g[1..][1..][1..][1..] == [12];
    }
    if |s| == 36 {
      forall i | 0 <= i < 36
        ensures FitsAt(s, UUID_GROUPS, i) <==>
          (if i == 8 || i == 13 || i == 18 || i == 23 then s[i] == '-' else IsHexDigit(s[i]))
      {
        UuidDashes(i);
      }
    }
  }

  /** ASCII upper-casing, the only case mapping the `i` flag needs here. */
  function UpperAscii(c: char): char {
    if 'a' <= c <= 'z' then (c as int - 32) as char else c
  }

  function Upper(s: string): (r: string)
    ensures |r| == |s|
  {
    seq(|s|, i requires 0 <= i < |s| => UpperAscii(s[i]))
  }

  /** The pattern is case-insensitive: a value and its upper-cased form are
      accepted or rejected together. */
  lemma UuidCaseInsensitive(value: string, field: string)
    ensures AssertUuid(value, field).Ok? <==> AssertUuid(Upper(value), field).Ok?
  {
    var u := Upper(value);
    if |value| == 36 {
      forall i | 0 <= i < 36
        ensures IsHexDigit(value[i]) <==> IsHexDigit(u[i])
        ensures value[i] == '-' <==> u[i] == '-'
      {
      }
    }
  }

  // ---------------------------------------------------------------------
  // assertPathSegment
  // ---------------------------------------------------------------------

  /** `[a-zA-Z0-9._-]`. */
  predicate IsSegmentChar(c: char) {
    'a' <= c <= 'z' || 'A' <= c <= 'Z' || '0' <= c <= '9' || c == '.' || c == '_' || c == '-'
  }

  predicate AllSegmentChars(s: string) {
    forall i :: 0 <= i < |s| ==> IsSegmentChar(s[i])
  }

  const MAX_SEGMENT_LENGTH: nat := 200

  /** `assertPathSegment` as written: the length check, then the character
      class. */
  function AssertPathSegmentAsWritten(value: string, field: string): (r: Result<(), string>)
    ensures r.Err? ==> r.error == Invalid(field)
    ensures r.Ok? <==> 0 < |value| <= MAX_SEGMENT_LENGTH && AllSegmentChars(value)
  {
    if value == [] || |value| > MAX_SEGMENT_LENGTH then Err(Invalid(field))
    else if !AllSegmentChars(value) then Err(Invalid(field))
    else Ok(())
  }

  /** An accepted value never holds a '/', so it cannot add a level to the
      path it is spliced into. */
  lemma SegmentHasNoSlash(value: string, field: string)
    requires AssertPathSegmentAsWritten(value, field).Ok?
    ensures forall i :: 0 <= i < |value| ==> value[i] != '/'
  {
  }

  /** The character class admits the dot segments "." and "..", which a URL
      resolver removes together with the level before them (section 5.2.4 of
      RFC 3986): owner ".." turns `/api/github/repos/../r/pulls` into
      `/api/github/r/pulls`. */
  lemma DotSegmentAccepted(field: string)
    ensures AssertPathSegmentAsWritten("..", field).Ok?
    ensures AssertPathSegmentAsWritten(".", field).Ok?
  {
  }

  predicate IsDotSegment(s: string) {
    s == "." || s == ".."
  }

  /** The check the guard is for: a non-empty run of the allowed characters
      that is not a dot segment either. */
  function AssertPathSegment(value: string, field: string): (r: Result<(), string>)
    ensures r.Err? ==> r.error == Invalid(field)
    ensures r.Ok? ==> AssertPathSegmentAsWritten(value, field).Ok?
    ensures r.Ok? <==> AssertPathSegmentAsWritten(value, field).Ok? && !IsDotSegment(value)
  {
    if AssertPathSegmentAsWritten(value, field).Err? || IsDotSegment(value) then Err(Invalid(field))
    else Ok(())
  }

  /** Spliced between two '/', an accepted segment stays exactly one path
      level that no resolver rewrites: it holds no '/' and is neither "."
      nor "..". */
  lemma SegmentIsOneLevel(value: string, field: string)
    requires AssertPathSegment(value, field).Ok?
    ensures forall i :: 0 <= i < |value| ==> value[i] != '/'
    ensures value != "." && value != ".."
  {
  }

  // ---------------------------------------------------------------------
  // assertBranchName
  // ---------------------------------------------------------------------

  const MAX_BRANCH_LENGTH: nat := 255

  /** `assertBranchName`: the trimmed value, which must be non-empty, at most
      255 characters and free of whitespace. */
  function AssertBranchName(value: string, field: string): (r: Result<string, string>)
    ensures r.Err? ==> r.error == Invalid(field)
    ensures r.Ok? ==> r.value == Trim(value)
    ensures r.Ok? <==> (var t := Trim(value); t != [] && |t| <= MAX_BRANCH_LENGTH && !HasWhitespace(t))
  {
    var trimmed := Trim(value);
    if trimmed == [] || |trimmed| > MAX_BRANCH_LENGTH || HasWhitespace(trimmed) then Err(Invalid(field))
    else Ok(trimmed)
  }

  /** What the guard returns is a non-empty, whitespace-free name of at most
      255 characters, and validating it again returns it unchanged. */
  lemma BranchNameStable(value: string, field: string, field': string)
    requires AssertBranchName(value, field).Ok?
    ensures var name := AssertBranchName(value, field).value;
      && name != [] && |name| <= MAX_BRANCH_LENGTH
      && (forall i :: 0 <= i < |name| ==> !IsWhitespace(name[i]))
      && AssertBranchName(name, field') == Ok(name)
  {
    var name := Trim(value);
    TrimIdempotent(value);
  }

  // ---------------------------------------------------------------------
  // safePagination
  // ---------------------------------------------------------------------

  datatype Page = Page(limit: int, offset: int)

  /** `safePagination`: the limit clamped into [1, maxLimit] and the offset
      raised to 0. */
  function SafePagination(limit: int, offset: int, maxLimit: int): (p: Page)
    ensures p.limit >= 1 && p.offset >= 0
    ensures maxLimit >= 1 ==> p.limit <= maxLimit
    ensures maxLimit >= 1 && 1 <= limit <= maxLimit ==> p.limit == limit
    ensures offset >= 0 ==> p.offset == offset
  {
    Page(Max(1, Min(limit, maxLimit)), Max(0, offset))
  }

  function Min(a: int, b: int): int {
    if a <= b then a else b
  }

  function Max(a: int, b: int): int {
    if a >= b then a else b
  }

  function Distance(a: int, b: int): nat {
    if a <= b then b - a else a - b
  }

  /** The clamped limit is the allowed value nearest to the one asked for,
      and the clamped offset the nearest non-negative one. */
  lemma PaginationNearest(limit: int, offset: int, maxLimit: int, l: int, o: int)
    requires maxLimit >= 1 && 1 <= l <= maxLimit && o >= 0
    ensures Distance(SafePagination(limit, offset, maxLimit).limit, limit) <= Distance(l, limit)
    ensures Distance(SafePagination(limit, offset, maxLimit).offset, offset) <= Distance(o, offset)
  {
  }

  /** Clamping a clamped page changes nothing. */
  lemma PaginationIdempotent(limit: int, offset: int, maxLimit: int)
    requires maxLimit >= 1
    ensures var p := SafePagination(limit, offset, maxLimit);
      SafePagination(p.limit, p.offset, maxLimit) == p
  {
  }

  // ---------------------------------------------------------------------
  // The message of a failed response
  // ---------------------------------------------------------------------

  /** A parsed JSON value, as far as the message extraction looks into it. */
  datatype Json = JString(s: string) | JObject(fields: map<string, Json>) | JNull | JOther

  /** The response body: parsed, or not JSON at all. */
  datatype Body = Parsed(json: Json) | Unparsable

  const REQUEST_FAILED: string := "Request failed"

  /** The body `apiFetch` goes on with: an unparsable one is replaced by
      `{ error: "Request failed" }`. */
  function BodyOrFallback(body: Body): Json {
    match body
    case Parsed(json) => json
    case Unparsable => JObject(map["error" := JString(REQUEST_FAILED)])
  }

  /** `isErrorObj`. */
  predicate IsErrorObject(json: Json) {
    json.JObject? && "error" in json.fields && json.fields["error"].JString?
  }

  /** The message a failed response is reported with: the body's `error`
      when it is a string, "Request failed" otherwise. */
  function FailureMessage(body: Body): (m: string)
    ensures body.Parsed? && IsErrorObject(body.json) ==> m == body.json.fields["error"].s
    ensures body.Parsed? && !IsErrorObject(body.json) ==> m == REQUEST_FAILED
    ensures body.Unparsable? ==> m == REQUEST_FAILED
  {
    var json := BodyOrFallback(body);
    if IsErrorObject(json) then json.fields["error"].s else REQUEST_FAILED
  }

  /** A failed response becomes an `ApiError` with the response's own
      status. */
  function FailedResponse(status: int, body: Body): (e: Thrown)
    ensures e.ApiError? && e.status == status && e.message == FailureMessage(body)
  {
    ApiError(status, FailureMessage(body))
  }

  /** An unparsable body reads the same as a body that names no error. */
  lemma UnparsableLikeNoError(json: Json)
    requires !IsErrorObject(json)
    ensures FailureMessage(Unparsable) == FailureMessage(Parsed(json))
  {
  }

  // ---------------------------------------------------------------------
  // Offices and pull requests
  // ---------------------------------------------------------------------

  /** `createOffice`: the trimmed name, which must not be empty. */
  function OfficeName(name: string): (r: Result<string, string>)
    ensures r.Ok? <==> !AllWhitespace(name)
    ensures r.Ok? ==> r.value == Trim(name) && r.value != []
    ensures r.Err? ==> r.error == "Invalid office name"
  {
    TrimEmptyIff(name);
    var trimmed := Trim(name);
    if |trimmed| == 0 then Err("Invalid office name") else Ok(trimmed)
  }

  /** `getGithubPullRequestDetail`'s checks, in order: owner, repository
      name, then a positive pull number. */
  function CheckPullRequestDetail(owner: string, repo: string, pullNumber: int): (r: Result<(), string>)
    ensures r.Ok? <==>
      (AssertPathSegmentAsWritten(owner, "repository owner").Ok? && AssertPathSegmentAsWritten(repo, "repository name").Ok? && pullNumber > 0)
    ensures AssertPathSegmentAsWritten(owner, "repository owner").Err? ==> r == Err(Invalid("repository owner"))
    ensures AssertPathSegmentAsWritten(owner, "repository owner").Ok? && AssertPathSegmentAsWritten(repo, "repository name").Err?
      ==> r == Err(Invalid("repository name"))
    ensures (AssertPathSegmentAsWritten(owner, "repository owner").Ok? && AssertPathSegmentAsWritten(repo, "repository name").Ok?
      && pullNumber <= 0) ==> r == Err("Invalid pull request number")
  {
    if AssertPathSegmentAsWritten(owner, "repository owner").Err? then Err(Invalid("repository owner"))
    else if AssertPathSegmentAsWritten(repo, "repository name").Err? then Err(Invalid("repository name"))
    else if pullNumber <= 0 then Err("Invalid pull request number")
    else Ok(())
  }

  /** The JSON body `createGithubPullRequest` sends. */
  datatype PullRequestInput = PullRequestInput(title: string, head: string, base: string, body: Option<string>)

  const MAX_TITLE_LENGTH: nat := 255

  /** `input.body?.trim()` sent only when non-empty. */
  function PullRequestBody(body: Option<string>): (r: Option<string>)
    ensures r.Some? <==> body.Some? && !AllWhitespace(body.value)
    ensures r.Some? ==> r.value == Trim(body.value) && r.value != []
  {
    if body.None? then None
    else
      TrimEmptyIff(body.value);
      var trimmed := Trim(body.value);
      if |trimmed| > 0 then Some(trimmed) else None
  }

  /** `createGithubPullRequest`'s checks, in order (owner, repository
      name, title, head, base), and the body it then sends. */
  function PreparePullRequest(
    owner: string, repo: string, title: string, head: string, base: string, body: Option<string>): (r: Result<PullRequestInput, string>)
    ensures r.Ok? <==>
      && AssertPathSegmentAsWritten(owner, "repository owner").Ok?
      && AssertPathSegmentAsWritten(repo, "repository name").Ok?
      && 0 < |Trim(title)| <= MAX_TITLE_LENGTH
      && AssertBranchName(head, "head branch").Ok?
      && AssertBranchName(base, "base branch").Ok?
    ensures r.Ok? ==>
      && r.value.title == Trim(title)
      && r.value.head == Trim(head)
      && r.value.base == Trim(base)
      && r.value.body == PullRequestBody(body)
    ensures (AssertPathSegmentAsWritten(owner, "repository owner").Ok? && AssertPathSegmentAsWritten(repo, "repository name").Ok?
      && !(0 < |Trim(title)| <= MAX_TITLE_LENGTH)) ==> r == Err("Invalid pull request title")
  {
    if AssertPathSegmentAsWritten(owner, "repository owner").Err? then Err(Invalid("repository owner"))
    else if AssertPathSegmentAsWritten(repo, "repository name").Err? then Err(Invalid("repository name"))
    else
      var t := Trim(title);
      if t == [] || |t| > MAX_TITLE_LENGTH then Err("Invalid pull request title")
      else
        match AssertBranchName(head, "head branch")
        case Err(e) => Err(e)
        case Ok(h) =>
          match AssertBranchName(base, "base branch")
          case Err(e) => Err(e)
          case Ok(b) => Ok(PullRequestInput(t, h, b, PullRequestBody(body)))
  }

  /** Whatever was typed, a pull request that is sent has a non-blank title
      of at most 255 characters, two clean branch names and no blank body. */
  lemma PullRequestSent(owner: string, repo: string, title: string, head: string, base: string, body: Option<string>)
    requires PreparePullRequest(owner, repo, title, head, base, body).Ok?
    ensures var p := PreparePullRequest(owner, repo, title, head, base, body).value;
      && p.title != [] && |p.title| <= MAX_TITLE_LENGTH
      && !IsWhitespace(p.title[0]) && !IsWhitespace(p.title[|p.title| - 1])
      && AssertBranchName(p.head, "head branch") == Ok(p.head)
      && AssertBranchName(p.base, "base branch") == Ok(p.base)
      && (p.body.Some? ==> p.body.value != [])
  {
    BranchNameStable(head, "head branch", "head branch");
    BranchNameStable(base, "base branch", "base branch");
  }

  /** The pull-request calls use the guard as written, so owner ".." reaches
      the request path, which the corrected guard would refuse. */
  lemma DotOwnerReachesRequest(repo: string, pullNumber: int)
    requires AssertPathSegmentAsWritten(repo, "repository name").Ok? && pullNumber > 0
    ensures CheckPullRequestDetail("..", repo, pullNumber).Ok?
    ensures AssertPathSegment("..", "repository owner").Err?
  {
    DotSegmentAccepted("repository owner");
  }

  // ---------------------------------------------------------------------
  // toUiMessages
  // ---------------------------------------------------------------------

  /** A stored conversation message as the worker returns it. */
  datatype ConversationMessage = ConversationMessage(
    id: string, conversationId: string, role: string, content: string,
    model: Option<string>, tokensIn: Option<int>, tokensOut: Option<int>, createdAt: string)

  /** `toUiMessages`. */
  function ToUiMessages(messages: seq<ConversationMessage>): (ui: seq<UiMessage>)
    ensures |ui| == |messages|
  {
    seq(|messages|, i requires 0 <= i < |messages| =>
      UiMessage(messages[i].id, messages[i].role, [TextPart(messages[i].content)]))
  }

  /** The text a UI message shows: its first text part, or "" without one. */
  function FirstText(parts: seq<UiPart>): string {
    if parts == [] then ""
    else if parts[0].TextPart? then parts[0].text
    else FirstText(parts[1..])
  }

  /** Nothing is lost or reordered: each UI message has the stored id and
      role, and shows exactly the stored content. */
  lemma UiMessagesFaithful(messages: seq<ConversationMessage>)
    ensures forall i :: 0 <= i < |messages| ==>
      && ToUiMessages(messages)[i].id == messages[i].id
      && ToUiMessages(messages)[i].role == messages[i].role
      && FirstText(ToUiMessages(messages)[i].parts) == messages[i].content
      && |ToUiMessages(messages)[i].parts| == 1
  {
  }

  /** Converting a concatenation converts each part. */
  lemma UiMessagesAppend(a: seq<ConversationMessage>, b: seq<ConversationMessage>)
    ensures ToUiMessages(a + b) == ToUiMessages(a) + ToUiMessages(b)
  {
  }
}
