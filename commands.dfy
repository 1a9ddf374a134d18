/** The desktop app's database commands: their input checks, the id they
    give new rows and the error text the front end sees. Rust measures a
    `String` by `len()`, its UTF-8 byte count, so the limits are in bytes.
    The pool, the clock and each SQL statement's answer are parameters. */
module DesktopCommands {
  import opened Wrappers

  // ---------------------------------------------------------------------
  // Byte lengths
  // ---------------------------------------------------------------------

  /** The number of UTF-8 bytes that encode `c`. */
  function Utf8Width(c: char): (w: nat)
    ensures 1 <= w <= 4
    ensures w == 1 <==> c as int < 0x80
  {
    if c as int < 0x80 then 1
    else if c as int < 0x800 then 2
    else if c as int < 0x1_0000 then 3
    else 4
  }

  /** `String::len`: the UTF-8 byte length. */
  function Utf8Len(s: string): nat {
    if s == [] then 0 else Utf8Len(s[..|s| - 1]) + Utf8Width(s[|s| - 1])
  }

  /** A string takes at least one byte and at most four per character. */
  lemma {:induction false} Utf8LenBounds(s: string)
    ensures |s| <= Utf8Len(s) <= 4 * |s|
  {
    if s != [] {
      Utf8LenBounds(s[..|s| - 1]);
    }
  }

  /** The byte length is exactly the character count iff the text is
      ASCII. */
  lemma {:induction false} Utf8LenAscii(s: string)
    ensures Utf8Len(s) == |s| <==> forall i :: 0 <= i < |s| ==> s[i] as int < 0x80
  {
    if s != [] {
      var init := s[..|s| - 1];
      Utf8LenAscii(init);
      Utf8LenBounds(init);
      assert forall i :: 0 <= i < |init| ==> init[i] == s[i];
    }
  }

  // ---------------------------------------------------------------------
  // Limits and messages
  // ---------------------------------------------------------------------

  const MAX_TITLE_LENGTH: nat := 500
  const MAX_CONTENT_LENGTH: nat := 100_000
  const MAX_MODEL_LENGTH: nat := 100

  const DEFAULT_TITLE: string := "New Conversation"
  const TITLE_TOO_LONG: string := "Title exceeds maximum length of 500 characters"
  const INVALID_ROLE: string := "Invalid role: must be 'user', 'assistant', or 'system'"
  const CONTENT_TOO_LONG: string := "Content exceeds maximum length of 100000 characters"
  const MODEL_TOO_LONG: string := "Model name exceeds maximum length of 100 characters"
  const TOKENS_IN_NEGATIVE: string := "tokens_in must be non-negative"
  const TOKENS_OUT_NEGATIVE: string := "tokens_out must be non-negative"
  const NO_DATABASE: string := "Database not initialized"
  const OPERATION_FAILED: string := "Operation failed"

  // ---------------------------------------------------------------------
  // sanitize_db_error
  // ---------------------------------------------------------------------

  /** A failure reported by the database driver, with its own details. */
  datatype DbError = DbError(detail: string)

  /** `sanitize_db_error`: whatever the failure, the front end gets the
      fixed text. */
  function SanitizeDbError(e: DbError): (m: string)
    ensures m == OPERATION_FAILED
  {
    OPERATION_FAILED
  }

  /** No detail of a database failure reaches the front end: any two
      failures read the same. */
  lemma SanitizeHidesDetail(e1: DbError, e2: DbError)
    ensures SanitizeDbError(e1) == SanitizeDbError(e2)
  {
  }

  // ---------------------------------------------------------------------
  // gen_id
  // ---------------------------------------------------------------------

  const COUNTER_MODULUS: nat := 0x1_0000_0000

  function HexDigit(d: nat): char
    requires d < 16
  {
    "0123456789abcdef"[d]
  }

  /** The digit a lower-case hex character stands for. */
  function HexValue(c: char): nat {
    if '0' <= c <= '9' then (c as int - '0' as int) as nat
    else if 'a' <= c <= 'f' then (c as int - 'a' as int + 10) as nat
    else 0
  }

  /** `format!("{:x}", n)`: lower-case hex, no leading zeros. */
  function Hex(n: nat): (r: string)
    ensures r != []
    ensures n < 16 <==> |r| == 1
  {
    if n < 16 then [HexDigit(n)] else Hex(n / 16) + [HexDigit(n % 16)]
  }

  /** Reads hex text back into its number. */
  function FromHex(s: string): nat {
    if s == [] then 0 else FromHex(s[..|s| - 1]) * 16 + HexValue(s[|s| - 1])
  }

  lemma {:induction false} HexRoundTrip(n: nat)
    ensures FromHex(Hex(n)) == n
  {
    if n >= 16 {
      HexRoundTrip(n / 16);
      var r := Hex(n);
      assert r[..|r| - 1] == Hex(n / 16);
      assert HexValue(HexDigit(n % 16)) == n % 16 by {
        var d := n % 16;
        assert "0123456789abcdef"[d] as int == if d < 10 then '0' as int + d else 'a' as int + d - 10;
      }
    } else {
      assert HexValue(HexDigit(n)) == n by {
        assert "0123456789abcdef"[n] as int == if n < 10 then '0' as int + n else 'a' as int + n - 10;
      }
    }
  }

  /** The text of an id: the timestamp's hex and then the counter's. */
  function IdText(nanos: nat, counter: nat): string {
    Hex(nanos) + Hex(counter)
  }

  /** Two ids whose timestamps have the same number of hex digits are
      equal only when both timestamp and counter are. The plain
      concatenation needs that condition: `IdText(0x1, 0x23)` and
      `IdText(0x12, 0x3)` are both "123". */
  lemma IdTextInjective(nanos1: nat, counter1: nat, nanos2: nat, counter2: nat)
    requires |Hex(nanos1)| == |Hex(nanos2)|
    ensures IdText(nanos1, counter1) == IdText(nanos2, counter2) <==> nanos1 == nanos2 && counter1 == counter2
  {
    if IdText(nanos1, counter1) == IdText(nanos2, counter2) {
      var id, k := IdText(nanos1, counter1), |Hex(nanos1)|;
      assert Hex(nanos1) == id[..k] == Hex(nanos2);
      assert Hex(counter1) == id[k..] == Hex(counter2);
      HexRoundTrip(nanos1);
      HexRoundTrip(nanos2);
      HexRoundTrip(counter1);
      HexRoundTrip(counter2);
    }
  }

  lemma IdTextAmbiguous()
    ensures IdText(0x1, 0x23) == IdText(0x12, 0x3)
  {
  }

  /** The static `COUNTER` of `gen_id`, an `AtomicU32`. */
  class IdSource {
    var counter: nat

    predicate Valid()
      reads this
    {
      counter < COUNTER_MODULUS
    }

    constructor()
      ensures Valid() && counter == 0
    {
      counter := 0;
    }

    /** `gen_id`, at time `nanos` since the epoch: the counter's value
        before the call goes into the id, and the counter moves on,
        wrapping after 2^32 calls. */
    method GenId(nanos: nat) returns (id: string)
      requires Valid()
      modifies this
      ensures Valid()
      ensures id == IdText(nanos, old(counter))
      ensures counter == (old(counter) + 1) % COUNTER_MODULUS
    {
      id := Hex(nanos) + Hex(counter);
      counter := (counter + 1) % COUNTER_MODULUS;
    }
  }

  /** Two ids taken in a row at the same nanosecond differ. */
  method TwoIdsSameInstant(ids: IdSource, nanos: nat) returns (a: string, b: string)
    requires ids.Valid()
    modifies ids
    ensures a != b
  {
    a := ids.GenId(nanos);
    b := ids.GenId(nanos);
    IdTextInjective(nanos, old(ids.counter), nanos, (old(ids.counter) + 1) % COUNTER_MODULUS);
  }

  // ---------------------------------------------------------------------
  // Checks
  // ---------------------------------------------------------------------

  /** The title check shared by create and update. */
  function CheckTitle(title: string): (r: Result<string, string>)
    ensures r.Ok? <==> Utf8Len(title) <= MAX_TITLE_LENGTH
    ensures r.Ok? ==> r.value == title
    ensures r.Err? ==> r.error == TITLE_TOO_LONG
  {
    if Utf8Len(title) > MAX_TITLE_LENGTH then Err(TITLE_TOO_LONG) else Ok(title)
  }

  /** Any title of at most 125 characters fits, whatever its script. */
  lemma ShortTitlesFit(title: string)
    requires |title| <= 125
    ensures CheckTitle(title).Ok?
  {
    Utf8LenBounds(title);
  }

  predicate IsRole(role: string) {
    role == "user" || role == "assistant" || role == "system"
  }

  /** The checks `save_message` makes before anything else, in order;
      the first that fails names the error. */
  function ValidateMessage(role: string, content: string, model: Option<string>,
                           tokensIn: Option<int>, tokensOut: Option<int>): (r: Result<(), string>)
    ensures r.Ok? <==> (
      && IsRole(role)
      && Utf8Len(content) <= MAX_CONTENT_LENGTH
      && (model.Some? ==> Utf8Len(model.value) <= MAX_MODEL_LENGTH)
      && (tokensIn.Some? ==> tokensIn.value >= 0)
      && (tokensOut.Some? ==> tokensOut.value >= 0))
    ensures !IsRole(role) ==> r == Err(INVALID_ROLE)
    ensures IsRole(role) && Utf8Len(content) > MAX_CONTENT_LENGTH ==> r == Err(CONTENT_TOO_LONG)
    ensures r == Err(TOKENS_OUT_NEGATIVE) <==> (
      && IsRole(role)
      && Utf8Len(content) <= MAX_CONTENT_LENGTH
      && (model.Some? ==> Utf8Len(model.value) <= MAX_MODEL_LENGTH)
      && (tokensIn.Some? ==> tokensIn.value >= 0)
      && tokensOut.Some? && tokensOut.value < 0)
  {
    if !IsRole(role) then Err(INVALID_ROLE)
    else if Utf8Len(content) > MAX_CONTENT_LENGTH then Err(CONTENT_TOO_LONG)
    else if model.Some? && Utf8Len(model.value) > MAX_MODEL_LENGTH then Err(MODEL_TOO_LONG)
    else if tokensIn.Some? && tokensIn.value < 0 then Err(TOKENS_IN_NEGATIVE)
    else if tokensOut.Some? && tokensOut.value < 0 then Err(TOKENS_OUT_NEGATIVE)
    else Ok(())
  }

  // ---------------------------------------------------------------------
  // Commands
  // ---------------------------------------------------------------------

  datatype Conversation = Conversation(id: string, title: string, createdAt: string, updatedAt: string)

  datatype Message = Message(id: string, conversationId: string, role: string, content: string,
                             model: Option<string>, tokensIn: Option<int>, tokensOut: Option<int>,
                             createdAt: string)

  /** The timestamps a row is given by the database. */
  datatype Stamps = Stamps(createdAt: string, updatedAt: string)

  /** `create_conversation`. The pool is looked up and an id taken before
      the title is checked, so a title that is too long still uses up a
      counter value. `insert` is the answer of the INSERT. */
  method CreateConversation(ids: IdSource, poolReady: bool, nanos: nat, title: Option<string>,
                            insert: Result<Stamps, DbError>) returns (r: Result<Conversation, string>)
    requires ids.Valid()
    modifies ids
    ensures ids.Valid()
    ensures !poolReady ==> r == Err(NO_DATABASE) && ids.counter == old(ids.counter)
    ensures poolReady ==> ids.counter == (old(ids.counter) + 1) % COUNTER_MODULUS
    ensures poolReady && CheckTitle(title.GetOr(DEFAULT_TITLE)).Err? ==> r == Err(TITLE_TOO_LONG)
    ensures poolReady && CheckTitle(title.GetOr(DEFAULT_TITLE)).Ok? && insert.Err? ==> r == Err(OPERATION_FAILED)
    ensures poolReady && CheckTitle(title.GetOr(DEFAULT_TITLE)).Ok? && insert.Ok? ==>
      r == Ok(Conversation(IdText(nanos, old(ids.counter)), title.GetOr(DEFAULT_TITLE),
                           insert.value.createdAt, insert.value.updatedAt))
  {
    if !poolReady {
      return Err(NO_DATABASE);
    }
    var id := ids.GenId(nanos);
    var checked := CheckTitle(title.GetOr(DEFAULT_TITLE));
    if checked.Err? {
      return Err(checked.error);
    }
    match insert {
      case Err(e) =>
        r := Err(SanitizeDbError(e));
      case Ok(stamps) =>
        r := Ok(Conversation(id, checked.value, stamps.createdAt, stamps.updatedAt));
    }
  }

  /** The default title is accepted. */
  lemma DefaultTitleFits()
    ensures CheckTitle(DEFAULT_TITLE).Ok?
  {
    ShortTitlesFit(DEFAULT_TITLE);
  }

  /** `update_conversation_title`: the title is checked before the pool is
      looked up. `update` is the answer of the UPDATE. */
  function UpdateConversationTitle(poolReady: bool, title: string, update: Option<DbError>): (r: Result<(), string>)
    ensures CheckTitle(title).Err? ==> r == Err(TITLE_TOO_LONG)
    ensures CheckTitle(title).Ok? && !poolReady ==> r == Err(NO_DATABASE)
    ensures r.Ok? <==> CheckTitle(title).Ok? && poolReady && update.None?
  {
    if CheckTitle(title).Err? then Err(TITLE_TOO_LONG)
    else if !poolReady then Err(NO_DATABASE)
    else if update.Some? then Err(SanitizeDbError(update.value))
    else Ok(())
  }

  /** `save_message`. Every check runs before the pool is looked up and
      before an id is taken: a rejected message changes nothing, with or
      without a database. `transaction` is the answer of the transaction
      that touches the conversation and inserts the row. */
  method SaveMessage(ids: IdSource, poolReady: bool, nanos: nat, conversationId: string, role: string,
                     content: string, model: Option<string>, tokensIn: Option<int>, tokensOut: Option<int>,
                     transaction: Result<string, DbError>) returns (r: Result<Message, string>)
    requires ids.Valid()
    modifies ids
    ensures ids.Valid()
    ensures ValidateMessage(role, content, model, tokensIn, tokensOut).Err? ==> (
      && r == Err(ValidateMessage(role, content, model, tokensIn, tokensOut).error)
      && ids.counter == old(ids.counter))
    ensures ValidateMessage(role, content, model, tokensIn, tokensOut).Ok? && !poolReady ==> (
      && r == Err(NO_DATABASE)
      && ids.counter == old(ids.counter))
    ensures ValidateMessage(role, content, model, tokensIn, tokensOut).Ok? && poolReady ==> (
      && ids.counter == (old(ids.counter) + 1) % COUNTER_MODULUS
      && r == match transaction
              case Err(e) => Err(SanitizeDbError(e))
              case Ok(createdAt) => Ok(Message(IdText(nanos, old(ids.counter)), conversationId, role, content,
                                               model, tokensIn, tokensOut, createdAt)))
  {
    var valid := ValidateMessage(role, content, model, tokensIn, tokensOut);
    if valid.Err? {
      return Err(valid.error);
    }
    if !poolReady {
      return Err(NO_DATABASE);
    }
    var id := ids.GenId(nanos);
    match transaction {
      case Err(e) =>
        r := Err(SanitizeDbError(e));
      case Ok(createdAt) =>
        r := Ok(Message(id, conversationId, role, content, model, tokensIn, tokensOut, createdAt));
    }
  }

  /** A saved message holds one of the three roles, a content within the
      byte limit and no negative token count. */
  method SavedMessagesAreValid(ids: IdSource, poolReady: bool, nanos: nat, conversationId: string, role: string,
                               content: string, model: Option<string>, tokensIn: Option<int>, tokensOut: Option<int>,
                               transaction: Result<string, DbError>) returns (m: Option<Message>)
    requires ids.Valid()
    modifies ids
    ensures m.Some? ==> IsRole(m.value.role) && Utf8Len(m.value.content) <= MAX_CONTENT_LENGTH
    ensures m.Some? && m.value.tokensIn.Some? ==> m.value.tokensIn.value >= 0
    ensures m.Some? && m.value.tokensOut.Some? ==> m.value.tokensOut.value >= 0
    ensures m.Some? <==> ValidateMessage(role, content, model, tokensIn, tokensOut).Ok? && poolReady && transaction.Ok?
  {
    var r := SaveMessage(ids, poolReady, nanos, conversationId, role, content, model, tokensIn, tokensOut, transaction);
    m := if r.Ok? then Some(r.value) else None;
  }
}
