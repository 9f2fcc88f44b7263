/**
 * The chat router's three procedures, `list`, `sendMessage` and `clearChat`,
 * over the persistence accessor and the message table. Each procedure takes the
 * outcomes of the foreign calls it makes (client construction, store calls, the
 * generative-language request) as inputs, and the ghost `effects` log records the
 * outward calls in the order the procedure makes them.
 */
module ChatRouter {
  import opened Wrappers
  import opened Text
  import opened Config
  import opened Persistence
  import opened Messages
  import opened Replies

  /** `1 <= text.length <= 4000`, the input schema of `sendMessage`. */
  const MaxTextLength := 4000

  /** 1900-01-01T00:00:00Z in milliseconds: the lower bound of `clearChat`'s delete. */
  const EpochFloor := -2208988800000

  const FailedToClear := "Failed to clear chat"

  predicate ValidText(text: string) {
    1 <= |text| <= MaxTextLength
  }

  /** The response of `sendMessage`: a validation error or `{ success, reply }`. */
  datatype SendResult = Rejected | Sent(success: bool, reply: string)

  /** `{ success }` or `{ success: false, error }`. */
  datatype ClearResult = ClearResult(success: bool, error: Option<string>)

  /** An outward call, as observed from outside the process. */
  datatype Effect =
    | StoreSelect
    | StoreInsert(draft: Draft)
    | StoreDelete(floor: int)
    | UpstreamRequest(prompt: string)

  /** The response of `sendMessage` for this input, key and upstream outcome. */
  function SendResponse(text: string, apiKey: string, upstream: Upstream): (r: SendResult)
    ensures r == Rejected <==> !(1 <= |text| <= 4000)
    ensures r.Sent? ==> r.success && r.reply != "" && r.reply == SelectReply(apiKey, upstream)
  {
    if ValidText(text) then Sent(true, SelectReply(apiKey, upstream)) else Rejected
  }

  /** The result of `list` given whether a handle was obtained and what the query did. */
  function ListResult(connected: bool, query: QueryOutcome): (msgs: seq<Message>)
    ensures !connected || query == QueryErrored || query == QueryThrew ==> msgs == []
    ensures connected && query.Returned? && query.data.Some? ==> msgs == query.data.value
    ensures connected && query == Returned(None) ==> msgs == []
  {
    if !connected then []
    else match query
      case Returned(data) => data.GetOr([])
      case QueryErrored => []
      case QueryThrew => []
  }

  /** The result of `clearChat` given whether a handle was obtained and what the delete did. */
  function ClearResultFor(connected: bool, delete: StoreOutcome): (r: ClearResult)
    ensures r.success <==> !connected || delete == Done
    ensures r.success ==> r.error == None
    ensures !r.success ==> r.error == Some(FailedToClear)
  {
    if !connected then ClearResult(true, None)
    else match delete
      case Done => ClearResult(true, None)
      case Errored => ClearResult(false, Some(FailedToClear))
      case Threw => ClearResult(false, Some(FailedToClear))
  }

  /** The row `sendMessage` writes for a text; both the user's and the AI's rows have this shape. */
  function TextDraft(text: string, createdAt: int, userId: Option<string>): Draft {
    Draft(text, "text", createdAt, userId)
  }

  /** The effects of an accepted `sendMessage`: user insert, request (with a key), AI insert. */
  function SendEffects(connected: bool, hasKey: bool, user: Draft, ai: Draft): (es: seq<Effect>)
    ensures |es| == (if connected then 2 else 0) + (if hasKey then 1 else 0)
    ensures connected ==> es[0] == StoreInsert(user) && es[|es| - 1] == StoreInsert(ai)
    ensures hasKey ==> es[if connected then 1 else 0] == UpstreamRequest(user.text)
    ensures forall i :: 0 <= i < |es| && es[i].UpstreamRequest? ==> hasKey && es[i].prompt == user.text
  {
    (if connected then [StoreInsert(user)] else [])
    + (if hasKey then [UpstreamRequest(user.text)] else [])
    + (if connected then [StoreInsert(ai)] else [])
  }

  /**
   * The rows that reach the table: the user's text and then the reply, each of
   * type "text" with the caller's user id, for each insert that was attempted and
   * accepted.
   */
  function Stored(connected: bool, userId: Option<string>,
                  text: string, userAt: int, userWrite: StoreOutcome,
                  reply: string, replyAt: int, replyWrite: StoreOutcome): (ds: seq<Draft>)
    ensures |ds| == (if connected && userWrite == Done then 1 else 0) + (if connected && replyWrite == Done then 1 else 0)
    ensures forall i :: 0 <= i < |ds| ==> ds[i].kind == "text" && ds[i].userId == userId
    ensures connected && userWrite == Done ==> ds[0].text == text && ds[0].createdAt == userAt
    ensures connected && replyWrite == Done ==> ds[|ds| - 1].text == reply && ds[|ds| - 1].createdAt == replyAt
  {
    (if connected && userWrite == Done then [TextDraft(text, userAt, userId)] else [])
    + (if connected && replyWrite == Done then [TextDraft(reply, replyAt, userId)] else [])
  }

  lemma {:induction false} DraftsAppendRow(rows: seq<Row>, row: Row)
    ensures Drafts(rows + [row]) == Drafts(rows) + [row.draft]
  {
    if rows != [] {
      assert (rows + [row])[1..] == rows[1..] + [row];
      DraftsAppendRow(rows[1..], row);
    }
  }

  /** Gluing the three steps of `sendMessage` into its whole effect log. */
  lemma SequencedEffects(e0: seq<Effect>, e1: seq<Effect>, e2: seq<Effect>, e3: seq<Effect>,
                         connected: bool, hasKey: bool, user: Draft, ai: Draft)
    requires e1 == e0 + if connected then [StoreInsert(user)] else []
    requires e2 == e1 + if hasKey then [UpstreamRequest(user.text)] else []
    requires e3 == e2 + if connected then [StoreInsert(ai)] else []
    ensures e3 == e0 + SendEffects(connected, hasKey, user, ai)
  {
  }

  /** Gluing the two best-effort inserts of `sendMessage` into the rows it adds. */
  lemma SequencedWrites(d0: seq<Draft>, d1: seq<Draft>, d2: seq<Draft>, connected: bool, userId: Option<string>,
                        text: string, userAt: int, userWrite: StoreOutcome,
                        reply: string, replyAt: int, replyWrite: StoreOutcome)
    requires d1 == d0 + if connected && userWrite == Done then [TextDraft(text, userAt, userId)] else []
    requires d2 == d1 + if connected && replyWrite == Done then [TextDraft(reply, replyAt, userId)] else []
    ensures d2 == d0 + Stored(connected, userId, text, userAt, userWrite, reply, replyAt, replyWrite)
  {
  }

  class Router {
    const accessor: Accessor
    const table: MessageTable
    ghost var effects: seq<Effect>

    ghost predicate Valid()
      reads this, table
    {
      table.Valid()
    }

    constructor (accessor: Accessor, table: MessageTable)
      requires table.Valid()
      ensures Valid() && this.accessor == accessor && this.table == table && effects == []
    {
      this.accessor := accessor;
      this.table := table;
      effects := [];
    }

    /**
     * `if (supabase) { try { insert } catch { } }`: one insert when a handle is at
     * hand, recorded in the effect log; its failure, reported or thrown, is swallowed.
     */
    method InsertBestEffort(connected: bool, d: Draft, outcome: StoreOutcome)
      requires Valid()
      modifies this, table
      ensures Valid()
      ensures effects == old(effects) + if connected then [StoreInsert(d)] else []
      ensures Extends(old(table.rows), table.rows)
      ensures Drafts(table.rows) == Drafts(old(table.rows)) + if connected && outcome == Done then [d] else []
    {
      if connected {
        effects := effects + [StoreInsert(d)];
        var ok := table.Insert(d, outcome);
        DraftsAppendRow(old(table.rows), Row(old(table.nextId), d));
      }
    }

    /**
     * Reply generation: one request to the generative-language API when a key is
     * configured, and the reply chosen from its outcome.
     */
    method GenerateReply(text: string, apiKey: string, upstream: Upstream) returns (reply: string)
      modifies this
      ensures reply == SelectReply(apiKey, upstream) && reply != ""
      ensures effects == old(effects) + if apiKey != "" then [UpstreamRequest(text)] else []
    {
      if apiKey != "" {
        effects := effects + [UpstreamRequest(text)];
      }
      reply := SelectReply(apiKey, upstream);
    }

    /** `chat.list`. */
    method List(construction: Construction, query: QueryOutcome) returns (msgs: seq<Message>)
      requires Valid()
      modifies this, accessor
      ensures Valid() && unchanged(table)
      ensures accessor.Settled(old(accessor.cachedClient), construction)
      ensures msgs == ListResult(accessor.cachedClient.Some?, query)
      ensures effects == old(effects) + if accessor.cachedClient.Some? then [StoreSelect] else []
    {
      var handle := accessor.GetSupabase(construction);
      if handle == None {
        return [];
      }
      effects := effects + [StoreSelect];
      match query
      case Returned(data) =>
        msgs := data.GetOr([]);
      case QueryErrored =>
        msgs := [];
      case QueryThrew =>
        msgs := [];
    }

    /**
     * `chat.sendMessage`: validate, best-effort insert of the user's row, reply
     * selection, best-effort insert of the AI's row, reply. Store failures are
     * swallowed and never change the reply.
     */
    method SendMessage(
      text: string, userId: Option<string>, construction: Construction,
      userAt: int, userWrite: StoreOutcome,
      upstream: Upstream,
      replyAt: int, replyWrite: StoreOutcome)
      returns (r: SendResult)
      requires Valid()
      modifies this, accessor, table
      ensures Valid()
      ensures r == SendResponse(text, ApiKey(accessor.env), upstream)
      ensures !ValidText(text) ==>
        unchanged(accessor) && unchanged(table) && effects == old(effects)
      ensures ValidText(text) ==>
        var connected := accessor.cachedClient.Some?;
        var user := TextDraft(text, userAt, userId);
        var ai := TextDraft(r.reply, replyAt, userId);
        && accessor.Settled(old(accessor.cachedClient), construction)
        && effects == old(effects) + SendEffects(connected, ApiKey(accessor.env) != "", user, ai)
        && Extends(old(table.rows), table.rows)
        && Drafts(table.rows) == Drafts(old(table.rows)) + Stored(connected, userId, text, userAt, userWrite, r.reply, replyAt, replyWrite)
    {
      if !ValidText(text) {
        return Rejected;
      }
      var reply := Respond(text, userId, construction, userAt, userWrite, upstream, replyAt, replyWrite);
      r := Sent(true, reply);
    }

    /** The body of `sendMessage` once the input has passed validation. */
    method Respond(
      text: string, userId: Option<string>, construction: Construction,
      userAt: int, userWrite: StoreOutcome,
      upstream: Upstream,
      replyAt: int, replyWrite: StoreOutcome)
      returns (reply: string)
      requires Valid()
      modifies this, accessor, table
      ensures Valid()
      ensures reply == SelectReply(ApiKey(accessor.env), upstream)
      ensures
        var connected := accessor.cachedClient.Some?;
        var user := TextDraft(text, userAt, userId);
        var ai := TextDraft(reply, replyAt, userId);
        && accessor.Settled(old(accessor.cachedClient), construction)
        && effects == old(effects) + SendEffects(connected, ApiKey(accessor.env) != "", user, ai)
        && Extends(old(table.rows), table.rows)
        && Drafts(table.rows) == Drafts(old(table.rows)) + Stored(connected, userId, text, userAt, userWrite, reply, replyAt, replyWrite)
    {
      var handle := accessor.GetSupabase(construction);
      var connected := handle.Some?;
      ghost var e0, d0, r0 := effects, Drafts(table.rows), table.rows;

      var user := TextDraft(text, userAt, userId);
      InsertBestEffort(connected, user, userWrite);
      ghost var e1, d1, r1 := effects, Drafts(table.rows), table.rows;

      var apiKey := ApiKey(accessor.env);
      reply := GenerateReply(text, apiKey, upstream);
      ghost var e2 := effects;

      var ai := TextDraft(reply, replyAt, userId);
      InsertBestEffort(connected && reply != "", ai, replyWrite);
      ExtendsTrans(r0, r1, table.rows);
      SequencedEffects(e0, e1, e2, effects, connected, apiKey != "", user, ai);
      SequencedWrites(d0, d1, Drafts(table.rows), connected, userId, text, userAt, userWrite, reply, replyAt, replyWrite);
    }

    /** `chat.clearChat`: delete every row created after the epoch floor. */
    method ClearChat(construction: Construction, delete: StoreOutcome) returns (r: ClearResult)
      requires Valid()
      modifies this, accessor, table
      ensures Valid()
      ensures accessor.Settled(old(accessor.cachedClient), construction)
      ensures r == ClearResultFor(accessor.cachedClient.Some?, delete)
      ensures table.rows ==
        if accessor.cachedClient.Some? && delete == Done then Surviving(old(table.rows), EpochFloor)
        else old(table.rows)
      ensures r.success && accessor.cachedClient.Some? ==>
        forall x :: x in table.rows ==> x.draft.createdAt <= EpochFloor
      ensures effects == old(effects) + if accessor.cachedClient.Some? then [StoreDelete(EpochFloor)] else []
    {
      var handle := accessor.GetSupabase(construction);
      if handle == None {
        return ClearResult(true, None);
      }
      effects := effects + [StoreDelete(EpochFloor)];
      var ok := table.DeleteCreatedAfter(EpochFloor, delete);
      if ok {
        r := ClearResult(true, None);
      } else {
        r := ClearResult(false, Some(FailedToClear));
      }
    }
  }
}
