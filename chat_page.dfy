/**
 * The chat page's own state and handlers: the draft text, the typing flag and
 * the messages shown locally before the server list is refetched, together with
 * the merged, time-ordered list the page renders.
 */
module ChatPage {
  import opened Wrappers
  import opened Text
  import opened Messages
  import opened Replies
  import opened ChatRouter

  /** The local reply shown when the send call fails. */
  const Apology := "Sorry, I'm having trouble responding right now."

  /** How `sendMessage.mutateAsync` settled, as the page sees it. */
  datatype ServerOutcome = Replied(reply: string) | Failed

  /** How `clearChat.mutateAsync` settled: with the router's result, or with a throw. */
  datatype ClearCall = Cleared(result: ClearResult) | ClearFailed

  /**
   * What the page receives for a router response: a rejected input reaches it as
   * a thrown validation error, an accepted one as `{ success, reply }`.
   */
  function Delivered(r: SendResult): (o: ServerOutcome)
    ensures o.Failed? <==> r.Rejected?
    ensures r.Sent? ==> o.reply == r.reply
  {
    match r
    case Rejected => Failed
    case Sent(_, reply) => Replied(reply)
  }

  /** A message the page creates itself: no id, type "text", and its author. */
  function LocalEntry(text: string, at: int, from: Sender): Message {
    Message(None, text, "text", at, Some(from))
  }

  /**
   * The entries the page appends once the send call has settled: one AI entry
   * with the reply when it is truthy, one AI entry with the apology on failure,
   * and nothing for an empty reply.
   */
  function ReplyEntries(outcome: ServerOutcome, at: int): (es: seq<Message>)
    ensures |es| <= 1
    ensures |es| == 1 <==> outcome.Failed? || outcome.reply != ""
    ensures forall i :: 0 <= i < |es| ==>
      es[i].id == None && es[i].kind == "text" && es[i].createdAt == at && es[i].from == Some(Ai) && es[i].text != ""
    ensures |es| == 1 && outcome.Replied? ==> es[0].text == outcome.reply
    ensures |es| == 1 && outcome.Failed? ==> es[0].text == Apology
  {
    assert Apology[|Apology| - 1] == '.';
    match outcome
    case Replied(reply) => if reply != "" then [LocalEntry(reply, at, Ai)] else []
    case Failed => [LocalEntry(Apology, at, Ai)]
  }

  /**
   * Every prompt the page sends is answered by exactly one AI entry that is never
   * empty: the router's reply when the prompt is within the length bound, and the
   * apology when the router rejects it.
   */
  lemma EverySendAnswered(prompt: string, apiKey: string, upstream: Upstream, at: int)
    requires prompt != ""
    ensures var es := ReplyEntries(Delivered(SendResponse(prompt, apiKey, upstream)), at);
      && |es| == 1 && es[0].from == Some(Ai) && es[0].text != ""
      && (|prompt| <= MaxTextLength ==> es[0].text == SelectReply(apiKey, upstream))
      && (|prompt| > MaxTextLength ==> es[0].text == Apology)
  {
  }

  /** Display order: by creation time, oldest first. */
  predicate Sorted(s: seq<Message>) {
    forall i, j :: 0 <= i < j < |s| ==> s[i].createdAt <= s[j].createdAt
  }

  /** The messages of `s` created at time `k`, in their order in `s`. */
  function AtTime(s: seq<Message>, k: int): (r: seq<Message>)
    ensures |r| <= |s|
    ensures forall i :: 0 <= i < |r| ==> r[i].createdAt == k && r[i] in s
  {
    if s == [] then []
    else
      var rest := AtTime(s[1..], k);
      assert forall x :: x in s[1..] ==> x in s;
      if s[0].createdAt == k then [s[0]] + rest else rest
  }

  lemma {:induction false} AtTimeAppend(a: seq<Message>, b: seq<Message>, k: int)
    ensures AtTime(a + b, k) == AtTime(a, k) + AtTime(b, k)
  {
    if a == [] {
      assert a + b == b;
    } else {
      assert (a + b)[1..] == a[1..] + b;
      AtTimeAppend(a[1..], b, k);
    }
  }

  /** `m` placed after every element of `s` created no later than it. */
  function InsertByTime(m: Message, s: seq<Message>): (r: seq<Message>)
    requires Sorted(s)
    ensures |r| == |s| + 1
    ensures r[0] == m || (s != [] && r[0] == s[0])
    ensures Sorted(r)
    ensures multiset(r) == multiset(s) + multiset{m}
  {
    if s == [] then [m]
    else if m.createdAt < s[0].createdAt then [m] + s
    else
      assert s == [s[0]] + s[1..];
      [s[0]] + InsertByTime(m, s[1..])
  }

  /** Inserting `m` adds it after the messages that share its time and leaves every other time alone. */
  lemma {:induction false} InsertKeepsTies(m: Message, s: seq<Message>, k: int)
    requires Sorted(s)
    ensures AtTime(InsertByTime(m, s), k) == AtTime(s, k) + if m.createdAt == k then [m] else []
  {
    if s == [] {
    } else if m.createdAt < s[0].createdAt {
      if m.createdAt == k {
        NoneBefore(s, k);
      }
    } else {
      InsertKeepsTies(m, s[1..], k);
    }
  }

  /** Insertion sort by creation time: the stable sort the page applies. */
  function SortByTime(s: seq<Message>): (r: seq<Message>)
    ensures Sorted(r)
    ensures multiset(r) == multiset(s)
    ensures |r| == |s|
  {
    if s == [] then []
    else
      assert s == s[..|s| - 1] + [s[|s| - 1]];
      InsertByTime(s[|s| - 1], SortByTime(s[..|s| - 1]))
  }

  /** The sort is stable: messages created at the same time keep their relative order. */
  lemma {:induction false} SortIsStable(s: seq<Message>, k: int)
    ensures AtTime(SortByTime(s), k) == AtTime(s, k)
  {
    if s != [] {
      var init, last := s[..|s| - 1], s[|s| - 1];
      assert s == init + [last];
      SortIsStable(init, k);
      InsertKeepsTies(last, SortByTime(init), k);
      AtTimeAppend(init, [last], k);
    }
  }

  /** A sorted sequence has no message created before its first one. */
  lemma NoneBefore(s: seq<Message>, k: int)
    requires Sorted(s) && s != [] && k < s[0].createdAt
    ensures AtTime(s, k) == []
  {
  }

  /** The first message of a sequence is the first one at its own time. */
  lemma FirstAtOwnTime(s: seq<Message>)
    ensures s != [] ==> AtTime(s, s[0].createdAt) != [] && AtTime(s, s[0].createdAt)[0] == s[0]
  {
  }

  /** Dropping the first message drops it from its own time only. */
  lemma AtTimeTail(s: seq<Message>, k: int)
    requires s != []
    ensures AtTime(s[1..], k) == if s[0].createdAt == k then AtTime(s, k)[1..] else AtTime(s, k)
  {
  }

  /**
   * Sortedness and the order among equal times together fix a sequence: two sorted
   * sequences that agree on the messages at every time are equal. So the sort is
   * the only stable one.
   */
  lemma {:induction false} StableSortUnique(a: seq<Message>, b: seq<Message>)
    requires Sorted(a) && Sorted(b)
    requires forall k :: AtTime(a, k) == AtTime(b, k)
    ensures a == b
  {
    FirstAtOwnTime(a);
    FirstAtOwnTime(b);
    if a != [] && b != [] {
      var ka, kb := a[0].createdAt, b[0].createdAt;
      if ka < kb {
        NoneBefore(b, ka);
      } else if kb < ka {
        NoneBefore(a, kb);
      }
      assert a[0] == AtTime(a, ka)[0] == AtTime(b, ka)[0] == b[0];
      forall k ensures AtTime(a[1..], k) == AtTime(b[1..], k) {
        AtTimeTail(a, k);
        AtTimeTail(b, k);
      }
      StableSortUnique(a[1..], b[1..]);
      assert a == [a[0]] + a[1..] && b == [b[0]] + b[1..];
    }
  }

  /**
   * `allMessages`: the listed messages (none before the first load) followed by
   * the local ones, sorted by creation time. The result holds exactly those
   * messages, and among messages created at the same time the listed ones come
   * first, each group in its own order.
   */
  function AllMessages(listData: Option<seq<Message>>, local: seq<Message>): (all: seq<Message>)
    ensures Sorted(all)
    ensures multiset(all) == multiset(listData.GetOr([])) + multiset(local)
    ensures forall k :: AtTime(all, k) == AtTime(listData.GetOr([]), k) + AtTime(local, k)
  {
    var combined := listData.GetOr([]) + local;
    assert forall k :: AtTime(SortByTime(combined), k) == AtTime(listData.GetOr([]), k) + AtTime(local, k) by {
      forall k ensures AtTime(SortByTime(combined), k) == AtTime(listData.GetOr([]), k) + AtTime(local, k) {
        SortIsStable(combined, k);
        AtTimeAppend(listData.GetOr([]), local, k);
      }
    }
    SortByTime(combined)
  }

  /** Any sorted arrangement that keeps the listed-then-local order at every time is the one shown. */
  lemma AllMessagesUnique(listData: Option<seq<Message>>, local: seq<Message>, other: seq<Message>)
    requires Sorted(other)
    requires forall k :: AtTime(other, k) == AtTime(listData.GetOr([]), k) + AtTime(local, k)
    ensures other == AllMessages(listData, local)
  {
    StableSortUnique(other, AllMessages(listData, local));
  }

  /** The page's React state. */
  class ChatView {
    var text: string
    var isTyping: bool
    var localMessages: seq<Message>

    constructor ()
      ensures text == "" && !isTyping && localMessages == []
    {
      text := "";
      isTyping := false;
      localMessages := [];
    }

    /** Typing into the input, which is disabled while a reply is awaited. */
    method EditText(t: string)
      requires !isTyping
      modifies this
      ensures text == t && isTyping == old(isTyping) && localMessages == old(localMessages)
    {
      text := t;
    }

    /**
     * The synchronous part of `handleSend`, up to the call: nothing happens when the
     * trimmed text is empty or a reply is awaited; otherwise the input is cleared,
     * the page starts waiting and the user's entry is appended. The trimmed text
     * is the prompt to send.
     */
    method BeginSend(sentAt: int) returns (prompt: Option<string>)
      modifies this
      ensures prompt.None? <==> old(Blank(text)) || old(isTyping)
      ensures prompt.None? ==>
        text == old(text) && isTyping == old(isTyping) && localMessages == old(localMessages)
      ensures prompt.Some? ==>
        && prompt.value == Trim(old(text)) && prompt.value != ""
        && text == "" && isTyping
        && localMessages == old(localMessages) + [LocalEntry(prompt.value, sentAt, Me)]
      ensures prompt.Some? ==>
        var m := localMessages[|localMessages| - 1];
        && |localMessages| == |old(localMessages)| + 1
        && m.id == None && m.kind == "text" && m.text == prompt.value && m.createdAt == sentAt && m.from == Some(Me)
    {
      if Trim(text) == "" || isTyping {
        return None;
      }
      var userMessage := Trim(text);
      text := "";
      isTyping := true;
      localMessages := localMessages + [LocalEntry(userMessage, sentAt, Me)];
      prompt := Some(userMessage);
    }

    /** The part of `handleSend` after the call settles: append the reply entries and stop waiting. */
    method CompleteSend(outcome: ServerOutcome, at: int)
      modifies this
      ensures text == old(text) && !isTyping
      ensures localMessages == old(localMessages) + ReplyEntries(outcome, at)
      ensures |old(localMessages)| <= |localMessages| <= |old(localMessages)| + 1
      ensures forall i :: |old(localMessages)| <= i < |localMessages| ==>
        localMessages[i].id == None && localMessages[i].kind == "text" && localMessages[i].from == Some(Ai)
    {
      match outcome {
        case Replied(reply) =>
          if reply != "" {
            localMessages := localMessages + [LocalEntry(reply, at, Ai)];
          }
        case Failed =>
          localMessages := localMessages + [LocalEntry(Apology, at, Ai)];
      }
      isTyping := false;
    }

    /**
     * `handleSend` when the call settles with `outcome` before anything else
     * happens: at most one send is in flight because a second one finds `isTyping`.
     */
    method HandleSend(sentAt: int, outcome: ServerOutcome, repliedAt: int) returns (prompt: Option<string>)
      modifies this
      ensures prompt.None? <==> old(Blank(text)) || old(isTyping)
      ensures prompt.None? ==>
        text == old(text) && isTyping == old(isTyping) && localMessages == old(localMessages)
      ensures prompt.Some? ==>
        && prompt.value == Trim(old(text)) && text == "" && !isTyping
        && localMessages == old(localMessages) + [LocalEntry(prompt.value, sentAt, Me)] + ReplyEntries(outcome, repliedAt)
    {
      prompt := BeginSend(sentAt);
      if prompt.Some? {
        CompleteSend(outcome, repliedAt);
      }
    }

    /**
     * `handleRestartChat`: the local messages are cleared whether the clear call
     * resolves (with either result, through its success callback) or throws.
     */
    method HandleRestartChat(outcome: ClearCall)
      modifies this
      ensures localMessages == [] && text == old(text) && isTyping == old(isTyping)
    {
      match outcome
      case Cleared(_) =>
        localMessages := [];
      case ClearFailed =>
        localMessages := [];
    }
  }
}
