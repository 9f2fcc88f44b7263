/**
 * The `messages` table as the router sees it: rows with a store-assigned id,
 * and the message records the list query and the client work with.
 * Timestamps are opaque integers (milliseconds since the Unix epoch).
 */
module Messages {
  import opened Wrappers

  /** Who produced a message on the client; never stored. */
  datatype Sender = Me | Ai

  /** The columns a producer supplies on insert. */
  datatype Draft = Draft(text: string, kind: string, createdAt: int, userId: Option<string>)

  /** A stored row: the draft plus the id the store assigns. */
  datatype Row = Row(id: nat, draft: Draft)

  /** A message as listed (`id, text, type, created_at`) or created locally on the client. */
  datatype Message = Message(id: Option<nat>, text: string, kind: string, createdAt: int, from: Option<Sender>)

  /** The result of one write (insert or delete): `{ error: null }`, `{ error }`, or a throw. */
  datatype StoreOutcome = Done | Errored | Threw

  /** The result of the list query: `{ data }`, `{ error }`, or a throw. */
  datatype QueryOutcome = Returned(data: Option<seq<Message>>) | QueryErrored | QueryThrew

  function Drafts(rows: seq<Row>): (ds: seq<Draft>)
    ensures |ds| == |rows|
  {
    if rows == [] then [] else [rows[0].draft] + Drafts(rows[1..])
  }

  ghost predicate IdsIncreasing(rows: seq<Row>) {
    forall i, j :: 0 <= i < j < |rows| ==> rows[i].id < rows[j].id
  }

  /** `b` keeps every row of `a`, in place, and may add rows after them. */
  predicate Extends(a: seq<Row>, b: seq<Row>) {
    |a| <= |b| && b[..|a|] == a
  }

  /** Extending is transitive. */
  lemma ExtendsTrans(a: seq<Row>, b: seq<Row>, c: seq<Row>)
    requires Extends(a, b) && Extends(b, c)
    ensures Extends(a, c)
  {
    assert c[..|a|] == c[..|b|][..|a|];
  }

  /** The rows a `created_at > floor` delete leaves behind, in their order. */
  function Surviving(rows: seq<Row>, floor: int): (r: seq<Row>)
    ensures forall x :: x in r <==> x in rows && x.draft.createdAt <= floor
    ensures |r| <= |rows|
    ensures IdsIncreasing(rows) ==> IdsIncreasing(r)
  {
    if rows == [] then []
    else
      var rest := Surviving(rows[1..], floor);
      assert IdsIncreasing(rows) ==> forall x :: x in rest ==> rows[0].id < x.id by {
        if IdsIncreasing(rows) {
          forall x | x in rest ensures rows[0].id < x.id {
            var k :| 0 <= k < |rows[1..]| && rows[1..][k] == x;
            assert rows[k + 1] == x;
          }
        }
      }
      if rows[0].draft.createdAt <= floor then [rows[0]] + rest else rest
  }

  /** The remote table; what each foreign call does is passed in as its outcome. */
  class MessageTable {
    var rows: seq<Row>
    var nextId: nat

    ghost predicate Valid()
      reads this
    {
      IdsIncreasing(rows) && forall i :: 0 <= i < |rows| ==> rows[i].id < nextId
    }

    constructor ()
      ensures Valid() && rows == []
    {
      rows := [];
      nextId := 0;
    }

    /** `insert(d)`: appends a row with a fresh id when the store accepts it. */
    method Insert(d: Draft, outcome: StoreOutcome) returns (ok: bool)
      requires Valid()
      modifies this
      ensures Valid()
      ensures ok <==> outcome == Done
      ensures rows == if ok then old(rows) + [Row(old(nextId), d)] else old(rows)
      ensures nextId == if ok then old(nextId) + 1 else old(nextId)
    {
      ok := outcome == Done;
      if ok {
        rows := rows + [Row(nextId, d)];
        nextId := nextId + 1;
      }
    }

    /** `delete().gt('created_at', floor)`: keeps only the rows at or before `floor`. */
    method DeleteCreatedAfter(floor: int, outcome: StoreOutcome) returns (ok: bool)
      requires Valid()
      modifies this
      ensures Valid() && nextId == old(nextId)
      ensures ok <==> outcome == Done
      ensures rows == if ok then Surviving(old(rows), floor) else old(rows)
    {
      ok := outcome == Done;
      if ok {
        rows := Surviving(rows, floor);
      }
    }
  }
}
