/** Chat messages and the `conversations` table: its rows and the updates,
    inserts, deletes and "latest row" query the chat page issues. */
module Conversations {
  import opened Optional

  datatype Role = User | Assistant

  datatype Message = Message(role: Role, content: string)

  /** The stored `messages` column: an array of messages, or any value that
      is not an array (null, or a malformed cell). */
  datatype MessagesField = MessageArray(items: seq<Message>) | NotAnArray

  datatype Row = Row(
    id: string,
    userId: string,
    expertId: string,
    title: string,
    messages: MessagesField,
    createdAt: int,
    updatedAt: int)

  type Table = seq<Row>

  /** `Array.isArray(m) ? m.length : 0` */
  function MessageCount(m: MessagesField): (n: nat)
    ensures m.MessageArray? ==> n == |m.items|
    ensures m.NotAnArray? ==> n == 0
  {
    match m
    case MessageArray(items) => |items|
    case NotAnArray => 0
  }

  /** The list the chat page shows for a stored `messages` cell: the array,
      or empty for every value that is not an array. */
  function ItemsOrEmpty(m: MessagesField): seq<Message> {
    match m
    case MessageArray(items) => items
    case NotAnArray => []
  }

  predicate Owns(r: Row, userId: string, expertId: string) {
    r.userId == userId && r.expertId == expertId
  }

  /** `update({messages, updated_at}).eq('id', id)`: every row with that id
      gets the new messages and timestamp; every other row is untouched. */
  function UpdateMessages(t: Table, id: string, msgs: seq<Message>, now: int): (t': Table)
    ensures |t'| == |t|
    ensures forall i :: 0 <= i < |t| && t[i].id != id ==> t'[i] == t[i]
    ensures forall i :: 0 <= i < |t| && t[i].id == id ==>
              t'[i] == t[i].(messages := MessageArray(msgs), updatedAt := now)
  {
    if |t| == 0 then []
    else
      var r := if t[0].id == id then t[0].(messages := MessageArray(msgs), updatedAt := now) else t[0];
      [r] + UpdateMessages(t[1..], id, msgs, now)
  }

  /** `delete().eq('id', id)`: removes the rows with that id and nothing else. */
  function DeleteById(t: Table, id: string): (t': Table)
    ensures forall r :: r in t' <==> r in t && r.id != id
    ensures |t'| <= |t|
  {
    if |t| == 0 then []
    else
      var rest := DeleteById(t[1..], id);
      assert forall r :: r in t <==> r == t[0] || r in t[1..];
      if t[0].id == id then rest else [t[0]] + rest
  }

  /** The delete works row by row: the surviving rows keep their relative
      order, and a row survives alone exactly when its id differs. */
  lemma {:induction false} DeleteByIdKeepsOrder(a: Table, b: Table, id: string)
    ensures DeleteById(a + b, id) == DeleteById(a, id) + DeleteById(b, id)
    ensures |a| == 1 ==> DeleteById(a, id) == if a[0].id == id then [] else a
    decreases |a|
  {
    if |a| == 0 {
      assert a + b == b;
    } else {
      assert (a + b)[1..] == a[1..] + b;
      DeleteByIdKeepsOrder(a[1..], b, id);
    }
  }

  /** `select().eq('user_id', u).eq('expert_id', e).order('updated_at',
      desc).limit(1).single()`: a most recently updated row of the pair, or
      nothing when the pair has no row.  Among rows updated at the same
      instant the database's choice is unspecified; this picks the earliest
      in table order. */
  function Latest(t: Table, userId: string, expertId: string): (r: Option<Row>)
    ensures r.Some? <==> exists k :: 0 <= k < |t| && Owns(t[k], userId, expertId)
    ensures r.Some? ==> r.value in t && Owns(r.value, userId, expertId)
    ensures r.Some? ==> forall k :: 0 <= k < |t| && Owns(t[k], userId, expertId) ==> t[k].updatedAt <= r.value.updatedAt
  {
    if |t| == 0 then None
    else
      var rest := Latest(t[1..], userId, expertId);
      assert forall k :: 1 <= k < |t| ==> t[k] == t[1..][k - 1];
      if Owns(t[0], userId, expertId) && (rest.None? || rest.value.updatedAt <= t[0].updatedAt) then
        Some(t[0])
      else
        rest
  }

  /** When exactly one row of the pair carries the newest timestamp, the
      query returns that row. */
  lemma LatestIsNewest(t: Table, k: nat, userId: string, expertId: string)
    requires k < |t| && Owns(t[k], userId, expertId)
    requires forall j :: 0 <= j < |t| && j != k && Owns(t[j], userId, expertId) ==> t[j].updatedAt < t[k].updatedAt
    ensures Latest(t, userId, expertId) == Some(t[k])
  {
    var r := Latest(t, userId, expertId);
    var j :| 0 <= j < |t| && t[j] == r.value;
  }
}
