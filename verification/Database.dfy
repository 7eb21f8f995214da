// The reference conversation database and the delta sync that feeds it
// (src/flops_agent/seams/database.py).
module Database {
  import opened Prelude
  import opened Messages
  import S = Session

  /** A metadata value: the pending interaction, or anything else as text. */
  datatype Field = Text(text: string) | Pending(marker: S.Marker)

  type Fields = map<string, Field>

  const PENDING_INTERACTION := "pending_interaction"

  /** Metadata after a partial update: a field set to None is deleted, fields not named stay. */
  function Patched(meta: Fields, fields: map<string, Option<Field>>): (r: Fields)
    ensures forall k :: k in fields && fields[k].None? ==> k !in r
    ensures forall k :: k in fields && fields[k].Some? ==> k in r && r[k] == fields[k].value
    ensures forall k :: k !in fields ==> (k in r <==> k in meta) && (k in meta ==> r[k] == meta[k])
  {
    map k | k in meta.Keys + fields.Keys && (k in fields ==> fields[k].Some?)
      :: if k in fields then fields[k].value else meta[k]
  }

  /** Stored history after one delta sync. */
  function Synced(stored: seq<Message>, current: seq<Message>): (r: seq<Message>)
    ensures |r| == |current|
  {
    if |current| > |stored| then stored + current[|stored|..]
    else if |current| < |stored| then stored[..|current|]
    else if current == [] then stored
    else stored[|stored| - 1 := current[|current| - 1]]
  }

  /** Stored history after one entry is rewritten in place; an index out of range changes nothing. */
  function Rewritten(stored: seq<Message>, index: int, m: Message): (r: seq<Message>)
    ensures |r| == |stored|
  {
    if 0 <= index < |stored| then stored[index := m] else stored
  }

  class InMemoryDatabase {
    var meta: map<string, Fields>
    var messages: map<string, seq<Message>>

    constructor ()
      ensures meta == map[] && messages == map[]
    {
      meta, messages := map[], map[];
    }

    function Stored(sessionId: string): (h: seq<Message>)
      reads this
    {
      if sessionId in messages then messages[sessionId] else []
    }

    function Meta(sessionId: string): (m: Fields)
      reads this
    {
      if sessionId in meta then meta[sessionId] else map[]
    }

    /** The pending interaction on record. */
    function StoredPending(sessionId: string): (m: Option<S.Marker>)
      reads this
    {
      var fields := Meta(sessionId);
      if PENDING_INTERACTION in fields && fields[PENDING_INTERACTION].Pending?
      then Some(fields[PENDING_INTERACTION].marker) else None
    }

    /** A slice of the history, clamped to what exists. */
    method LoadMessages(sessionId: string, start: nat, limit: Option<nat>) returns (page: seq<Message>)
      ensures limit == None && start == 0 ==> page == Stored(sessionId)
      ensures |page| <= |Stored(sessionId)| && (limit.Some? ==> |page| <= limit.value)
      ensures forall i :: 0 <= i < |page| ==> start + i < |Stored(sessionId)| && page[i] == Stored(sessionId)[start + i]
      ensures start + |page| < |Stored(sessionId)| ==> limit == Some(|page|)
    {
      var h := Stored(sessionId);
      var stop := match limit case None => |h| case Some(n) => if start + n <= |h| then start + n else |h|;
      page := if start <= stop then h[start..stop] else [];
    }

    method AppendMessages(sessionId: string, more: seq<Message>)
      modifies this`messages
      ensures Stored(sessionId) == old(Stored(sessionId)) + more
      ensures forall s: string :: s != sessionId ==> Stored(s) == old(Stored(s))
    {
      messages := messages[sessionId := Stored(sessionId) + more];
    }

    method TruncateMessages(sessionId: string, keep: nat)
      modifies this`messages
      ensures var h := old(Stored(sessionId)); Stored(sessionId) == if keep <= |h| then h[..keep] else h
      ensures forall s: string :: s != sessionId ==> Stored(s) == old(Stored(s))
    {
      if sessionId in messages && keep <= |messages[sessionId]| {
        messages := messages[sessionId := messages[sessionId][..keep]];
      }
    }

    method ReplaceMessage(sessionId: string, index: int, message: Message)
      modifies this`messages
      ensures Stored(sessionId) == Rewritten(old(Stored(sessionId)), index, message)
      ensures forall s: string :: s != sessionId ==> Stored(s) == old(Stored(s))
    {
      if sessionId in messages && 0 <= index < |messages[sessionId]| {
        messages := messages[sessionId := messages[sessionId][index := message]];
      }
    }

    method PatchMeta(sessionId: string, fields: map<string, Option<Field>>)
      modifies this`meta
      ensures Meta(sessionId) == Patched(old(Meta(sessionId)), fields)
      ensures forall s: string :: s != sessionId ==> Meta(s) == old(Meta(s))
    {
      meta := meta[sessionId := Patched(Meta(sessionId), fields)];
    }

    /** Idempotent: a known session keeps its messages and metadata. */
    method CreateSession(sessionId: string, fields: Fields)
      modifies this
      ensures Stored(sessionId) == old(Stored(sessionId)) && sessionId in messages
      ensures meta == if sessionId in old(meta) then old(meta) else old(meta)[sessionId := fields]
      ensures forall s: string :: s != sessionId ==> Stored(s) == old(Stored(s))
    {
      if sessionId !in meta { meta := meta[sessionId := fields]; }
      if sessionId !in messages { messages := messages[sessionId := []]; }
    }
  }

  /** Writes only the difference: append, truncate, or rewrite the last message. */
  method SyncSession(database: InMemoryDatabase, sessionId: string, session: S.Session) returns (appended: int)
    modifies database`messages
    ensures database.Stored(sessionId) == Synced(old(database.Stored(sessionId)), session.messages)
    ensures appended == |session.messages| - |old(database.Stored(sessionId))|
    ensures forall s: string :: s != sessionId ==> database.Stored(s) == old(database.Stored(s))
  {
    var stored := |database.Stored(sessionId)|;
    var current := |session.messages|;
    if current > stored {
      database.AppendMessages(sessionId, session.messages[stored..]);
      return current - stored;
    }
    if current < stored {
      database.TruncateMessages(sessionId, current);
      return current - stored;
    }
    if current > 0 {
      database.ReplaceMessage(sessionId, current - 1, session.messages[current - 1]);
    }
    return 0;
  }

  /** The two agree below the shorter one's end or, at equal length, below the last message. */
  predicate InReach(stored: seq<Message>, current: seq<Message>) {
    if |stored| < |current| then stored <= current
    else if |current| < |stored| then current <= stored
    else current != [] ==> stored[..|stored| - 1] == current[..|current| - 1]
  }

  /** A delta sync makes the database equal to the history in exactly these cases. */
  lemma SyncIsExactIff(stored: seq<Message>, current: seq<Message>)
    ensures Synced(stored, current) == current <==> InReach(stored, current)
  {
    var r := Synced(stored, current);
    if |current| > |stored| {
      assert r[..|stored|] == stored;
      if r == current { assert stored == current[..|stored|]; }
    } else if |current| == |stored| && current != [] {
      var n := |stored| - 1;
      assert r[..n] == stored[..n];
      assert r == r[..n] + [r[n]] && current == current[..n] + [current[n]];
    }
  }
}
