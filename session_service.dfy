/** Sessions kept in the browser when nobody is signed in: a newest-first
    list of at most ten entries under one local-storage key. */
module SessionService {
  import opened Types

  /** How many sessions the browser keeps. */
  const MaxLocalSessions: nat := 10

  function Min(a: int, b: int): int { if a <= b then a else b }

  /** What an entry of local storage reads as: its list when it holds one,
      and the empty list when it is missing or does not parse. */
  function ReadSessions(entry: Slot<seq<Session>>): (sessions: seq<Session>)
    ensures entry.Stored? ==> sessions == entry.value
    ensures !entry.Stored? ==> sessions == []
  {
    match entry
    case Stored(list) => list
    case _ => []
  }

  /** The caller's data without the fields the store adds. */
  function DataOf(s: Session): SessionData
  {
    SessionData(s.videoTitle, s.videoData, s.analysisResult, s.thumbnailPreview)
  }

  /** The record a local save builds: the caller's data, a fresh id and the
      save time, and no owner. */
  function NewLocalSession(data: SessionData, id: string, createdAt: string): (s: Session)
    ensures s.id == id && s.created_at == createdAt && s.user_id == None
    ensures DataOf(s) == data
  {
    Session(id, None, createdAt, data.videoTitle, data.videoData, data.analysisResult, data.thumbnailPreview)
  }

  /** `unshift` of the new session followed by `slice(0, 10)`. */
  function Pushed(sessions: seq<Session>, s: Session): (r: seq<Session>)
    ensures |r| == Min(|sessions| + 1, MaxLocalSessions)
    ensures r[0] == s
    ensures forall i :: 0 < i < |r| ==> r[i] == sessions[i - 1]
  {
    var all := [s] + sessions;
    all[..Min(|all|, MaxLocalSessions)]
  }

  /** A save puts the new session first, keeps the earlier ones in order
      behind it and drops only what lies beyond the cap. */
  lemma PushedShape(sessions: seq<Session>, s: Session)
    ensures Pushed(sessions, s) == [s] + sessions[..Min(|sessions|, MaxLocalSessions - 1)]
    ensures 0 < |Pushed(sessions, s)| <= MaxLocalSessions
    ensures Pushed(sessions, s)[0] == s
  {
    var all := [s] + sessions;
    var k := Min(|sessions|, MaxLocalSessions - 1);
    assert Min(|all|, MaxLocalSessions) == k + 1;
    assert all[..k + 1] == [s] + sessions[..k];
  }

  /** Each earlier session moves one place back, up to the cap. */
  lemma PushedShiftsByOne(sessions: seq<Session>, s: Session, i: nat)
    requires i < |sessions| && i + 1 < MaxLocalSessions
    ensures i + 1 < |Pushed(sessions, s)| && Pushed(sessions, s)[i + 1] == sessions[i]
  {
    PushedShape(sessions, s);
  }

  /** Saving into a full list evicts exactly its last, oldest entry. */
  lemma PushedIntoFullEvictsOldest(sessions: seq<Session>, s: Session)
    requires |sessions| == MaxLocalSessions
    ensures Pushed(sessions, s) == [s] + sessions[..|sessions| - 1]
    ensures |Pushed(sessions, s)| == |sessions|
  {
    PushedShape(sessions, s);
  }

  /** Saving into a list below the cap keeps every earlier session. */
  lemma PushedBelowCapKeepsAll(sessions: seq<Session>, s: Session)
    requires |sessions| < MaxLocalSessions
    ensures Pushed(sessions, s) == [s] + sessions
  {
    PushedShape(sessions, s);
    assert sessions[..|sessions|] == sessions;
  }

  /** `filter(s => s.id !== id)`: the sessions whose id differs, in order. */
  function Without(sessions: seq<Session>, id: string): (r: seq<Session>)
    ensures |r| <= |sessions|
    ensures forall s :: s in r <==> s in sessions && s.id != id
  {
    if sessions == [] then []
    else if sessions[0].id != id then [sessions[0]] + Without(sessions[1..], id)
    else Without(sessions[1..], id)
  }

  /** Deleting an id no session has changes nothing. */
  lemma {:induction false} WithoutAbsentId(sessions: seq<Session>, id: string)
    requires forall i :: 0 <= i < |sessions| ==> sessions[i].id != id
    ensures Without(sessions, id) == sessions
  {
    if sessions != [] {
      WithoutAbsentId(sessions[1..], id);
    }
  }

  /** The filter works element by element, so it keeps relative order:
      filtering a concatenation is concatenating the filtered parts. */
  lemma {:induction false} WithoutDistributes(a: seq<Session>, b: seq<Session>, id: string)
    ensures Without(a + b, id) == Without(a, id) + Without(b, id)
  {
    if a == [] {
      assert a + b == b;
    } else {
      assert (a + b)[0] == a[0];
      assert (a + b)[1..] == a[1..] + b;
      WithoutDistributes(a[1..], b, id);
    }
  }

  /** Deleting the id of a session that is there shortens the list. */
  lemma {:induction false} WithoutPresentIdShrinks(sessions: seq<Session>, id: string, i: nat)
    requires i < |sessions| && sessions[i].id == id
    ensures |Without(sessions, id)| < |sessions|
  {
    if i > 0 {
      WithoutPresentIdShrinks(sessions[1..], id, i - 1);
    }
  }

  /** Both local operations keep the list within the cap once it is there. */
  lemma BoundKept(sessions: seq<Session>, s: Session, id: string)
    requires |sessions| <= MaxLocalSessions
    ensures |Pushed(sessions, s)| <= MaxLocalSessions
    ensures |Without(sessions, id)| <= MaxLocalSessions
  {
    PushedShape(sessions, s);
  }

  /** The local half of the session service over the `clearCueSessions`
      entry of the browser's local storage. A signed-in user's sessions live
      in the hosted table, which this model does not hold; for such a user
      the operations leave the browser entry alone. */
  class LocalSessionStore {
    var entry: Slot<seq<Session>>

    constructor (entry: Slot<seq<Session>>)
      ensures this.entry == entry
    {
      this.entry := entry;
    }

    /** The list the store currently reads as. */
    function Sessions(): seq<Session>
      reads this
    {
      ReadSessions(entry)
    }

    /** `getLocalSessions`: unreadable storage reads as no sessions. */
    method GetLocalSessions() returns (sessions: seq<Session>)
      ensures entry.Stored? ==> sessions == entry.value
      ensures !entry.Stored? ==> sessions == []
    {
      match entry {
        case Stored(list) => sessions := list;
        case _ => sessions := [];
      }
    }

    /** `saveLocalSessions`: a write the browser refuses is swallowed and
        leaves the entry as it was. */
    method SaveLocalSessions(sessions: seq<Session>, accepted: bool)
      modifies this
      ensures entry == if accepted then Stored(sessions) else old(entry)
    {
      if accepted {
        entry := Stored(sessions);
      }
    }

    /** `saveSession`, browser branch: the new session goes first and the
        list is cut to the ten newest. */
    method SaveSession(data: SessionData, user: Option<string>, id: string, createdAt: string, accepted: bool)
      modifies this
      ensures user.Some? || !accepted ==> entry == old(entry)
      ensures user.None? && accepted ==>
        entry == Stored(Pushed(old(Sessions()), NewLocalSession(data, id, createdAt)))
      ensures user.None? && accepted ==>
        && 0 < |Sessions()| <= MaxLocalSessions
        && Sessions()[0].id == id && Sessions()[0].created_at == createdAt
        && DataOf(Sessions()[0]) == data
        && Sessions()[1..] == old(Sessions())[..Min(|old(Sessions())|, MaxLocalSessions - 1)]
    {
      if user.None? {
        var sessions := GetLocalSessions();
        var newSession := NewLocalSession(data, id, createdAt);
        PushedShape(sessions, newSession);
        sessions := [newSession] + sessions;
        SaveLocalSessions(sessions[..Min(|sessions|, MaxLocalSessions)], accepted);
      }
    }

    /** `deleteSession`, browser branch: every session with that id goes,
        the rest stay in order. */
    method DeleteSession(sessionId: string, user: Option<string>, accepted: bool)
      modifies this
      ensures user.Some? || !accepted ==> entry == old(entry)
      ensures user.None? && accepted ==> entry == Stored(Without(old(Sessions()), sessionId))
      ensures user.None? && accepted ==>
        && (forall s :: s in Sessions() ==> s.id != sessionId)
        && |Sessions()| <= |old(Sessions())|
    {
      if user.None? {
        var sessions := GetLocalSessions();
        sessions := Without(sessions, sessionId);
        SaveLocalSessions(sessions, accepted);
      }
    }
  }
}
