/** The bridge server's shared state: the registry of feedback sessions. */
module BridgeState {
  import opened Wrappers
  import opened Logs
  import opened Agents
  import Profile

  /** Where a feedback session is in its life. */
  datatype SessionState = Pending | Running | Completed | Failed | Cancelled

  /**
   * One feedback session. `trace` is a ghost record of every state the
   * session has been given, in order, so that a run can be shown to pass
   * through `Running` and a cancellation to be overwritten.
   */
  class FeedbackSession {
    const id: string
    const commentId: string
    const documentId: string
    const executor: DocumentAgent
    const msgStore: MsgStore
    var state: SessionState
    ghost var trace: seq<SessionState>

    /** A pending session with a fresh, empty message store. */
    constructor (id: string, commentId: string, documentId: string, executor: DocumentAgent)
      ensures this.id == id && this.commentId == commentId && this.documentId == documentId
      ensures this.executor == executor
      ensures state == Pending && trace == [Pending]
      ensures fresh(msgStore) && msgStore.Valid()
      ensures msgStore.history == [] && msgStore.sent == [] && msgStore.subscribers == []
    {
      this.id := id;
      this.commentId := commentId;
      this.documentId := documentId;
      this.executor := executor;
      msgStore := new MsgStore();
      state := Pending;
      trace := [Pending];
    }

    /** An unguarded assignment of the session state. */
    method SetState(s: SessionState)
      modifies this
      ensures state == s && trace == old(trace) + [s]
    {
      state := s;
      trace := trace + [s];
    }
  }

  /** The sessions by id, and the executor configurations. */
  class AppState {
    var sessions: map<string, FeedbackSession>
    const executorConfigs: Profile.ExecutorConfigs

    /** Every session is registered under its own id. */
    ghost predicate Valid()
      reads this
    {
      forall k :: k in sessions ==> sessions[k].id == k
    }

    constructor ()
      ensures Valid() && sessions == map[]
      ensures fresh(executorConfigs) && executorConfigs.executors == map[]
    {
      sessions := map[];
      executorConfigs := new Profile.ExecutorConfigs();
    }

    /**
     * Registers a new pending session under `id`, the random identifier the
     * caller draws. Any earlier session under the same id is replaced; every
     * other entry is kept.
     */
    method CreateSession(commentId: string, documentId: string, executor: DocumentAgent, id: string)
      returns (session: FeedbackSession)
      requires Valid()
      modifies this
      ensures Valid() && sessions == old(sessions)[id := session]
      ensures forall k :: k != id ==> GetSession(k) == old(GetSession(k))
      ensures GetSession(id) == Some(session)
      ensures fresh(session) && fresh(session.msgStore)
      ensures session.id == id && session.commentId == commentId && session.documentId == documentId
      ensures session.executor == executor && session.state == Pending && session.trace == [Pending]
      ensures session.msgStore.Valid() && session.msgStore.history == []
    {
      session := new FeedbackSession(id, commentId, documentId, executor);
      sessions := sessions[id := session];
    }

    function GetSession(id: string): (r: Option<FeedbackSession>)
      reads this
      ensures r.Some? <==> id in sessions
      ensures r.Some? ==> r.value == sessions[id]
    {
      if id in sessions then Some(sessions[id]) else None
    }

    /** Unregisters `id` and hands back the session it held, if any; no other entry changes. */
    method RemoveSession(id: string) returns (r: Option<FeedbackSession>)
      requires Valid()
      modifies this
      ensures Valid() && r == old(GetSession(id))
      ensures sessions == old(sessions) - {id}
      ensures GetSession(id) == None
      ensures forall k :: k != id ==> GetSession(k) == old(GetSession(k))
    {
      r := GetSession(id);
      sessions := sessions - {id};
    }
  }
}
