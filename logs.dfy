/** Normalized log entries and the per-session message store (history plus broadcast). */
module Logs {
  import opened Wrappers
  import Json

  datatype NormalizedEntryType =
    | UserMessage
    | AssistantMessage
    | ToolCall
    | ToolResult
    | SystemMessage
    | ErrorMessage
    | ThinkingMessage
    | SuggestedEdit
    | Progress
    | Unknown

  /** One semantic event of an agent run; `timestamp` is the wall-clock time in milliseconds. */
  datatype NormalizedEntry = NormalizedEntry(
    timestamp: Option<int>,
    entryType: NormalizedEntryType,
    content: string,
    metadata: Option<Json.Value>)

  // The entry builders stamp the entry with the current time, which the caller passes as `now`.

  function UserMessageEntry(content: string, now: int): (e: NormalizedEntry)
    ensures e.entryType == UserMessage && e.content == content
    ensures e.metadata == None && e.timestamp == Some(now)
  {
    NormalizedEntry(Some(now), UserMessage, content, None)
  }

  function AssistantMessageEntry(content: string, now: int): (e: NormalizedEntry)
    ensures e.entryType == AssistantMessage && e.content == content
    ensures e.metadata == None && e.timestamp == Some(now)
  {
    NormalizedEntry(Some(now), AssistantMessage, content, None)
  }

  function ThinkingEntry(content: string, now: int): (e: NormalizedEntry)
    ensures e.entryType == ThinkingMessage && e.content == content
    ensures e.metadata == None && e.timestamp == Some(now)
  {
    NormalizedEntry(Some(now), ThinkingMessage, content, None)
  }

  /** A tool call carries the tool's name as content and its raw input as metadata. */
  function ToolCallEntry(toolName: string, input: Json.Value, now: int): (e: NormalizedEntry)
    ensures e.entryType == ToolCall && e.content == toolName
    ensures e.metadata == Some(input) && e.timestamp == Some(now)
  {
    NormalizedEntry(Some(now), ToolCall, toolName, Some(input))
  }

  function ErrorEntry(message: string, now: int): (e: NormalizedEntry)
    ensures e.entryType == ErrorMessage && e.content == message
    ensures e.metadata == None && e.timestamp == Some(now)
  {
    NormalizedEntry(Some(now), ErrorMessage, message, None)
  }

  /** Attaches metadata, keeping every other field. */
  function WithMetadata(e: NormalizedEntry, metadata: Json.Value): (r: NormalizedEntry)
    ensures r.metadata == Some(metadata)
    ensures r.entryType == e.entryType && r.content == e.content && r.timestamp == e.timestamp
  {
    e.(metadata := Some(metadata))
  }

  /** The unit the store records and broadcasts. */
  datatype LogMsg =
    | Entry(entry: NormalizedEntry)
    | Raw(text: string)
    | Started
    | Ended
    | Error(message: string)

  /**
   * The message store of one session: an append-only history and a broadcast
   * channel. The channel is modelled by `sent`, every message ever broadcast in
   * order, and by `subscribers`, which records for each receiver how many
   * messages had been broadcast when it subscribed; receiver `k` therefore
   * receives exactly `sent[subscribers[k]..]`.
   */
  class MsgStore {
    var history: seq<LogMsg>
    var sent: seq<LogMsg>
    var subscribers: seq<nat>

    ghost predicate Valid()
      reads this
    {
      forall k :: 0 <= k < |subscribers| ==> subscribers[k] <= |sent|
    }

    /** What receiver `k` has been sent since it subscribed. */
    function Received(k: nat): seq<LogMsg>
      reads this
      requires Valid() && k < |subscribers|
    {
      sent[subscribers[k]..]
    }

    /** The store has recorded and broadcast exactly `out` since the state (`h0`, `s0`, `u0`). */
    ghost predicate Extends(h0: seq<LogMsg>, s0: seq<LogMsg>, u0: seq<nat>, out: seq<LogMsg>)
      reads this
    {
      Valid() && history == h0 + out && sent == s0 + out && subscribers == u0
    }

    constructor ()
      ensures Valid() && history == [] && sent == [] && subscribers == []
    {
      history, sent, subscribers := [], [], [];
    }

    /** Appends to the history and broadcasts; a send with no receivers is ignored, so the append always happens. */
    method Push(m: LogMsg)
      requires Valid()
      modifies this
      ensures Extends(old(history), old(sent), old(subscribers), [m])
      ensures forall k :: 0 <= k < |subscribers| ==> Received(k) == old(Received(k)) + [m]
    {
      history := history + [m];
      sent := sent + [m];
    }

    method PushEntry(e: NormalizedEntry)
      requires Valid()
      modifies this
      ensures Extends(old(history), old(sent), old(subscribers), [Entry(e)])
    {
      Push(Entry(e));
    }

    method PushError(message: string)
      requires Valid()
      modifies this
      ensures Extends(old(history), old(sent), old(subscribers), [Error(message)])
    {
      Push(Error(message));
    }

    /** A new receiver, which is sent every message pushed from now on. */
    method Subscribe() returns (k: nat)
      requires Valid()
      modifies this
      ensures Valid() && history == old(history) && sent == old(sent)
      ensures subscribers == old(subscribers) + [|sent|]
      ensures k == |old(subscribers)| && Received(k) == []
    {
      k := |subscribers|;
      subscribers := subscribers + [|sent|];
    }

    /** A snapshot of every message pushed since the last `Clear`, in push order. */
    method GetHistory() returns (h: seq<LogMsg>)
      ensures h == history
    {
      h := history;
    }

    /** Empties the history; receivers and what they were sent are unaffected. */
    method Clear()
      requires Valid()
      modifies this
      ensures Valid() && history == [] && sent == old(sent) && subscribers == old(subscribers)
    {
      history := [];
    }
  }

  /** Three pushes on a fresh store give a history of those three messages in order. */
  method PushThreeThenHistory(now: int) returns (h: seq<LogMsg>)
    ensures h == [Started, Entry(UserMessageEntry("Test", now)), Ended]
  {
    var store := new MsgStore();
    store.Push(Started);
    store.PushEntry(UserMessageEntry("Test", now));
    store.Push(Ended);
    h := store.GetHistory();
  }

  /** A receiver that subscribes before a push is sent that message. */
  method SubscribeThenPush() returns (got: seq<LogMsg>)
    ensures got == [Started]
  {
    var store := new MsgStore();
    var rx := store.Subscribe();
    store.Push(Started);
    got := store.Received(rx);
  }
}
