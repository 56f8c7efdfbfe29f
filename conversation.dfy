/**
 * The conversation log of a session: an append-only list of role-tagged
 * messages kept under the key `graph_state` of the session store, and the
 * graph-local list that one workflow invocation threads through its nodes.
 */
module Conversation {
  import opened Wrappers

  datatype Role = System | User | Assistant

  /** One `{"role": ..., "content": ...}` record. */
  datatype Message = Message(role: Role, content: string)

  /** How many of the most recent messages the weak-areas analysis reads. */
  const WindowSize: nat := 50

  /** `log[-50:]`: the last `min(50, |log|)` messages, in their original order. */
  function RecentWindow(log: seq<Message>): (w: seq<Message>)
    ensures |w| == if |log| < WindowSize then |log| else WindowSize
    ensures forall i :: 0 <= i < |w| ==> w[i] == log[|log| - |w| + i]
  {
    if |log| <= WindowSize then log else log[|log| - WindowSize..]
  }

  /** Appending one message slides the window by one: the new message enters, and the oldest leaves once the window is full. */
  lemma WindowSlides(log: seq<Message>, m: Message)
    ensures RecentWindow(log + [m]) ==
      (if |log| < WindowSize then RecentWindow(log) else RecentWindow(log)[1..]) + [m]
  {
    var w := RecentWindow(log + [m]);
    var v := (if |log| < WindowSize then RecentWindow(log) else RecentWindow(log)[1..]) + [m];
    assert |w| == |v|;
    forall i | 0 <= i < |w| ensures w[i] == v[i] {
      if i < |w| - 1 {
        assert w[i] == (log + [m])[|log| + 1 - |w| + i];
      }
    }
  }

  /** The session store: `st.session_state.graph_state`, absent until `initialize_state` runs. */
  class SessionState {
    var graphState: Option<seq<Message>>

    /** A fresh session, before any page has created the log. */
    constructor ()
      ensures graphState == None
    {
      graphState := None;
    }

    /** Creates an empty log if none exists; an existing log is left as it is. */
    method InitializeState()
      modifies this
      ensures old(graphState).None? ==> graphState == Some([])
      ensures old(graphState).Some? ==> graphState == old(graphState)
    {
      if graphState.None? {
        graphState := Some([]);
      }
    }

    /** Appends exactly one message at the end; every earlier entry and its position stay. */
    method AddMessage(role: Role, content: string)
      requires graphState.Some?
      modifies this
      ensures graphState == Some(old(graphState.value) + [Message(role, content)])
    {
      graphState := Some(graphState.value + [Message(role, content)]);
    }

    /**
     * `get_last_message`: `None` on an empty log, otherwise the entry BEFORE the
     * last one (`[-2]`). A one-entry log makes Python's `[-2]` raise, so it is
     * excluded; a missing log raises as well.
     */
    function GetLastMessage(): (r: Option<Message>)
      reads this
      requires graphState.Some? && |graphState.value| != 1
      ensures r.None? <==> graphState.value == []
      ensures r.Some? ==> r.value == graphState.value[|graphState.value| - 2]
    {
      var log := graphState.value;
      if log != [] then Some(log[|log| - 2]) else None
    }

    /** `get_message`: the last entry, or `None` (Python's `[]`) when there is no log. An empty log makes `[-1]` raise. */
    function GetMessage(): (r: Option<Message>)
      reads this
      requires graphState.Some? ==> graphState.value != []
      ensures r.None? <==> graphState.None?
      ensures r.Some? ==> r.value == graphState.value[|graphState.value| - 1]
    {
      match graphState
      case Some(log) => Some(log[|log| - 1])
      case None => None
    }

    /** `get_last_messages`: the recent window of the log, empty when there is no log. It changes nothing. */
    function GetLastMessages(): (w: seq<Message>)
      reads this
      ensures graphState.None? ==> w == []
      ensures graphState.Some? ==> |w| <= WindowSize && |w| <= |graphState.value|
      ensures graphState.Some? ==> w == graphState.value[|graphState.value| - |w|..]
      ensures graphState.Some? && |graphState.value| >= WindowSize ==> |w| == WindowSize
      ensures graphState.Some? && |graphState.value| < WindowSize ==> w == graphState.value
    {
      match graphState
      case Some(log) => RecentWindow(log)
      case None => []
    }
  }

  /** The list under `state["graph_state"]` that a workflow invocation passes from node to node and appends to in place. */
  class GraphState<T> {
    var entries: seq<T>

    constructor (initial: seq<T>)
      ensures entries == initial
    {
      entries := initial;
    }

    method Append(x: T)
      modifies this
      ensures entries == old(entries) + [x]
    {
      entries := entries + [x];
    }
  }
}
