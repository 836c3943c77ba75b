/**
 * The socket hook of the chat page (hooks/use-websocket.ts): how an incoming
 * frame is routed to the page's callbacks, the bounded reconnect counter with
 * its backoff, the one-shot connection-error notice, and the guard on sending
 * a query. The browser's WebSocket object, timers and toasts are reduced to
 * what the hook records of them: the socket's ready state, the delay of the
 * pending retry, the notices shown and the queries sent.
 */
module Transport {
  import opened Wrappers
  import opened Text
  import opened Protocol

  /** At most this many reconnects follow one another without a successful open (hooks/use-websocket.ts:25). */
  const MaxReconnectAttempts := 3

  /** `WebSocket.readyState`. */
  datatype ReadyState = Connecting | Open | Closing | Closed

  /** A call the hook makes into the page for one frame. */
  datatype Delivery = ToError(error: string) | ToMessage(message: string)

  /** The notices the hook shows. */
  datatype Toast =
    | ConnectionError   // a socket error after a failed reconnect
    | Unreachable       // the last reconnect has failed
    | NotConnected      // a query while the socket is not open
    | SendFailed        // the socket refused the query

  /** The notices that report a failed connection; the hook shows one at most between two opens. */
  predicate IsConnectionNotice(t: Toast) {
    t == ConnectionError || t == Unreachable
  }

  function CountConnectionNotices(ts: seq<Toast>): (n: nat)
    ensures n <= |ts|
    ensures n == 0 <==> forall i :: 0 <= i < |ts| ==> !IsConnectionNotice(ts[i])
  {
    if ts == [] then 0
    else CountConnectionNotices(ts[..|ts| - 1]) + (if IsConnectionNotice(ts[|ts| - 1]) then 1 else 0)
  }

  /** A frame reports a failed query, by either of its two notices. */
  predicate ReportsFailure(message: string) {
    Contains(message, FailedNotice) || Contains(message, ExceptionNotice)
  }

  /**
   * The calls `onmessage` makes for one frame (hooks/use-websocket.ts:49-71):
   * nothing for the exact text "DONE"; otherwise `onMessage` exactly once, and
   * last, preceded by `onError` when the frame reports a failure and neither
   * carries the final SQL nor reports success.
   */
  function Route(message: string): (r: seq<Delivery>)
    ensures message == DoneToken <==> r == []
    ensures r != [] ==> r[|r| - 1] == ToMessage(message)
    ensures forall i :: 0 <= i < |r| - 1 ==> r[i] == ToError(message)
    ensures |r| == 2 <==>
              && message != DoneToken
              && !Contains(message, FinalSqlMarker)
              && !Contains(message, SuccessNotice)
              && ReportsFailure(message)
    ensures |r| <= 2
  {
    if message == DoneToken then []
    else if Contains(message, FinalSqlMarker) then [ToMessage(message)]
    else if Contains(message, SuccessNotice) then [ToMessage(message)]
    else if ReportsFailure(message) then [ToError(message), ToMessage(message)]
    else [ToMessage(message)]
  }

  /**
   * The wait before reconnect number `attempt` (hooks/use-websocket.ts:95):
   * 2 seconds per attempt, capped at 10 seconds.
   */
  function RetryDelay(attempt: nat): (d: nat)
    ensures d <= 10000 && d <= 2000 * attempt
    ensures d == 10000 || d == 2000 * attempt
  {
    if 2000 * attempt < 10000 then 2000 * attempt else 10000
  }

  /** The hook's refs and state: `useWebSocket` (hooks/use-websocket.ts:17-175). */
  class SocketHook {
    var socket: Option<ReadyState>     // wsRef.current, by its ready state; None when null
    var isConnected: bool
    var isProcessing: bool
    var reconnectAttempts: nat
    var hasShownError: bool            // hasShownErrorRef
    var retryTimer: Option<nat>        // reconnectTimeoutRef, by the delay it was set with
    var toasts: seq<Toast>             // every notice shown, oldest first
    var sent: seq<string>              // every query sent over the socket, oldest first
    ghost var lastOpen: nat            // how many notices had been shown at the last successful open

    /**
     * The counter never passes its bound, and a connection notice has been
     * shown since the last open exactly when the one-shot flag is set, so at
     * most one is shown between two opens.
     */
    ghost predicate Valid()
      reads this
    {
      && reconnectAttempts <= MaxReconnectAttempts
      && lastOpen <= |toasts|
      && CountConnectionNotices(toasts[lastOpen..]) == (if hasShownError then 1 else 0)
    }

    /** The hook on first render, before its effect connects. */
    constructor ()
      ensures Valid()
      ensures socket == None && !isConnected && !isProcessing && reconnectAttempts == 0
      ensures !hasShownError && retryTimer == None && toasts == [] && sent == []
    {
      socket := None;
      isConnected := false;
      isProcessing := false;
      reconnectAttempts := 0;
      hasShownError := false;
      retryTimer := None;
      toasts := [];
      sent := [];
      lastOpen := 0;
    }

    /**
     * `connect` (hooks/use-websocket.ts:28-117): nothing while the socket is
     * open; otherwise a new socket starts connecting, or, when the WebSocket
     * constructor throws (`constructorThrows`), the hook is marked disconnected.
     */
    method Connect(constructorThrows: bool)
      requires Valid()
      modifies this
      ensures Valid()
      ensures old(socket) == Some(Open) ==> unchanged(this)
      ensures old(socket) != Some(Open) && constructorThrows ==>
                socket == old(socket) && !isConnected
      ensures old(socket) != Some(Open) && !constructorThrows ==>
                socket == Some(Connecting) && isConnected == old(isConnected)
      ensures isProcessing == old(isProcessing) && reconnectAttempts == old(reconnectAttempts)
      ensures hasShownError == old(hasShownError) && retryTimer == old(retryTimer)
      ensures toasts == old(toasts) && sent == old(sent) && lastOpen == old(lastOpen)
    {
      if socket == Some(Open) {
        return;
      }
      if constructorThrows {
        isConnected := false;
      } else {
        socket := Some(Connecting);
      }
    }

    /** The pending retry fires and connects again (hooks/use-websocket.ts:98-100). */
    method RetryFires(constructorThrows: bool)
      requires Valid()
      modifies this
      ensures Valid()
      ensures old(retryTimer).None? ==> unchanged(this)
      ensures old(retryTimer).Some? && old(socket) != Some(Open) && !constructorThrows ==>
                socket == Some(Connecting) && retryTimer == None
      ensures reconnectAttempts == old(reconnectAttempts) && hasShownError == old(hasShownError)
      ensures toasts == old(toasts) && sent == old(sent)
    {
      if retryTimer.Some? {
        retryTimer := None;
        Connect(constructorThrows);
      }
    }

    /** `onopen` (hooks/use-websocket.ts:42-47): the counter restarts and the error notice is re-armed. */
    method OnOpen()
      requires Valid()
      modifies this
      ensures Valid()
      ensures socket == Some(Open) && isConnected
      ensures reconnectAttempts == 0 && !hasShownError && lastOpen == |toasts|
      ensures isProcessing == old(isProcessing) && retryTimer == old(retryTimer)
      ensures toasts == old(toasts) && sent == old(sent)
    {
      socket := Some(Open);
      isConnected := true;
      reconnectAttempts := 0;
      hasShownError := false;
      lastOpen := |toasts|;
    }

    /**
     * `onerror` (hooks/use-websocket.ts:73-85): the hook is marked
     * disconnected, and the connection notice is shown only after a failed
     * reconnect and only if none has been shown since the last open.
     */
    method OnError()
      requires Valid()
      modifies this
      ensures Valid()
      ensures !isConnected
      ensures !old(hasShownError) && old(reconnectAttempts) > 0 ==>
                toasts == old(toasts) + [ConnectionError] && hasShownError
      ensures old(hasShownError) || old(reconnectAttempts) == 0 ==>
                toasts == old(toasts) && hasShownError == old(hasShownError)
      ensures socket == old(socket) && isProcessing == old(isProcessing)
      ensures reconnectAttempts == old(reconnectAttempts) && retryTimer == old(retryTimer)
      ensures sent == old(sent) && lastOpen == old(lastOpen)
    {
      isConnected := false;
      if !hasShownError && reconnectAttempts > 0 {
        hasShownError := true;
        NoticeShown(ConnectionError);
      }
    }

    /**
     * `onclose` (hooks/use-websocket.ts:87-112): the answer stops processing;
     * while reconnects remain, the counter goes up and a retry is scheduled
     * after `RetryDelay` of the new count, which is returned; once they are
     * used up, the final notice is shown unless one already was.
     */
    method OnClose() returns (delay: Option<nat>)
      requires Valid()
      modifies this
      ensures Valid()
      ensures !isConnected && !isProcessing
      ensures old(reconnectAttempts) < MaxReconnectAttempts ==>
                && reconnectAttempts == old(reconnectAttempts) + 1
                && delay == Some(RetryDelay(reconnectAttempts))
                && retryTimer == delay
                && toasts == old(toasts) && hasShownError == old(hasShownError)
      ensures old(reconnectAttempts) == MaxReconnectAttempts ==>
                && reconnectAttempts == old(reconnectAttempts)
                && delay == None && retryTimer == old(retryTimer)
                && hasShownError
                && toasts == old(toasts) + (if old(hasShownError) then [] else [Unreachable])
      ensures old(socket).Some? ==> socket == Some(Closed)
      ensures old(socket).None? ==> socket == None
      ensures sent == old(sent) && lastOpen == old(lastOpen)
    {
      if socket.Some? {
        socket := Some(Closed);
      }
      isConnected := false;
      isProcessing := false;
      if reconnectAttempts < MaxReconnectAttempts {
        reconnectAttempts := reconnectAttempts + 1;
        delay := Some(RetryDelay(reconnectAttempts));
        retryTimer := delay;
      } else {
        delay := None;
        if !hasShownError {
          hasShownError := true;
          NoticeShown(Unreachable);
        }
      }
    }

    /**
     * `onmessage` (hooks/use-websocket.ts:49-71): returns the calls made into
     * the page, in order; the exact frame "DONE" only ends processing.
     */
    method OnMessage(message: string) returns (deliveries: seq<Delivery>)
      modifies this
      ensures deliveries == Route(message)
      ensures isProcessing == (old(isProcessing) && message != DoneToken)
      ensures socket == old(socket) && isConnected == old(isConnected)
      ensures reconnectAttempts == old(reconnectAttempts) && hasShownError == old(hasShownError)
      ensures retryTimer == old(retryTimer) && toasts == old(toasts) && sent == old(sent)
      ensures lastOpen == old(lastOpen)
    {
      if message == DoneToken {
        isProcessing := false;
        return [];
      }
      if Contains(message, FinalSqlMarker) {
        deliveries := [ToMessage(message)];
      } else if Contains(message, SuccessNotice) {
        deliveries := [ToMessage(message)];
      } else if Contains(message, FailedNotice) || Contains(message, ExceptionNotice) {
        deliveries := [ToError(message)];
        deliveries := deliveries + [ToMessage(message)];
      } else {
        deliveries := [ToMessage(message)];
      }
    }

    /**
     * `sendQuery` (hooks/use-websocket.ts:130-158): a query is sent only on an
     * open socket, and then the hook is processing; otherwise a notice is
     * shown and false is returned. `sendThrows` says the socket refused it.
     */
    method SendQuery(query: string, sendThrows: bool) returns (ok: bool)
      requires Valid()
      modifies this
      ensures Valid()
      ensures ok <==> old(socket) == Some(Open) && !sendThrows
      ensures ok ==> sent == old(sent) + [query] && isProcessing && toasts == old(toasts)
      ensures !ok ==> sent == old(sent) && |toasts| == |old(toasts)| + 1
      ensures old(socket) != Some(Open) ==> toasts == old(toasts) + [NotConnected] && isProcessing == old(isProcessing)
      ensures old(socket) == Some(Open) && sendThrows ==> toasts == old(toasts) + [SendFailed] && !isProcessing
      ensures socket == old(socket) && isConnected == old(isConnected)
      ensures reconnectAttempts == old(reconnectAttempts) && hasShownError == old(hasShownError)
      ensures retryTimer == old(retryTimer) && lastOpen == old(lastOpen)
    {
      if socket != Some(Open) {
        NoticeShown(NotConnected);
        return false;
      }
      isProcessing := true;
      if sendThrows {
        isProcessing := false;
        NoticeShown(SendFailed);
        return false;
      }
      sent := sent + [query];
      return true;
    }

    /**
     * `disconnect` (hooks/use-websocket.ts:119-128): the pending retry is
     * cancelled and the socket dropped. Its close event may still arrive
     * later, and `OnClose` then runs as for any close.
     */
    method Disconnect()
      requires Valid()
      modifies this
      ensures Valid()
      ensures retryTimer == None && socket == None && !isConnected
      ensures isProcessing == old(isProcessing) && reconnectAttempts == old(reconnectAttempts)
      ensures hasShownError == old(hasShownError) && toasts == old(toasts) && sent == old(sent)
      ensures lastOpen == old(lastOpen)
    {
      retryTimer := None;
      socket := None;
      isConnected := false;
    }

    /** A notice is shown; a connection notice counts towards the one-shot flag. */
    method NoticeShown(t: Toast)
      requires lastOpen <= |toasts|
      modifies this`toasts
      ensures toasts == old(toasts) + [t]
      ensures CountConnectionNotices(toasts[lastOpen..]) ==
                CountConnectionNotices(old(toasts)[lastOpen..]) + (if IsConnectionNotice(t) then 1 else 0)
    {
      toasts := toasts + [t];
      assert toasts[lastOpen..] == old(toasts)[lastOpen..] + [t];
    }
  }

  /** Across one open and the closes that follow it, the waits are 2, 4 and 6 seconds; the cap is never reached. */
  lemma RetryDelaysAfterOpen(n: nat)
    requires 1 <= n <= MaxReconnectAttempts
    ensures RetryDelay(n) == 2000 * n < 10000
  {
  }
}
