/**
 * The broadcaster page (`StartStreamingPage`): its React state, the recorder it keeps in a
 * ref, and the socket, queue and stream key that the recorder's handlers capture when a
 * start succeeds. Every handler is one method; the browser's and the network's answers
 * are its parameters, and the environment may call any handler whose precondition holds,
 * in any order (a timer firing, a chunk arriving, the socket changing state, a click).
 */
module Broadcast {
  import opened Wrappers
  import opened JsText
  import opened Requests
  import opened Lifecycle
  import opened Ingest

  /** What `mediaRecorderRef.current` holds. `Stopping`: `stop()` was called and the recorder's
      final `dataavailable` and `stop` events are still to be delivered. */
  datatype RecorderState = NoRecorder | Inactive | Recording | Stopping

  class BroadcastPage {
    const cfg: Config
    var title: string
    var isLoading: bool
    var isStreaming: bool
    var errorMessage: Option<string>
    var currentStreamKey: Option<string>
    /** The `socket` state variable; the page only ever sets it. */
    var socket: Socket?
    var recorder: RecorderState
    /** The socket, send queue and stream key captured by the current recorder's handlers. */
    var ws: Socket?
    var queue: ChunkQueue
    var sessionKey: Option<string>
    /** processQueue timeouts scheduled and not yet fired for the current queue. */
    var timers: nat
    /** Chunks that passed the `ondataavailable` guard and whose `arrayBuffer()` is still awaited. */
    var reading: seq<Chunk>
    /** Every state setter and external call the page has performed, in order. */
    ghost var trace: seq<Effect>

    ghost function State(): View
      reads this
    {
      View(isLoading, isStreaming, errorMessage, currentStreamKey, socket != null)
    }

    /** The visible state is exactly what the recorded setters produce. */
    ghost predicate Tracked()
      reads this
    {
      State() == Run(Initial, trace)
    }

    ghost predicate Valid()
      reads this, queue, ws
    {
      Tracked() &&
      // startStreaming runs to completion in one step, so loading is never seen on
      !isLoading &&
      queue.Valid() && !queue.isSending &&
      (isStreaming <==> recorder.Recording? || recorder.Stopping?) &&
      (isStreaming ==> socket == ws) &&
      (ws == null <==> recorder.NoRecorder?) &&
      (ws == null ==> queue.delivered == [] && queue.items == [] && timers == 0 && reading == []) &&
      // the queue is the only sender on its socket
      (ws != null ==> ws.sent == queue.delivered) &&
      // once the handlers' recorder is no longer recording, its timer chain and its pending reads
      // can only find the socket closing or closed
      (!isStreaming && (timers > 0 || reading != []) ==> ws != null && ws.readyState.Rank() >= 2)
    }

    constructor (cfg: Config)
      ensures Valid() && this.cfg == cfg && title == "" && State() == Initial && trace == []
      ensures recorder == NoRecorder && ws == null && socket == null
    {
      this.cfg := cfg;
      title := "";
      isLoading, isStreaming := false, false;
      errorMessage, currentStreamKey := None, None;
      socket := null;
      recorder := NoRecorder;
      ws := null;
      queue := new ChunkQueue();
      sessionKey := None;
      timers := 0;
      reading := [];
      trace := [];
    }

    /** A React state setter or an external call other than `setSocket`, recorded in the trace. */
    method Dispatch(e: Effect)
      requires Tracked() && !e.SetSocket?
      modifies this
      ensures Tracked() && trace == old(trace) + [e]
      ensures socket == old(socket) && Kept()
    {
      match e {
        case SetErrorMessage(m) => errorMessage := m;
        case SetLoading(b) => isLoading := b;
        case SetStreamKey(k) => currentStreamKey := k;
        case SetStreaming(b) => isStreaming := b;
        case _ =>
      }
      RunSnoc(Initial, trace, e);
      trace := trace + [e];
    }

    /** `setSocket(s)`. */
    method HoldSocket(s: Socket?)
      requires Tracked()
      modifies this
      ensures Tracked() && trace == old(trace) + [SetSocket(s != null)] && socket == s && Kept()
    {
      socket := s;
      RunSnoc(Initial, trace, SetSocket(s != null));
      trace := trace + [SetSocket(s != null)];
    }

    /** The handlers' captures, the recorder and the title are as before. */
    twostate predicate Kept()
      reads this
    {
      title == old(title) && recorder == old(recorder) && ws == old(ws) && queue == old(queue) &&
      sessionKey == old(sessionKey) && timers == old(timers) && reading == old(reading)
    }

    /** What a recorder created by the current start captured: the socket just opened on the
        key's URL and held in the socket state, an empty queue, and no pending read or timer. */
    ghost predicate FreshCapture(key: Option<string>, started: bool)
      reads this, ws, queue
    {
      ws != null && ws == socket && ws.url == SocketUrl(cfg, key) && ws.readyState == Connecting &&
      ws.sent == [] && queue.Valid() && !queue.isSending && queue.items == [] && queue.delivered == [] &&
      reading == [] && sessionKey == key && timers == 0 &&
      recorder == if started then Recording else Inactive
    }

    /** Over any run, what the captured socket was given is a prefix of what was queued, in
        queue order, and the rest of the queue is exactly what is still to go. */
    lemma SentPrefixOfEnqueued()
      requires Valid() && ws != null
      ensures ws.sent <= queue.enqueued && queue.enqueued == ws.sent + queue.items
    {
    }

    /** Typing in the title field, which is shown only while not streaming. */
    method SetTitle(t: string)
      requires Valid() && !isStreaming
      modifies this`title
      ensures Valid() && title == t
    {
      title := t;
    }

    /** Getting media, attaching the preview and posting the start request; a rejected
        getUserMedia, a rejected fetch, a non-2xx status or an unusable reply throws. */
    method RequestStage(o: StartOutcome) returns (thrown: bool)
      requires Tracked()
      modifies this
      ensures Tracked() && Kept() && socket == old(socket) && thrown == !Accepted(o)
      ensures trace == old(trace) +
        if o.mediaGranted then RequestEffects(cfg, title) else RequestEffects(cfg, title)[..1]
    {
      Dispatch(AcquireMedia);
      if !o.mediaGranted {
        return true;
      }
      Dispatch(AttachPreview);
      Dispatch(Post(StartRequest(cfg, title)));
      thrown := !Accepted(o);
    }

    /** Storing the key and opening the socket on the URL built from it; answers the new
        socket, or null when the constructor throws. */
    method ConnectStage(key: Option<string>, created: bool) returns (s: Socket?)
      requires Tracked()
      modifies this
      ensures Tracked() && Kept() && (s != null <==> created)
      ensures trace == old(trace) + ConnectEffects(cfg, key) + if created then RecordEffects[..1] else []
      ensures created ==>
        fresh(s) && socket == s && s.url == SocketUrl(cfg, key) && s.readyState == Connecting && s.sent == []
      ensures !created ==> socket == old(socket)
    {
      Dispatch(SetStreamKey(key));
      var url := SocketUrl(cfg, key);
      Dispatch(OpenSocket(url));
      if !created {
        return null;
      }
      s := new Socket(url);
      HoldSocket(s);
    }

    /** The new recorder, still inactive, and what its handlers capture: the socket, a fresh
        queue and the stream key. No state setter runs. */
    method Capture(s: Socket, key: Option<string>)
      modifies this
      ensures recorder == Inactive && ws == s && fresh(queue) && queue.Valid() && !queue.isSending &&
        queue.items == [] && queue.delivered == [] && sessionKey == key && timers == 0 && reading == []
      ensures State() == old(State()) && trace == old(trace) && title == old(title) && socket == old(socket)
    {
      recorder := Inactive;
      queue := new ChunkQueue();
      ws, sessionKey, timers, reading := s, key, 0, [];
    }

    /** Creating the recorder, whose handlers capture the socket, a fresh queue and the key,
        starting it and setting streaming; either call may throw. */
    method RecordStage(s: Socket, key: Option<string>, o: StartOutcome) returns (thrown: bool)
      requires Tracked()
      modifies this
      ensures Tracked() && title == old(title) && socket == old(socket) && thrown == !(o.recorderCreated && o.recorderStarted)
      ensures trace == old(trace) + RecordEffects[1..2] +
        if !o.recorderCreated then [] else RecordEffects[2..] + if thrown then [] else [SetStreaming(true)]
      ensures !o.recorderCreated ==> Kept()
      ensures o.recorderCreated ==>
        ws == s && fresh(queue) && queue.Valid() && !queue.isSending && queue.items == [] &&
        queue.delivered == [] && sessionKey == key && timers == 0 && reading == [] &&
        recorder == if o.recorderStarted then Recording else Inactive
    {
      Dispatch(CreateRecorder);
      if !o.recorderCreated {
        return true;
      }
      Capture(s, key);
      Dispatch(StartRecorder(Timeslice));
      if !o.recorderStarted {
        return true;
      }
      recorder := Recording;
      Dispatch(SetStreaming(true));
      thrown := false;
    }

    /** The second and third stages of the `try` block, once the server issued a key. */
    method ConnectAndRecord(key: Option<string>, o: StartOutcome) returns (thrown: bool)
      requires Tracked()
      modifies this
      ensures Tracked() && title == old(title) && thrown == !(o.socketCreated && o.recorderCreated && o.recorderStarted)
      ensures trace == old(trace) + LaterProgress(cfg, key, o) + (if thrown then [] else [SetStreaming(true)])
      ensures !o.recorderCreated || !o.socketCreated ==> Kept()
      ensures o.socketCreated && o.recorderCreated ==>
        fresh(ws) && fresh(queue) && FreshCapture(key, o.recorderStarted)
    {
      ghost var t0 := trace;
      var s := ConnectStage(key, o.socketCreated);
      if s == null {
        return true;
      }
      thrown := RecordStage(s, key, o);
      if !o.recorderCreated {
        assert RecordEffects[..1] + RecordEffects[1..2] == RecordEffects[..2];
        assert trace == t0 + (ConnectEffects(cfg, key) + RecordEffects[..2]);
      } else {
        assert RecordEffects[..1] + RecordEffects[1..2] + RecordEffects[2..] == RecordEffects;
        assert trace == t0 + (ConnectEffects(cfg, key) + RecordEffects) + (if thrown then [] else [SetStreaming(true)]);
      }
    }

    /**
     * The `try` block of startStreaming: the stages above in order, stopping at the first call
     * that throws; answers whether one did.
     */
    method TryStart(o: StartOutcome) returns (thrown: bool)
      requires Tracked()
      modifies this
      ensures Tracked() && thrown == !Succeeds(o) && title == old(title)
      ensures trace == old(trace) + Progress(cfg, title, o) + (if thrown then [] else [SetStreaming(true)])
      ensures !o.recorderCreated || !Accepted(o) || !o.socketCreated ==> Kept()
      ensures Accepted(o) && o.socketCreated && o.recorderCreated ==>
        fresh(ws) && fresh(queue) && FreshCapture(IssuedKey(o), o.recorderStarted)
    {
      ghost var t0 := trace;
      ProgressSplits(cfg, title, o);
      thrown := RequestStage(o);
      if thrown {
        assert trace + [] == trace;
        return;
      }
      var key := IssuedKey(o);
      ghost var req := RequestEffects(cfg, title);
      assert trace == t0 + req;
      thrown := ConnectAndRecord(key, o);
      ghost var later := LaterProgress(cfg, key, o);
      assert t0 + req + later == t0 + (req + later);
    }

    /**
     * startStreaming: a blank title only sets the error message; otherwise loading goes on and
     * the error is cleared, the `try` block runs, a throw sets the failure message, and the
     * `finally` block turns loading off. The button is shown only while not streaming and is
     * disabled while loading.
     */
    method StartStreaming(o: StartOutcome)
      requires Valid() && !isStreaming
      modifies this
      ensures Valid() && title == old(title)
      ensures trace == old(trace) + StartTrace(cfg, title, o)
      ensures State() == Run(old(State()), StartTrace(cfg, title, o))
      ensures IsBlank(title) ==> Kept() && socket == old(socket)
      ensures !IsBlank(title) && Accepted(o) && o.socketCreated && o.recorderCreated ==>
        fresh(ws) && fresh(queue) && FreshCapture(IssuedKey(o), o.recorderStarted)
      ensures !IsBlank(title) && !(Accepted(o) && o.socketCreated && o.recorderCreated) ==> Kept()
    {
      if IsBlank(title) {
        Dispatch(SetErrorMessage(Some(TitleRequiredMessage)));
        RunAppend(Initial, old(trace), StartTrace(cfg, title, o));
      } else {
        ValidatedStart(o);
      }
    }

    /** Loading on and the error cleared, before the `try` block. */
    method Begin()
      requires Tracked()
      modifies this
      ensures Tracked() && trace == old(trace) + [SetLoading(true), SetErrorMessage(None)]
      ensures title == old(title) && socket == old(socket) && Kept()
    {
      Dispatch(SetLoading(true));
      Dispatch(SetErrorMessage(None));
    }

    /** The `catch` block, when the `try` block threw, and then the `finally` block. */
    method Conclude(thrown: bool)
      requires Tracked()
      modifies this
      ensures Tracked() && trace == old(trace) + (if thrown then Caught else []) + [SetLoading(false)]
      ensures title == old(title) && socket == old(socket) && Kept()
    {
      if thrown {
        Dispatch(SetErrorMessage(Some(StartFailedMessage)));
      }
      Dispatch(SetLoading(false));
    }

    /** startStreaming past the title check: loading on, error cleared, `try`, `catch`, `finally`. */
    method ValidatedStart(o: StartOutcome)
      requires Valid() && !isStreaming && !IsBlank(title)
      modifies this
      ensures Valid() && title == old(title)
      ensures trace == old(trace) + StartTrace(cfg, title, o)
      ensures State() == Run(old(State()), StartTrace(cfg, title, o))
      ensures Accepted(o) && o.socketCreated && o.recorderCreated ==>
        fresh(ws) && fresh(queue) && FreshCapture(IssuedKey(o), o.recorderStarted)
      ensures !(Accepted(o) && o.socketCreated && o.recorderCreated) ==> Kept()
    {
      ghost var t0 := trace;
      Begin();
      var thrown := TryStart(o);
      Conclude(thrown);
      ghost var st := StartTrace(cfg, title, o);
      StartTraceSteps(cfg, title, o, t0);
      assert trace == t0 + st;
      RunAppend(Initial, t0, st);
      assert Run(Initial, t0) == old(State());
      assert State() == Run(old(State()), st);
      if !thrown {
        StartSuccess(cfg, title, o, old(State()));
        assert isStreaming && recorder == Recording;
      } else {
        StartFailureRestoresFlags(cfg, title, o, old(State()));
        assert !isStreaming && !isLoading;
      }
    }

    /**
     * The recorder's `ondataavailable` handler up to its `await`: a non-empty chunk that arrives
     * while the captured socket is open starts being read; any other chunk is dropped. The
     * recorder delivers data only while recording or just after `stop()`.
     */
    method OnDataAvailable(data: Chunk) returns (accepted: bool)
      requires Valid() && (recorder.Recording? || recorder.Stopping?)
      modifies this`reading
      ensures Valid()
      ensures accepted == (|data| > 0 && ws.readyState == Open)
      ensures reading == if accepted then old(reading) + [data] else old(reading)
    {
      accepted := |data| > 0 && ws.readyState == Open;
      if accepted {
        reading := reading + [data];
      }
    }

    /**
     * The rest of the `ondataavailable` handler, once the `i`-th pending `arrayBuffer()` resolves:
     * the chunk is queued and a drain step runs at once. The socket may have stopped being open
     * in the meantime; then the chunk stays queued and nothing is sent.
     */
    method ResumeChunk(i: nat) returns (sent: bool)
      requires Valid() && i < |reading|
      modifies this`reading, this`timers, queue, ws
      ensures Valid() && ws == old(ws) && queue == old(queue) && ws.readyState == old(ws.readyState)
      ensures reading == old(reading)[..i] + old(reading)[i + 1..]
      ensures queue.enqueued == old(queue.enqueued) + [old(reading)[i]]
      ensures sent == (old(ws.readyState) == Open)
      ensures sent ==>
        ws.sent == old(ws.sent) + [(old(queue.items) + [old(reading)[i]])[0]] &&
        queue.items == (old(queue.items) + [old(reading)[i]])[1..] && timers == old(timers) + 1
      ensures !sent ==>
        queue.items == old(queue.items) + [old(reading)[i]] && ws.sent == old(ws.sent) && timers == old(timers)
    {
      var chunk := reading[i];
      reading := reading[..i] + reading[i + 1..];
      queue.Push(chunk);
      sent := queue.ProcessQueue(ws);
      if sent {
        timers := timers + 1;
      }
    }

    /** One scheduled processQueue timeout fires and runs a drain step, which schedules the next. */
    method TimerFires() returns (sent: bool)
      requires Valid() && timers > 0
      modifies this`timers, queue, ws
      ensures Valid() && ws == old(ws) && queue == old(queue)
      ensures sent == (old(queue.items) != [] && old(ws.readyState) == Open)
      ensures sent ==> ws.sent == old(ws.sent) + [old(queue.items)[0]] && queue.items == old(queue.items)[1..]
      ensures !sent ==> ws.sent == old(ws.sent) && queue.items == old(queue.items)
      ensures timers == if sent then old(timers) else old(timers) - 1
      ensures queue.enqueued == old(queue.enqueued) && ws.readyState == old(ws.readyState)
    {
      timers := timers - 1;
      sent := queue.ProcessQueue(ws);
      if sent {
        timers := timers + 1;
      }
    }

    /** The network moves the captured socket forward (it opens, fails or is closed remotely). */
    method SocketChanges(next: ReadyState)
      requires Valid() && ws != null && ws.readyState.Rank() < next.Rank()
      modifies ws
      ensures Valid() && ws.readyState == next && ws.sent == old(ws.sent)
    {
      ws.Advance(next);
    }

    /** endStreaming: `mediaRecorderRef.current?.stop()`; stopping a recorder that is not
        recording does nothing. */
    method EndStreaming()
      modifies this`recorder
      requires Valid()
      ensures Valid()
      ensures recorder == if old(recorder).Recording? then Stopping else old(recorder)
    {
      if recorder.Recording? {
        recorder := Stopping;
      }
    }

    /** The state changes and calls of the `onstop` handler after `ws.close()`, in order. */
    method RecordStop(e: EndOutcome)
      requires Tracked()
      modifies this
      ensures Tracked() && trace == old(trace) + StopTrace(cfg, sessionKey, e) && socket == null && Kept()
    {
      ghost var t0 := trace;
      Dispatch(CloseSocket);
      HoldSocket(null);
      Dispatch(SetStreaming(false));
      Dispatch(Post(EndRequest(cfg, sessionKey)));
      if e.EndStatus? {
        Dispatch(Navigate(HostRedirect(sessionKey)));
      }
      assert trace == t0 + StopTrace(cfg, sessionKey, e);
    }

    /**
     * The recorder's `onstop` handler: close the captured socket, drop the socket state, clear
     * streaming, post the end request with the captured key and, once any response arrives,
     * navigate to the host view. Chunks still queued are never sent. The recorder stops after
     * `stop()` or by itself while recording (its tracks ended, or it failed).
     */
    method OnStop(e: EndOutcome)
      requires Valid() && (recorder.Recording? || recorder.Stopping?)
      modifies this, ws
      ensures Valid() && ws == old(ws) && queue == old(queue) && recorder == Inactive
      ensures title == old(title) && sessionKey == old(sessionKey) && timers == old(timers) &&
        reading == old(reading)
      ensures trace == old(trace) + StopTrace(cfg, sessionKey, e)
      ensures State() == old(State()).(isStreaming := false, socketHeld := false)
      ensures ws.readyState.Rank() >= 2 && ws.sent == old(ws.sent) && queue.items == old(queue.items)
    {
      ws.Close();
      RecordStop(e);
      recorder := Inactive;
      StopClearsStreaming(cfg, sessionKey, e, old(State()));
      RunAppend(Initial, old(trace), StopTrace(cfg, sessionKey, e));
    }
  }
}
