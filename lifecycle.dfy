/**
 * The broadcast page's start and stop handlers as specifications: each handler
 * run is a trace of effects (React state setters and calls into the browser or
 * the network, in the order the handler performs them), and the page's visible
 * state is the fold of its setters over the trace.
 */
module Lifecycle {
  import opened Wrappers
  import opened JsText
  import opened Requests

  const TitleRequiredMessage := "제목을 입력해주세요."
  const StartFailedMessage := "스트리밍을 시작할 수 없습니다."
  /** The recorder's timeslice in milliseconds. */
  const Timeslice: nat := 1000

  datatype Effect =
    // React state setters
    | SetErrorMessage(message: Option<string>)
    | SetLoading(loading: bool)
    | SetStreamKey(key: Option<string>)
    | SetSocket(held: bool)
    | SetStreaming(streaming: bool)
    // calls into the browser and the network
    | AcquireMedia                       // getUserMedia({ video: true, audio: true })
    | AttachPreview                      // the preview element's srcObject := the stream
    | Post(request: Request)             // fetch
    | OpenSocket(url: string)            // new WebSocket(url)
    | CreateRecorder                     // new MediaRecorder(stream, { mimeType })
    | StartRecorder(timeslice: nat)      // mediaRecorder.start(timeslice)
    | CloseSocket                        // ws.close()
    | Navigate(path: string)             // router.push(path)
  {
    predicate IsCall() {
      !(SetErrorMessage? || SetLoading? || SetStreamKey? || SetSocket? || SetStreaming?)
    }
  }

  /** The page state the handlers set. */
  datatype View = View(isLoading: bool, isStreaming: bool, errorMessage: Option<string>,
                       streamKey: Option<string>, socketHeld: bool)

  const Initial := View(false, false, None, None, false)

  function Apply(v: View, e: Effect): View {
    match e
    case SetErrorMessage(m) => v.(errorMessage := m)
    case SetLoading(b) => v.(isLoading := b)
    case SetStreamKey(k) => v.(streamKey := k)
    case SetSocket(b) => v.(socketHeld := b)
    case SetStreaming(b) => v.(isStreaming := b)
    case _ => v
  }

  /** The state after the setters of a trace, in order. */
  function Run(v: View, t: seq<Effect>): View
    decreases |t|
  {
    if t == [] then v else Run(Apply(v, t[0]), t[1..])
  }

  lemma {:induction false} RunAppend(v: View, a: seq<Effect>, b: seq<Effect>)
    ensures Run(v, a + b) == Run(Run(v, a), b)
    decreases |a|
  {
    if a == [] {
      assert a + b == b;
    } else {
      assert (a + b)[0] == a[0] && (a + b)[1..] == a[1..] + b;
      RunAppend(Apply(v, a[0]), a[1..], b);
    }
  }

  lemma RunSnoc(v: View, t: seq<Effect>, e: Effect)
    ensures Run(v, t + [e]) == Apply(Run(v, t), e)
  {
    RunAppend(v, t, [e]);
  }

  /** A trace without setters leaves the state as it is. */
  lemma {:induction false} RunCalls(v: View, t: seq<Effect>)
    requires forall i :: 0 <= i < |t| ==> t[i].IsCall()
    ensures Run(v, t) == v
    decreases |t|
  {
    if t != [] {
      RunCalls(v, t[1..]);
    }
  }

  /** The setters that `startStreaming` guards with its title check and its `finally` block. */
  predicate SetsFlag(e: Effect) {
    e.SetLoading? || e.SetErrorMessage? || e.SetStreaming?
  }

  /** A trace that sets none of loading, error message and streaming leaves those three as they are. */
  lemma {:induction false} RunKeepsFlags(v: View, t: seq<Effect>)
    requires forall i :: 0 <= i < |t| ==> !SetsFlag(t[i])
    ensures var w := Run(v, t);
      w.isLoading == v.isLoading && w.errorMessage == v.errorMessage && w.isStreaming == v.isStreaming
    decreases |t|
  {
    if t != [] {
      RunKeepsFlags(Apply(v, t[0]), t[1..]);
    }
  }

  lemma RunCons(v: View, e: Effect, t: seq<Effect>)
    ensures Run(v, [e] + t) == Run(Apply(v, e), t)
  {
    assert ([e] + t)[0] == e && ([e] + t)[1..] == t;
  }

  /** Every occurrence of `b` in `t` comes after some occurrence of `a`. */
  ghost predicate Precedes(t: seq<Effect>, a: Effect, b: Effect) {
    forall j :: 0 <= j < |t| && t[j] == b ==> a in t[..j]
  }

  // ---------------------------------------------------------------- start

  /** What `response.json()` and `raw.result.streamKey` give. */
  datatype StartReply =
    | Unparsable                         // the body is not JSON: json() rejects
    | NoResult                           // raw.result is missing: reading streamKey throws
    | Reply(streamKey: Option<string>)   // raw.result.streamKey, possibly undefined

  datatype StartResponse = StartThrew | StartStatus(status: nat, reply: StartReply)

  /** `response.ok`: a status in the 2xx range. */
  predicate IsOk(status: nat) {
    200 <= status <= 299
  }

  /** How each browser or network call of a start attempt turns out. */
  datatype StartOutcome = StartOutcome(
    mediaGranted: bool,       // getUserMedia resolves
    response: StartResponse,  // the start call
    socketCreated: bool,      // new WebSocket does not throw
    recorderCreated: bool,    // new MediaRecorder does not throw
    recorderStarted: bool)    // mediaRecorder.start does not throw

  predicate Accepted(o: StartOutcome) {
    o.mediaGranted && o.response.StartStatus? && IsOk(o.response.status) && o.response.reply.Reply?
  }

  predicate Succeeds(o: StartOutcome) {
    Accepted(o) && o.socketCreated && o.recorderCreated && o.recorderStarted
  }

  /** The key a start attempt stores, when the server accepted it. */
  function IssuedKey(o: StartOutcome): Option<string>
    requires Accepted(o)
  {
    o.response.reply.streamKey
  }

  const Caught: seq<Effect> := [SetErrorMessage(Some(StartFailedMessage))]

  /** The first stage of the `try` block: media, the preview, the start call. */
  function RequestEffects(cfg: Config, title: string): seq<Effect> {
    [AcquireMedia, AttachPreview, Post(StartRequest(cfg, title))]
  }

  /** The second stage: store the key, open the socket at the URL built from it. */
  function ConnectEffects(cfg: Config, key: Option<string>): seq<Effect> {
    [SetStreamKey(key), OpenSocket(SocketUrl(cfg, key))]
  }

  /** The third stage: hold the socket, create the recorder, start it. */
  const RecordEffects: seq<Effect> := [SetSocket(true), CreateRecorder, StartRecorder(Timeslice)]

  /** Every effect of the `try` block of a start whose calls all succeed, in program order. */
  function FullProgress(cfg: Config, title: string, key: Option<string>): seq<Effect> {
    RequestEffects(cfg, title) + (ConnectEffects(cfg, key) + RecordEffects)
  }

  /** The effects of the second and third stages up to the first call that throws. */
  function LaterProgress(cfg: Config, key: Option<string>, o: StartOutcome): (p: seq<Effect>)
    ensures p <= ConnectEffects(cfg, key) + RecordEffects
    ensures o.socketCreated && o.recorderCreated ==> p == ConnectEffects(cfg, key) + RecordEffects
    ensures forall i :: 0 <= i < |p| ==> !SetsFlag(p[i])
  {
    if !o.socketCreated then ConnectEffects(cfg, key)
    else if !o.recorderCreated then ConnectEffects(cfg, key) + RecordEffects[..2]
    else ConnectEffects(cfg, key) + RecordEffects
  }

  /** The effects of the `try` block up to and including the first call that throws (or all of them).
      Whatever fails, what happened is a prefix of the full sequence: media, then the start call,
      then the key, then the socket, then the recorder. */
  function Progress(cfg: Config, title: string, o: StartOutcome): (p: seq<Effect>)
    ensures p <= FullProgress(cfg, title, if Accepted(o) then IssuedKey(o) else None)
    ensures Succeeds(o) ==> p == FullProgress(cfg, title, IssuedKey(o))
    ensures forall i :: 0 <= i < |p| ==> !SetsFlag(p[i])
  {
    if !o.mediaGranted then RequestEffects(cfg, title)[..1]
    else if !Accepted(o) then RequestEffects(cfg, title)
    else RequestEffects(cfg, title) + LaterProgress(cfg, IssuedKey(o), o)
  }

  /** How far a start attempt gets, split at the server's answer. */
  lemma ProgressSplits(cfg: Config, title: string, o: StartOutcome)
    ensures !Accepted(o) ==>
      Progress(cfg, title, o) == if o.mediaGranted then RequestEffects(cfg, title) else RequestEffects(cfg, title)[..1]
    ensures Accepted(o) ==> Progress(cfg, title, o) == RequestEffects(cfg, title) + LaterProgress(cfg, IssuedKey(o), o)
  {
  }

  /** How the `try` block ends: streaming is set after the last call succeeds,
      and a throw anywhere runs the `catch` block instead. */
  function Settle(o: StartOutcome): seq<Effect> {
    if Succeeds(o) then [SetStreaming(true)] else Caught
  }

  /** startStreaming: the title check, then the `try` block, then the `finally` block. */
  function StartTrace(cfg: Config, title: string, o: StartOutcome): seq<Effect> {
    if IsBlank(title) then [SetErrorMessage(Some(TitleRequiredMessage))]
    else [SetLoading(true), SetErrorMessage(None)] + Progress(cfg, title, o) + Settle(o) + [SetLoading(false)]
  }

  /** A blank title makes no call at all and only sets the error message; loading is untouched. */
  lemma BlankTitleFailsFast(cfg: Config, title: string, o: StartOutcome, v: View)
    requires IsBlank(title)
    ensures forall e :: e in StartTrace(cfg, title, o) ==> !e.IsCall()
    ensures Run(v, StartTrace(cfg, title, o)) == v.(errorMessage := Some(TitleRequiredMessage))
  {
    RunCons(v, SetErrorMessage(Some(TitleRequiredMessage)), []);
  }

  /** After the title check the attempt begins with loading on and ends with loading off,
      whatever happens in between. */
  lemma ValidatedStartBracketsLoading(cfg: Config, title: string, o: StartOutcome, v: View)
    requires !IsBlank(title)
    ensures var t := StartTrace(cfg, title, o);
      t[0] == SetLoading(true) && t[|t| - 1] == SetLoading(false) && !Run(v, t).isLoading
  {
    var t := StartTrace(cfg, title, o);
    assert t == ([SetLoading(true), SetErrorMessage(None)] + Progress(cfg, title, o) + Settle(o)) + [SetLoading(false)];
    RunSnoc(v, [SetLoading(true), SetErrorMessage(None)] + Progress(cfg, title, o) + Settle(o), SetLoading(false));
  }

  /** Splits a validated attempt into its leading setters, its progress, its last step and `finally`. */
  lemma StartRun(cfg: Config, title: string, o: StartOutcome, v: View, last: Effect)
    requires !IsBlank(title)
    requires last == if Succeeds(o) then SetStreaming(true) else SetErrorMessage(Some(StartFailedMessage))
    ensures var w := Run(v, StartTrace(cfg, title, o));
      var u := Run(v.(isLoading := true, errorMessage := None), Progress(cfg, title, o));
      w == Apply(Apply(u, last), SetLoading(false))
  {
    var pre := [SetLoading(true), SetErrorMessage(None)];
    var p := Progress(cfg, title, o);
    assert Settle(o) == [last];
    RunSnoc(v, pre + p + [last], SetLoading(false));
    RunSnoc(v, pre + p, last);
    RunAppend(v, pre, p);
    RunCons(v, SetLoading(true), [SetErrorMessage(None)]);
    RunCons(v.(isLoading := true), SetErrorMessage(None), []);
  }

  /** The validated start trace, in the order the page emits it one piece at a time. */
  lemma StartTraceSteps(cfg: Config, title: string, o: StartOutcome, t0: seq<Effect>)
    requires !IsBlank(title)
    ensures t0 + [SetLoading(true), SetErrorMessage(None)] + Progress(cfg, title, o) +
      (if Succeeds(o) then [SetStreaming(true)] else []) +
      (if Succeeds(o) then [] else Caught) + [SetLoading(false)] == t0 + StartTrace(cfg, title, o)
  {
    var p := Progress(cfg, title, o);
    assert Settle(o) == (if Succeeds(o) then [SetStreaming(true)] else []) + (if Succeeds(o) then [] else Caught);
  }

  /** A start attempt that fails anywhere after the title check leaves the page not streaming,
      shows the failure message and ends with loading off. */
  lemma StartFailureRestoresFlags(cfg: Config, title: string, o: StartOutcome, v: View)
    requires !IsBlank(title) && !Succeeds(o)
    ensures var w := Run(v, StartTrace(cfg, title, o));
      !w.isLoading && w.isStreaming == v.isStreaming && w.errorMessage == Some(StartFailedMessage)
  {
    StartRun(cfg, title, o, v, SetErrorMessage(Some(StartFailedMessage)));
    RunKeepsFlags(v.(isLoading := true, errorMessage := None), Progress(cfg, title, o));
  }

  /** A trace free of flag setters does not contain a streaming setter either. */
  lemma NoFlagNoStreaming(p: seq<Effect>)
    requires forall i :: 0 <= i < |p| ==> !SetsFlag(p[i])
    ensures SetStreaming(true) !in p
  {
  }

  /** A failed start attempt never sets streaming at all. */
  lemma StartFailureNeverStreams(cfg: Config, title: string, o: StartOutcome)
    requires !Succeeds(o)
    ensures SetStreaming(true) !in StartTrace(cfg, title, o)
  {
    if !IsBlank(title) {
      var p := Progress(cfg, title, o);
      NoFlagNoStreaming(p);
      assert StartTrace(cfg, title, o) == [SetLoading(true), SetErrorMessage(None)] + p + Caught + [SetLoading(false)];
    }
  }

  /** The page state the effects of a fully successful `try` block produce: the key and the socket. */
  lemma FullProgressRun(cfg: Config, title: string, key: Option<string>, v: View)
    ensures Run(v, FullProgress(cfg, title, key)) == v.(streamKey := key, socketHeld := true)
  {
    var req := RequestEffects(cfg, title);
    var rest := [SetStreamKey(key)] + ([OpenSocket(SocketUrl(cfg, key))] +
      ([SetSocket(true)] + [CreateRecorder, StartRecorder(Timeslice)]));
    assert FullProgress(cfg, title, key) == req + rest;
    RunAppend(v, req, rest);
    RunCalls(v, req);
    RunCons(v, SetStreamKey(key), rest[1..]);
    RunCons(v.(streamKey := key), OpenSocket(SocketUrl(cfg, key)), rest[2..]);
    RunCons(v.(streamKey := key), SetSocket(true), rest[3..]);
    RunCalls(v.(streamKey := key, socketHeld := true), rest[3..]);
  }

  /** A successful start stores the key from the response, holds the socket, clears the error,
      and leaves the page streaming and not loading. */
  lemma StartSuccess(cfg: Config, title: string, o: StartOutcome, v: View)
    requires !IsBlank(title) && Succeeds(o)
    ensures Run(v, StartTrace(cfg, title, o)) == v.(isLoading := false, isStreaming := true,
      errorMessage := None, streamKey := IssuedKey(o), socketHeld := true)
  {
    StartRun(cfg, title, o, v, SetStreaming(true));
    FullProgressRun(cfg, title, IssuedKey(o), v.(isLoading := true, errorMessage := None));
  }

  /** On success streaming is set, and only after the recorder was started. */
  lemma StreamingAfterRecorder(cfg: Config, title: string, o: StartOutcome)
    requires !IsBlank(title) && Succeeds(o)
    ensures Precedes(StartTrace(cfg, title, o), StartRecorder(Timeslice), SetStreaming(true))
    ensures SetStreaming(true) in StartTrace(cfg, title, o)
  {
    var p := Progress(cfg, title, o);
    var t := StartTrace(cfg, title, o);
    assert t == [SetLoading(true), SetErrorMessage(None)] + p + [SetStreaming(true), SetLoading(false)];
    assert t[2 + |p|] == SetStreaming(true);
    forall j | 0 <= j < |t| && t[j] == SetStreaming(true)
      ensures StartRecorder(Timeslice) in t[..j]
    {
      assert j == 2 + |p|;
      assert t[..j][j - 1] == p[|p| - 1] == StartRecorder(Timeslice);
    }
  }

  // ---------------------------------------------------------------- stop

  datatype EndOutcome = EndThrew | EndStatus(status: nat)

  /** The recorder's `onstop` handler: close the socket, drop it and clear streaming, call end,
      and navigate to the host view whatever the status; a rejected end call ends the handler. */
  function StopTrace(cfg: Config, key: Option<string>, e: EndOutcome): seq<Effect> {
    var ended := [CloseSocket, SetSocket(false), SetStreaming(false), Post(EndRequest(cfg, key))];
    if e.EndStatus? then ended + [Navigate(HostRedirect(key))] else ended
  }

  /** The socket is closed and streaming cleared before the end call, which is always issued. */
  lemma StopClosesBeforeEnd(cfg: Config, key: Option<string>, e: EndOutcome)
    ensures var t := StopTrace(cfg, key, e);
      Post(EndRequest(cfg, key)) in t &&
      Precedes(t, CloseSocket, Post(EndRequest(cfg, key))) &&
      Precedes(t, SetStreaming(false), Post(EndRequest(cfg, key)))
  {
    var t := StopTrace(cfg, key, e);
    forall j | 0 <= j < |t| && t[j] == Post(EndRequest(cfg, key))
      ensures CloseSocket in t[..j] && SetStreaming(false) in t[..j]
    {
      assert j == 3;
      assert t[..j][0] == CloseSocket && t[..j][2] == SetStreaming(false);
    }
  }

  /** Navigation to the host view, with the key in its path, follows any response status and
      comes after the end call; only an end call that rejects skips it. */
  lemma StopNavigatesWhateverStatus(cfg: Config, key: Option<string>, e: EndOutcome)
    ensures Navigate(HostRedirect(key)) in StopTrace(cfg, key, e) <==> e.EndStatus?
    ensures forall p :: Navigate(p) in StopTrace(cfg, key, e) ==> HostViewKey(p) == Some(Interpolate(key))
    ensures Precedes(StopTrace(cfg, key, e), Post(EndRequest(cfg, key)), Navigate(HostRedirect(key)))
  {
    HostRedirectCarriesKey(key);
    var t := StopTrace(cfg, key, e);
    forall j | 0 <= j < |t| && t[j] == Navigate(HostRedirect(key))
      ensures Post(EndRequest(cfg, key)) in t[..j]
    {
      assert j == 4;
      assert t[..j][3] == Post(EndRequest(cfg, key));
    }
  }

  /** After the stop handler the page is neither streaming nor holding a socket; nothing else changes. */
  lemma StopClearsStreaming(cfg: Config, key: Option<string>, e: EndOutcome, v: View)
    ensures Run(v, StopTrace(cfg, key, e)) == v.(isStreaming := false, socketHeld := false)
  {
    var r := Post(EndRequest(cfg, key));
    var tail := if e.EndStatus? then [Navigate(HostRedirect(key))] else [];
    assert StopTrace(cfg, key, e) == [CloseSocket] + ([SetSocket(false)] + ([SetStreaming(false)] + ([r] + tail)));
    RunCons(v, CloseSocket, [SetSocket(false)] + ([SetStreaming(false)] + ([r] + tail)));
    RunCons(v, SetSocket(false), [SetStreaming(false)] + ([r] + tail));
    RunCons(v.(socketHeld := false), SetStreaming(false), [r] + tail);
    RunCons(v.(socketHeld := false, isStreaming := false), r, tail);
    RunCalls(v.(socketHeld := false, isStreaming := false), tail);
  }
}
