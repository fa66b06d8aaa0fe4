/**
 * The HTTP requests, the ingest socket URL and the post-broadcast redirect that the
 * broadcast page builds by string concatenation. Each builder has a parser beside it
 * as its partner: parsing what was built gives back the values that went in.
 */
module Requests {
  import opened Wrappers
  import opened JsText

  /** The two public environment variables the page reads; an unset one is absent. */
  datatype Config = Config(liveApiUrl: Option<string>, streamWsUrl: Option<string>)

  datatype Request = Request(verb: string, url: string, headers: seq<(string, string)>, body: Option<string>)

  /** The category every broadcast is started in. */
  const CategoryId: nat := 1

  /** Headers of both broadcaster control calls, with the fixed broadcaster identity. */
  const BroadcasterHeaders: seq<(string, string)> :=
    [("Content-Type", "application/json"), ("X-Busker-Id", "busker-123")]

  const StartBodyHead := "{\"title\":"
  const StartBodyMiddle := ",\"categoryId\":"
  const StreamKeyQuery := "?streamKey="
  const HostViewHead := "/live/view/"
  const HostViewTail := "?host=true"

  // ---------------------------------------------------------------- start body

  datatype StartFields = StartFields(title: string, categoryId: nat)

  /** Decimal text of a natural number. */
  function NatDigits(n: nat): (r: string)
    ensures r != [] && forall i :: 0 <= i < |r| ==> '0' <= r[i] <= '9'
    ensures ParseNat(r) == Some(n)
    decreases n
  {
    var d := ('0' as int + n % 10) as char;
    if n < 10 then [d]
    else
      var r := NatDigits(n / 10) + [d];
      assert r[..|r| - 1] == NatDigits(n / 10);
      r
  }

  /** The value of a non-empty string of decimal digits. */
  function ParseNat(s: string): (r: Option<nat>)
    decreases |s|
  {
    if s == [] || !('0' <= s[|s| - 1] <= '9') then None
    else
      var d := s[|s| - 1] as int - '0' as int;
      if |s| == 1 then Some(d)
      else match ParseNat(s[..|s| - 1])
        case None => None
        case Some(v) => Some(v * 10 + d)
  }

  /** `JSON.stringify({ title, categoryId: 1 })`: keys in insertion order, no spaces. */
  function StartBody(title: string): string {
    StartBodyHead + Quote(title) + StartBodyMiddle + NatDigits(CategoryId) + "}"
  }

  /** Reads back a start body of the shape `{"title":<string>,"categoryId":<digits>}`. */
  function ParseStartBody(s: string): (r: Option<StartFields>) {
    if |s| < |StartBodyHead| || s[..|StartBodyHead|] != StartBodyHead then None
    else match UnquotePrefix(s[|StartBodyHead|..])
      case None => None
      case Some((title, rest)) =>
        if |rest| < |StartBodyMiddle| + 1 || rest[..|StartBodyMiddle|] != StartBodyMiddle
           || rest[|rest| - 1] != '}' then None
        else match ParseNat(rest[|StartBodyMiddle|..|rest| - 1])
          case None => None
          case Some(id) => Some(StartFields(title, id))
  }

  /** The start body carries the title exactly as given (untrimmed) and category 1. */
  lemma StartBodyRoundTrip(title: string)
    ensures ParseStartBody(StartBody(title)) == Some(StartFields(title, CategoryId))
  {
    var tail := StartBodyMiddle + NatDigits(CategoryId) + "}";
    var r := StartBody(title);
    assert r == StartBodyHead + (Quote(title) + tail);
    assert r[..|StartBodyHead|] == StartBodyHead;
    assert r[|StartBodyHead|..] == Quote(title) + tail;
    QuoteRoundTrip(title, tail);
    assert tail[..|StartBodyMiddle|] == StartBodyMiddle;
    assert tail[|StartBodyMiddle|..|tail| - 1] == NatDigits(CategoryId);
  }

  // ---------------------------------------------------------------- URLs

  /** The stream key of a URL of the form `<base>?streamKey=<key>`. */
  function StreamKeyParam(url: string, base: string): Option<string> {
    var head := base + StreamKeyQuery;
    if |head| <= |url| && url[..|head|] == head then Some(url[|head|..]) else None
  }

  /** `${LIVE_API_URL}/start`. */
  function StartUrl(cfg: Config): string {
    Interpolate(cfg.liveApiUrl) + "/start"
  }

  /** `${LIVE_API_URL}/end?streamKey=${key}`: the key goes in verbatim, not URL-encoded. */
  function EndUrl(cfg: Config, key: Option<string>): string {
    Interpolate(cfg.liveApiUrl) + "/end" + StreamKeyQuery + Interpolate(key)
  }

  /** `${STREAM_WS_URL}?streamKey=${key}`: the ingest socket's URL. */
  function SocketUrl(cfg: Config, key: Option<string>): string {
    Interpolate(cfg.streamWsUrl) + StreamKeyQuery + Interpolate(key)
  }

  /** The end URL is the end endpoint with exactly the given key as its `streamKey`. */
  lemma EndUrlCarriesKey(cfg: Config, key: Option<string>)
    ensures StreamKeyParam(EndUrl(cfg, key), Interpolate(cfg.liveApiUrl) + "/end") == Some(Interpolate(key))
  {
    var head := Interpolate(cfg.liveApiUrl) + "/end" + StreamKeyQuery;
    assert EndUrl(cfg, key)[..|head|] == head;
  }

  /** The socket URL is the ingest base with exactly the given key as its `streamKey`. */
  lemma SocketUrlCarriesKey(cfg: Config, key: Option<string>)
    ensures StreamKeyParam(SocketUrl(cfg, key), Interpolate(cfg.streamWsUrl)) == Some(Interpolate(key))
  {
    var head := Interpolate(cfg.streamWsUrl) + StreamKeyQuery;
    assert SocketUrl(cfg, key)[..|head|] == head;
  }

  /** The stream key of a path `/live/view/<key>?host=true`. */
  function HostViewKey(path: string): Option<string> {
    if |path| < |HostViewHead| + |HostViewTail| || path[..|HostViewHead|] != HostViewHead
       || path[|path| - |HostViewTail|..] != HostViewTail then None
    else Some(path[|HostViewHead|..|path| - |HostViewTail|])
  }

  /** `/live/view/${key}?host=true`: where the broadcaster is sent once the stream has ended. */
  function HostRedirect(key: Option<string>): string {
    HostViewHead + Interpolate(key) + HostViewTail
  }

  /** The host redirect names exactly the given key and asks for the host view. */
  lemma HostRedirectCarriesKey(key: Option<string>)
    ensures HostViewKey(HostRedirect(key)) == Some(Interpolate(key))
  {
    var r := HostRedirect(key);
    assert r[..|HostViewHead|] == HostViewHead;
    assert r[|r| - |HostViewTail|..] == HostViewTail;
    assert r[|HostViewHead|..|r| - |HostViewTail|] == Interpolate(key);
  }

  // ---------------------------------------------------------------- requests

  /** `POST ${LIVE_API_URL}/start` with the broadcaster headers and the start body. */
  function StartRequest(cfg: Config, title: string): Request {
    Request("POST", StartUrl(cfg), BroadcasterHeaders, Some(StartBody(title)))
  }

  /** `POST ${LIVE_API_URL}/end?streamKey=${key}` with the broadcaster headers and no body. */
  function EndRequest(cfg: Config, key: Option<string>): Request {
    Request("POST", EndUrl(cfg, key), BroadcasterHeaders, None)
  }

  /** The start request is a POST to the start endpoint whose body reads back as the title as typed
      (not trimmed) and category 1. */
  lemma StartRequestCarriesTitle(cfg: Config, title: string)
    ensures var r := StartRequest(cfg, title);
      r.verb == "POST" && r.url == StartUrl(cfg) && r.headers == BroadcasterHeaders &&
      r.body.Some? && ParseStartBody(r.body.value) == Some(StartFields(title, CategoryId))
  {
    StartBodyRoundTrip(title);
  }

  /** The end request is a bodiless POST whose URL carries exactly the given key. */
  lemma EndRequestCarriesKey(cfg: Config, key: Option<string>)
    ensures var r := EndRequest(cfg, key);
      r.verb == "POST" && r.headers == BroadcasterHeaders && r.body.None? &&
      StreamKeyParam(r.url, Interpolate(cfg.liveApiUrl) + "/end") == Some(Interpolate(key))
  {
    EndUrlCarriesKey(cfg, key);
  }
}
