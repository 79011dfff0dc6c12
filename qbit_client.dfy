/**
 * The qBittorrent WebUI API v2 client: one mutable session cookie, a login that
 * stores it, and an authenticated request that logs in on demand and recovers
 * once from an expired session (HTTP 403).
 *
 * The network is the `Backend` class below: it answers the k-th login and the
 * k-th request from two oracle functions and logs what the client sent.
 */
module QBit {
  import opened JsValues

  /**
   * A thrown error: `error.response.status` when the server answered,
   * `error.code` for transport failures, and `error.message`.
   */
  datatype Failure = Failure(status: Option<int>, code: Option<string>, message: string)

  /** `new Error(message)`: no response and no code. */
  function NewError(message: string): Failure {
    Failure(None, None, message)
  }

  const LoginFailedMessage: string := "qBittorrent login failed"
  const ReloginFailedMessage: string := "qBittorrent re-login failed"
  const ConnectMessage: string := "Cannot connect to qBittorrent. Please ensure it is running and accessible."
  const TimeoutMessage: string := "Request to qBittorrent timed out. Please check your network connection."
  const TrimTypeErrorMessage: string := "data.trim is not a function"

  /** What `POST /auth/login` yields: a response (body and `set-cookie` entries) or a thrown error. */
  datatype LoginReply =
    | LoginResponse(data: Json, setCookie: seq<string>)
    | LoginRejected(failure: Failure)

  /** The authenticated API calls the client makes. */
  datatype ApiCall =
    | TorrentsInfo(filter: Option<string>)   // GET /torrents/info?filter=…
    | TorrentsAdd(urls: string)              // POST /torrents/add, form field `urls`

  /** What one authenticated request yields: the response body, or a thrown error. */
  datatype Attempt = Response(data: Json) | Rejected(failure: Failure)

  /** One authenticated request as the backend saw it: the call and its `Cookie` header. */
  datatype Sent = Sent(call: ApiCall, cookie: string)

  /** The qBittorrent server, as an oracle with a log. */
  class Backend {
    /** The answer to the k-th login (counting from 0). */
    const loginReply: nat -> LoginReply
    /** The answer to the k-th authenticated request, given the call and the cookie sent. */
    const reply: (nat, ApiCall, string) -> Attempt
    /** The number of logins posted so far. */
    var logins: nat
    /** Every authenticated request sent so far, in order. */
    var sent: seq<Sent>

    constructor (loginReply: nat -> LoginReply, reply: (nat, ApiCall, string) -> Attempt)
      ensures this.loginReply == loginReply && this.reply == reply
      ensures logins == 0 && sent == []
    {
      this.loginReply := loginReply;
      this.reply := reply;
      logins := 0;
      sent := [];
    }

    method PostLogin() returns (r: LoginReply)
      modifies this
      ensures logins == old(logins) + 1 && sent == old(sent)
      ensures r == loginReply(old(logins))
    {
      r := loginReply(logins);
      logins := logins + 1;
    }

    method Send(call: ApiCall, cookie: string) returns (a: Attempt)
      modifies this
      ensures sent == old(sent) + [Sent(call, cookie)] && logins == old(logins)
      ensures a == reply(|old(sent)|, call, cookie)
    {
      a := reply(|sent|, call, cookie);
      sent := sent + [Sent(call, cookie)];
    }
  }

  /** `header.split(';')[0]`: the part of a `set-cookie` entry before its first attribute. */
  function CookiePrefix(header: string): (r: string)
    ensures |r| <= |header| && r == header[..|r|]
    ensures ';' !in r
    ensures |r| < |header| ==> header[|r|] == ';'
  {
    if header == [] || header[0] == ';' then []
    else [header[0]] + CookiePrefix(header[1..])
  }

  /** The condition under which `login` succeeds. */
  predicate LoginAccepted(reply: LoginReply) {
    && reply.LoginResponse?
    && reply.data.JStr?
    && Padded(reply.data.s, OkAck)
    && |reply.setCookie| > 0
    && reply.setCookie[0] != ""
  }

  /**
   * The login condition in the code's own terms: `typeof data === 'string'`,
   * `data.trim() === 'Ok.'` and a truthy `set-cookie[0]`.
   */
  lemma LoginAcceptedIffTrimmedOk(reply: LoginReply)
    ensures LoginAccepted(reply) <==>
      && reply.LoginResponse? && reply.data.JStr? && Trim(reply.data.s) == OkAck
      && |reply.setCookie| > 0 && Truthy(JStr(reply.setCookie[0]))
  {
    if reply.LoginResponse? && reply.data.JStr? {
      TrimOkIffPadded(reply.data.s);
    }
  }

  /**
   * The session cookie a login reply establishes, or None when the login fails:
   * success needs a string body that trims to "Ok." and a non-empty first
   * `set-cookie` entry, whose part before the first ';' becomes the cookie.
   */
  function LoginCookie(reply: LoginReply): (c: Option<string>)
    ensures c.Some? <==> LoginAccepted(reply)
    ensures c.Some? ==> c.value == CookiePrefix(reply.setCookie[0])
  {
    match reply
    case LoginRejected(_) => None
    case LoginResponse(data, setCookie) =>
      if data.JStr? && Trim(data.s) == OkAck then
        TrimOkIffPadded(data.s);
        if |setCookie| > 0 && setCookie[0] != "" then Some(CookiePrefix(setCookie[0])) else None
      else
        (if data.JStr? then TrimOkIffPadded(data.s); None else None)
  }

  /** `!!this.cookie`: a cookie is held and it is not the empty string. */
  predicate HasSession(cookie: Option<string>)
    // JavaScript truthiness of the field, which starts as `null`
    ensures HasSession(cookie) <==> Truthy(if cookie.Some? then JStr(cookie.value) else JNull)
  {
    cookie.Some? && cookie.value != ""
  }

  /**
   * `error.response && error.response.status === 403`: the 403 that signals an
   * expired session. A transport failure has no response and never counts.
   */
  predicate Forbidden(a: Attempt)
    ensures Forbidden(a) ==> a.Rejected? && a.failure.status == Some(403)
    ensures a.Response? || a.failure.status.None? ==> !Forbidden(a)
  {
    a.Rejected? && a.failure.status == Some(403)
  }

  /** The informative errors for refused connections and timeouts; any other error unchanged. */
  function Translate(f: Failure): (t: Failure)
    ensures f.code == Some("ECONNREFUSED") ==> t == NewError(ConnectMessage)
    ensures f.code == Some("ETIMEDOUT") || f.code == Some("ECONNABORTED") ==> t == NewError(TimeoutMessage)
    ensures f.code !in {Some("ECONNREFUSED"), Some("ETIMEDOUT"), Some("ECONNABORTED")} ==> t == f
  {
    if f.code == Some("ECONNREFUSED") then NewError(ConnectMessage)
    else if f.code == Some("ETIMEDOUT") || f.code == Some("ECONNABORTED") then NewError(TimeoutMessage)
    else f
  }

  /** The outcome of an attempt passed on as it is (`return response.data` or propagate). */
  function Outcome(a: Attempt): Result<Json, Failure> {
    match a
    case Response(d) => Ok(d)
    case Rejected(f) => Err(f)
  }

  /** Everything one authenticated request does. */
  datatype Run = Run(
    result: Result<Json, Failure>, // returned data or thrown error
    cookie: Option<string>,        // the session cookie afterwards
    logins: nat,                   // logins posted
    sent: seq<Sent>)               // authenticated requests sent, in order

  /**
   * The authenticated-request algorithm (`#makeRequest`): starting from `cookie`,
   * with `l` logins and `s` requests already answered by the backend oracles.
   */
  function RequestRun(
    cookie: Option<string>, loginReply: nat -> LoginReply, reply: (nat, ApiCall, string) -> Attempt,
    l: nat, s: nat, call: ApiCall): (run: Run)
    // at most two logins and two attempts, all of them for this call
    ensures run.logins <= 2 && |run.sent| <= 2
    ensures forall k :: 0 <= k < |run.sent| ==> run.sent[k].call == call
    // nothing is sent exactly when there is no session and the login fails
    ensures run.sent == [] <==> !HasSession(cookie) && LoginCookie(loginReply(l)).None?
    ensures run.sent == [] ==>
      run.result == Err(NewError(LoginFailedMessage)) && run.cookie == cookie && run.logins == 1
    // a held session is used as it is, without a login first
    ensures HasSession(cookie) ==> run == SessionRun(cookie.value, loginReply, reply, l, s, call)
    // without one, a successful login is followed by the session run of its cookie
    ensures !HasSession(cookie) && LoginCookie(loginReply(l)).Some? ==>
      var sr := SessionRun(LoginCookie(loginReply(l)).value, loginReply, reply, l + 1, s, call);
      run == sr.(logins := sr.logins + 1)
    // the cookie changes only to the cookie of a successful login of this run
    ensures run.cookie != cookie ==>
      || run.cookie == LoginCookie(loginReply(l))
      || (run.logins == 2 && run.cookie == LoginCookie(loginReply(l + 1)))
  {
    if HasSession(cookie) then
      SessionRun(cookie.value, loginReply, reply, l, s, call)
    else
      match LoginCookie(loginReply(l))
      case None => Run(Err(NewError(LoginFailedMessage)), cookie, 1, [])
      case Some(c1) =>
        var run := SessionRun(c1, loginReply, reply, l + 1, s, call);
        run.(logins := run.logins + 1)
  }

  /**
   * The request once a cookie `c1` is held: one attempt, and on a 403 one re-login
   * and, if it succeeds, one retry whose outcome is passed on untranslated.
   */
  function SessionRun(
    c1: string, loginReply: nat -> LoginReply, reply: (nat, ApiCall, string) -> Attempt,
    l: nat, s: nat, call: ApiCall): (run: Run)
    // one or two attempts, all for this call, the first with the held cookie
    ensures 1 <= |run.sent| <= 2 && run.logins <= 1
    ensures forall k :: 0 <= k < |run.sent| ==> run.sent[k].call == call
    ensures run.sent[0].cookie == c1
    // no 403: no login, and the data or the translated error of the attempt
    ensures !Forbidden(reply(s, call, c1)) ==>
      && |run.sent| == 1 && run.logins == 0 && run.cookie == Some(c1)
      && run.result == match reply(s, call, c1)
                       case Response(d) => Ok(d)
                       case Rejected(f) => Err(Translate(f))
    // a 403 causes exactly one re-login, and a retry exactly when that re-login succeeds
    ensures Forbidden(reply(s, call, c1)) ==> run.logins == 1
    ensures Forbidden(reply(s, call, c1)) ==> (|run.sent| == 2 <==> LoginCookie(loginReply(l)).Some?)
    // a failed re-login keeps the stale cookie
    ensures |run.sent| == 1 && Forbidden(reply(s, call, c1)) ==>
      run.result == Err(NewError(ReloginFailedMessage)) && run.cookie == Some(c1)
    // the single retry follows a 403, carries the re-login's cookie, and its outcome is passed on unchanged
    ensures |run.sent| == 2 ==>
      && Forbidden(reply(s, call, c1))
      && run.cookie == Some(run.sent[1].cookie) == LoginCookie(loginReply(l))
      && run.result == Outcome(reply(s + 1, call, run.sent[1].cookie))
  {
    var a1 := reply(s, call, c1);
    if !Forbidden(a1) then
      Run(match a1 case Response(d) => Ok(d) case Rejected(f) => Err(Translate(f)),
          Some(c1), 0, [Sent(call, c1)])
    else
      match LoginCookie(loginReply(l))
      case None => Run(Err(NewError(ReloginFailedMessage)), Some(c1), 1, [Sent(call, c1)])
      case Some(c2) => Run(Outcome(reply(s + 1, call, c2)), Some(c2), 1, [Sent(call, c1), Sent(call, c2)])
  }

  /**
   * `addTorrent`'s reading of the response body, `data && data.trim() === 'Ok.'`:
   * a falsy body is returned as it is, a string gives whether it trims to "Ok.",
   * and any other body throws the TypeError of calling `trim` on it.
   */
  function AddAck(data: Json): (r: Result<Json, Failure>)
    ensures r.Ok? && Truthy(r.value) <==> data.JStr? && Padded(data.s, OkAck)
    ensures r.Ok? && Truthy(r.value) ==> r.value == JBool(true)
    ensures r.Err? <==> Truthy(data) && !data.JStr?
  {
    if !Truthy(data) then Ok(data)
    else if data.JStr? then
      TrimOkIffPadded(data.s);
      Ok(JBool(Trim(data.s) == OkAck))
    else Err(NewError(TrimTypeErrorMessage))
  }

  /** What `addTorrent` yields for the outcome of its request: a thrown error passes through. */
  function AddTorrentResult(data: Result<Json, Failure>): (r: Result<Json, Failure>)
    ensures data.Err? ==> r == data
    ensures r.Ok? && Truthy(r.value) <==> data.Ok? && data.value.JStr? && Padded(data.value.s, OkAck)
  {
    match data
    case Ok(d) => AddAck(d)
    case Err(f) => Err(f)
  }

  class QBitClient {
    const baseUrl: string
    const username: string
    const password: string
    const apiUrl: string
    const timeout: int
    /** The session cookie (`SID=…`), or None before the first successful login. */
    var cookie: Option<string>

    /** `timeout` is None when the caller passes `undefined`. */
    constructor (baseUrl: string, username: string, password: string, timeout: Option<int>)
      ensures this.baseUrl == baseUrl && this.username == username && this.password == password
      ensures cookie == None
      ensures apiUrl == baseUrl + "/api/v2"
      ensures this.timeout == if timeout.Some? then timeout.value else 10000
    {
      this.baseUrl := baseUrl;
      this.username := username;
      this.password := password;
      cookie := None;
      apiUrl := baseUrl + "/api/v2";
      this.timeout := if timeout.Some? then timeout.value else 10000;
    }

    /** Posts the credentials; on success stores the new cookie. Never throws. */
    method Login(net: Backend) returns (ok: bool)
      modifies this`cookie, net
      ensures net.logins == old(net.logins) + 1
      ensures net.sent == old(net.sent)
      ensures ok <==> LoginAccepted(net.loginReply(old(net.logins)))
      ensures cookie == if ok then LoginCookie(net.loginReply(old(net.logins))) else old(cookie)
    {
      var reply := net.PostLogin();
      var c := LoginCookie(reply);
      if c.Some? {
        cookie := c;
        ok := true;
      } else {
        ok := false;
      }
    }

    /** What an authenticated request for `call` would do from the current state. */
    function Planned(net: Backend, call: ApiCall): Run
      reads this, net
    {
      RequestRun(cookie, net.loginReply, net.reply, net.logins, |net.sent|, call)
    }

    /** `#makeRequest`: log in if needed, send, and on a 403 re-login and retry once. */
    method MakeRequest(net: Backend, call: ApiCall) returns (r: Result<Json, Failure>)
      modifies this`cookie, net
      ensures r == old(Planned(net, call)).result
      ensures cookie == old(Planned(net, call)).cookie
      ensures net.sent == old(net.sent) + old(Planned(net, call)).sent
      ensures net.logins == old(net.logins) + old(Planned(net, call)).logins
    {
      ghost var run := Planned(net, call);
      if HasSession(cookie) {
        assert run == SessionRun(cookie.value, net.loginReply, net.reply, net.logins, |net.sent|, call);
        r := SendInSession(net, call);
      } else {
        ghost var c0 := cookie;
        var ok := Login(net);
        if !ok {
          r := Err(NewError(LoginFailedMessage));
          assert run == Run(r, c0, 1, []);
          return;
        }
        ghost var inner := SessionRun(cookie.value, net.loginReply, net.reply, net.logins, |net.sent|, call);
        assert run == inner.(logins := inner.logins + 1);
        r := SendInSession(net, call);
      }
    }

    /** The part of `#makeRequest` after a cookie is held: attempt, and on a 403 re-login and retry once. */
    method SendInSession(net: Backend, call: ApiCall) returns (r: Result<Json, Failure>)
      requires cookie.Some?
      modifies this`cookie, net
      ensures var run := old(SessionRun(cookie.value, net.loginReply, net.reply, net.logins, |net.sent|, call));
        && r == run.result && cookie == run.cookie
        && net.sent == old(net.sent) + run.sent
        && net.logins == old(net.logins) + run.logins
    {
      ghost var run := SessionRun(cookie.value, net.loginReply, net.reply, net.logins, |net.sent|, call);
      ghost var s0 := net.sent;
      var c1 := cookie.value;
      var a1 := net.Send(call, c1);
      if !Forbidden(a1) {
        r := match a1 case Response(d) => Ok(d) case Rejected(f) => Err(Translate(f));
        assert run == Run(r, Some(c1), 0, [Sent(call, c1)]);
        return;
      }
      ghost var relogin := LoginCookie(net.loginReply(net.logins));
      var ok := Login(net);
      if !ok {
        r := Err(NewError(ReloginFailedMessage));
        assert relogin.None?;
        assert run == Run(r, Some(c1), 1, [Sent(call, c1)]);
        return;
      }
      var c2 := cookie.value;
      assert relogin == Some(c2);
      var a2 := net.Send(call, c2);
      r := Outcome(a2);
      assert run == Run(r, Some(c2), 1, [Sent(call, c1), Sent(call, c2)]);
      assert net.sent == s0 + [Sent(call, c1), Sent(call, c2)];
    }

    /** Lists torrents. Only `filter` becomes a query parameter; `status` is ignored. */
    method GetTorrents(net: Backend, filter: Option<string>, status: Option<string>) returns (r: Result<Json, Failure>)
      modifies this`cookie, net
      ensures r == old(Planned(net, TorrentsInfo(filter))).result
      ensures cookie == old(Planned(net, TorrentsInfo(filter))).cookie
      ensures net.sent == old(net.sent) + old(Planned(net, TorrentsInfo(filter))).sent
      ensures net.logins == old(net.logins) + old(Planned(net, TorrentsInfo(filter))).logins
    {
      r := MakeRequest(net, TorrentsInfo(filter));
    }

    /** Adds a torrent by URL; the result is read from the acknowledgement body. */
    method AddTorrent(net: Backend, url: string) returns (r: Result<Json, Failure>)
      modifies this`cookie, net
      ensures r == AddTorrentResult(old(Planned(net, TorrentsAdd(url))).result)
      ensures cookie == old(Planned(net, TorrentsAdd(url))).cookie
      ensures net.sent == old(net.sent) + old(Planned(net, TorrentsAdd(url))).sent
      ensures net.logins == old(net.logins) + old(Planned(net, TorrentsAdd(url))).logins
    {
      var data := MakeRequest(net, TorrentsAdd(url));
      match data
      case Ok(d) => r := AddAck(d);
      case Err(f) => r := Err(f);
    }
  }
}
