/** EndpointClient of microvm/endpoint.py: the token cache and the retry loop of request. */
module Endpoint {
  import opened Common

  type Headers = map<string, string>

  const PORT_HEADER := "X-aws-proxy-port"

  /** The cached token and when it stops being used. */
  datatype Cache = Cache(token: Option<Headers>, expiry: real) {
    /** _auth_headers mints a new token when it is called at this time. */
    predicate Stale(clock: real) { token.None? || clock > expiry }
  }

  datatype Response = Response(status: int, body: string)

  /** The environment of one attempt: the clock when the headers are built; the token a mint would give (None if
      CreateMicrovmAuthToken raises) and the clock after it; the response (None if the HTTP request raises) and
      the clock after it; the random part of a backoff, as a fraction of the delay. */
  datatype Try = Try(clock: real, mint: Option<Headers>, mintedAt: real, reply: Option<Response>, repliedAt: real,
      jitter: real)

  /** One HTTP request as it went out, and how long the loop slept after it. */
  datatype Send = Send(headers: Headers, token: Headers, minted: bool, attachedAt: real, expiry: real,
                       reply: Option<Response>, pause: real)
  {
    predicate Answered(status: int) { reply.Some? && reply.value.status == status }
    function Kept(): Cache { Cache(Some(token), expiry) }
  }

  datatype Outcome = Nothing | Returned(response: Response) | MintRaised | SendRaised

  function Min(a: real, b: real): real { if a <= b then a else b }

  /** What the arguments of one call fix. */
  datatype Call = Call(headers: Headers, port: Option<int>, maxAttempts: int, patience: real, started: real, ttl: int)
  {
    /** The headers every attempt starts from. */
    function Base(portText: string): Headers {
      if port.Some? && port.value != 0 && port.value != 8080 then headers[PORT_HEADER := portText] else headers
    }
  }

  /** 80% of the token's lifetime, in seconds. */
  function Usable(ttl: int): real { (ttl * 60) as real * 0.8 }

  // ---------------------------------------------------------------- what a call does

  /** The loop goes on after send k. */
  predicate Retries(call: Call, s: Send, k: nat, repliedAt: real) {
    || s.Answered(429)
    || (s.Answered(502) && repliedAt - call.started < call.patience)
    || (s.Answered(403) && k + 1 < call.maxAttempts)
  }

  /** The cache when send k is prepared; a 403 that is retried empties it. */
  function Before(initial: Cache, sends: seq<Send>, k: nat): Cache
    requires k <= |sends|
  {
    if k == 0 then initial
    else if sends[k - 1].Answered(403) then Cache(None, sends[k - 1].expiry)
    else sends[k - 1].Kept()
  }

  /** Send s carries the token of the cache, or a new one when there was none or it had expired. */
  predicate Carries(cache: Cache, t: Try, ttl: int, s: Send) {
    if cache.Stale(t.clock) then
      s.minted && t.mint == Some(s.token) && s.attachedAt == t.mintedAt && s.expiry == t.mintedAt + Usable(ttl)
    else
      !s.minted && cache.token == Some(s.token) && s.attachedAt == t.clock && s.expiry == cache.expiry
  }

  /** `delay` before send k. */
  function Delay(sends: seq<Send>, k: nat): real
    requires k <= |sends|
  {
    if k == 0 then 0.5
    else if sends[k - 1].Answered(429) then Min(Delay(sends, k - 1) * 2.0, 8.0)
    else Delay(sends, k - 1)
  }

  function Pause(call: Call, s: Send, t: Try, delay: real): real {
    if s.Answered(429) then delay + t.jitter * delay
    else if s.Answered(502) && t.repliedAt - call.started < call.patience then 2.0
    else 0.0
  }

  /** Send k is what the source makes of attempt k. */
  ghost predicate Proper(call: Call, base: Headers, initial: Cache, env: seq<Try>, sends: seq<Send>, k: nat)
    requires k < |sends| <= |env|
  {
    && Carries(Before(initial, sends, k), env[k], call.ttl, sends[k])
    && sends[k].headers == base + sends[k].token
    && sends[k].reply == env[k].reply
    && sends[k].pause == Pause(call, sends[k], env[k], Delay(sends, k))
  }

  ghost predicate IsTrace(call: Call, base: Headers, initial: Cache, env: seq<Try>, sends: seq<Send>) {
    && |sends| <= |env|
    && (forall k :: 0 <= k < |sends| ==> Proper(call, base, initial, env, sends, k))
    && (forall k :: 0 <= k < |sends| - 1 ==> Retries(call, sends[k], k, env[k].repliedAt))
  }

  // ---------------------------------------------------------------- the client

  class EndpointClient {
    const ttlMinutes: int
    var token: Option<Headers>
    var tokenExpiry: real

    constructor (ttlMinutes: int)
      ensures View() == Cache(None, 0.0) && this.ttlMinutes == ttlMinutes
    {
      this.ttlMinutes := ttlMinutes;
      token, tokenExpiry := None, 0.0;
    }

    function View(): Cache
      reads this
    {
      Cache(token, tokenExpiry)
    }

    /** None when the mint raised; the cache is then as it was. */
    method AuthHeaders(t: Try) returns (headers: Option<Headers>)
      modifies this
      ensures headers == if old(View()).Stale(t.clock) then t.mint else old(token)
      ensures View() == if old(View()).Stale(t.clock) && t.mint.Some?
                        then Cache(t.mint, t.mintedAt + Usable(ttlMinutes)) else old(View())
    {
      if token.None? || t.clock > tokenExpiry {
        if t.mint.None? { return None; }
        token := t.mint;
        tokenExpiry := t.mintedAt + (ttlMinutes * 60) as real * 0.8;
      }
      headers := token;
    }

    /** One pass of the loop: what went out (None if the mint raised), and whether the loop goes on. */
    method TryOnce(call: Call, base: Headers, attempt: nat, t: Try, delay: real)
        returns (sent: Option<Send>, again: bool, next: real)
      requires call.ttl == ttlMinutes && attempt >= 1
      modifies this
      ensures sent.None? <==> old(View()).Stale(t.clock) && t.mint.None?
      ensures sent.None? ==> !again && View() == old(View())
      ensures sent.Some? ==>
                var s := sent.value;
                && Carries(old(View()), t, ttlMinutes, s) && s.headers == base + s.token && s.reply == t.reply
                && s.pause == Pause(call, s, t, delay)
                && (again <==> Retries(call, s, attempt - 1, t.repliedAt))
                && next == (if s.Answered(429) then Min(delay * 2.0, 8.0) else delay)
                && View() == if again && s.Answered(403) then Cache(None, s.expiry) else s.Kept()
    {
      again, next := false, delay;
      var minted := View().Stale(t.clock);
      var auth := AuthHeaders(t);
      if auth.None? { return None, false, delay; }
      var attachedAt := if minted then t.mintedAt else t.clock;
      var s := Send(base + auth.value, auth.value, minted, attachedAt, tokenExpiry, t.reply, 0.0);
      if t.reply.None? { return Some(s), false, delay; }
      var status := t.reply.value.status;
      if status == 429 {
        s := s.(pause := delay + t.jitter * delay);
        next := Min(delay * 2.0, 8.0);
        again := true;
      } else if status == 502 && t.repliedAt - call.started < call.patience {
        s := s.(pause := 2.0);
        again := true;
      } else if status == 403 && attempt < call.maxAttempts {
        token := None;
        again := true;
      }
      sent := Some(s);
    }

    /** request, in the environment env; sends is what went out on the wire. */
    method Request(call: Call, portText: string, env: seq<Try>) returns (outcome: Outcome, sends: seq<Send>)
      requires call.ttl == ttlMinutes && call.maxAttempts <= |env|
      modifies this
      ensures IsTrace(call, call.Base(portText), old(View()), env, sends)
      ensures |sends| <= if call.maxAttempts <= 0 then 0 else call.maxAttempts
      ensures Ends(call, old(View()), env, sends, outcome, View())
    {
      var base := call.headers;
      if call.port.Some? && call.port.value != 0 && call.port.value != 8080 {
        base := base[PORT_HEADER := portText];
      }
      var delay := 0.5;
      sends, outcome := [], Nothing;
      var attempt := 1;
      while attempt <= call.maxAttempts
        invariant 1 <= attempt && |sends| == attempt - 1 && (|sends| == 0 || |sends| <= call.maxAttempts)
        invariant IsTrace(call, base, old(View()), env, sends)
        invariant |sends| > 0 ==> Retries(call, sends[|sends| - 1], |sends| - 1, env[|sends| - 1].repliedAt)
        invariant delay == Delay(sends, |sends|)
        invariant View() == Before(old(View()), sends, |sends|)
        invariant if |sends| == 0 then outcome == Nothing else outcome == Returned(sends[|sends| - 1].reply.value)
      {
        var t := env[attempt - 1];
        var sent, again, next := TryOnce(call, base, attempt, t, delay);
        if sent.None? { return MintRaised, sends; }
        var s := sent.value;
        ExtendTrace(call, base, old(View()), env, sends, s);
        sends := sends + [s];
        if s.reply.None? { return SendRaised, sends; }
        outcome := Returned(s.reply.value);
        if !again { return; }
        delay, attempt := next, attempt + 1;
      }
    }
  }

  /** How a call ends, and the cache it leaves: a 403 on the last attempt leaves the refused token in it. */
  ghost predicate Ends(call: Call, initial: Cache, env: seq<Try>, sends: seq<Send>, outcome: Outcome, final: Cache)
    requires |sends| <= |env|
  {
    var n := |sends|;
    match outcome
    case Nothing => call.maxAttempts <= 0 && n == 0 && final == initial
    case Returned(r) =>
      && n > 0 && sends[n - 1].reply == Some(r) && final == sends[n - 1].Kept()
      && (n == call.maxAttempts || !Retries(call, sends[n - 1], n - 1, env[n - 1].repliedAt))
    case SendRaised => n > 0 && sends[n - 1].reply == None && final == sends[n - 1].Kept()
    case MintRaised =>
      && n < call.maxAttempts && n < |env| && final == Before(initial, sends, n) && final.Stale(env[n].clock)
           && env[n].mint.None?
      && (n > 0 ==> Retries(call, sends[n - 1], n - 1, env[n - 1].repliedAt))
  }

  lemma {:induction false} DelayOfPrefix(sends: seq<Send>, s: Send, k: nat)
    requires k <= |sends|
    ensures Delay(sends + [s], k) == Delay(sends, k)
  {
    if k > 0 { DelayOfPrefix(sends, s, k - 1); }
  }

  lemma ExtendTrace(call: Call, base: Headers, initial: Cache, env: seq<Try>, sends: seq<Send>, s: Send)
    requires IsTrace(call, base, initial, env, sends) && |sends| < |env|
    requires |sends| > 0 ==> Retries(call, sends[|sends| - 1], |sends| - 1, env[|sends| - 1].repliedAt)
    requires Carries(Before(initial, sends, |sends|), env[|sends|], call.ttl, s)
    requires s.headers == base + s.token && s.reply == env[|sends|].reply
    requires s.pause == Pause(call, s, env[|sends|], Delay(sends, |sends|))
    ensures IsTrace(call, base, initial, env, sends + [s])
    ensures Delay(sends + [s], |sends| + 1) ==
            if s.Answered(429) then Min(Delay(sends, |sends|) * 2.0, 8.0) else Delay(sends, |sends|)
  {
    var longer := sends + [s];
    forall k | 0 <= k < |longer| ensures Proper(call, base, initial, env, longer, k) {
      DelayOfPrefix(sends, s, k);
      assert Before(initial, longer, k) == Before(initial, sends, k);
      assert k < |sends| ==> Proper(call, base, initial, env, sends, k);
    }
    DelayOfPrefix(sends, s, |sends|);
  }

  // ---------------------------------------------------------------- what a trace promises

  /** Send k carries the token attempt m minted, and stops using it 80% of its lifetime after that. */
  predicate MintedIn(call: Call, env: seq<Try>, sends: seq<Send>, k: nat, m: nat)
    requires k < |sends| <= |env|
  {
    m <= k && sends[m].minted && env[m].mint == Some(sends[k].token)
        && sends[k].expiry == env[m].mintedAt + Usable(call.ttl)
  }

  /** Send k carries the token the call began with. */
  predicate Initial(initial: Cache, sends: seq<Send>, k: nat)
    requires k < |sends|
  {
    initial == sends[k].Kept() && forall m :: 0 <= m <= k ==> !sends[m].minted
  }

  lemma {:induction false} TokenComesFrom(call: Call, base: Headers, initial: Cache, env: seq<Try>, sends: seq<Send>,
                                          k: nat)
    requires IsTrace(call, base, initial, env, sends) && k < |sends|
    ensures (exists m: nat :: MintedIn(call, env, sends, k, m)) || Initial(initial, sends, k)
  {
    assert Proper(call, base, initial, env, sends, k);
    if sends[k].minted {
      assert MintedIn(call, env, sends, k, k);
    } else if k > 0 {
      TokenComesFrom(call, base, initial, env, sends, k - 1);
      if !Initial(initial, sends, k - 1) {
        var m: nat :| MintedIn(call, env, sends, k - 1, m);
        assert MintedIn(call, env, sends, k, m);
      }
    }
  }

  /** Every request carries a token that the call itself minted no more than 80% of its lifetime ago, or the one the
      call found in the cache and before its expiry; the caller's headers are all there, but for those the token
      itself names. */
  lemma TokensAreFresh(call: Call, base: Headers, initial: Cache, env: seq<Try>, sends: seq<Send>, k: nat)
    requires IsTrace(call, base, initial, env, sends) && k < |sends| && call.ttl >= 0
    ensures || (exists m: nat ::
            MintedIn(call, env, sends, k, m) && sends[k].attachedAt <= env[m].mintedAt + Usable(call.ttl))
            || (Initial(initial, sends, k) && sends[k].attachedAt <= initial.expiry)
    ensures forall h :: h in base && h !in sends[k].token ==> h in sends[k].headers && sends[k].headers[h] == base[h]
    ensures forall h :: h in sends[k].token ==> h in sends[k].headers && sends[k].headers[h] == sends[k].token[h]
  {
    assert Proper(call, base, initial, env, sends, k);
    assert Usable(call.ttl) >= 0.0;
    TokenComesFrom(call, base, initial, env, sends, k);
  }

  /** A 403 that is retried is followed by a token minted after it; nothing else but expiry changes the token. */
  lemma RefusedTokenIsReplaced(call: Call, base: Headers, initial: Cache, env: seq<Try>, sends: seq<Send>, k: nat)
    requires IsTrace(call, base, initial, env, sends) && k + 1 < |sends|
    ensures sends[k].Answered(403) ==> sends[k + 1].minted && env[k + 1].mint == Some(sends[k + 1].token)
    ensures !sends[k].Answered(403) ==>
              (sends[k + 1].minted <==> env[k + 1].clock > sends[k].expiry) &&
              (!sends[k + 1].minted ==> sends[k + 1].token == sends[k].token && sends[k + 1].expiry == sends[k].expiry)
  {
    assert Proper(call, base, initial, env, sends, k + 1);
  }

  function Mints(sends: seq<Send>, n: nat): nat
    requires n <= |sends|
  {
    if n == 0 then 0 else Mints(sends, n - 1) + if sends[n - 1].minted then 1 else 0
  }

  /** The 403s among the first n - 1 sends: those that were retried, when n are made. */
  function Refused(sends: seq<Send>, n: nat): nat
    requires n <= |sends|
  {
    if n <= 1 then 0 else Refused(sends, n - 1) + if sends[n - 2].Answered(403) then 1 else 0
  }

  /** How often a send found a token that had expired. */
  function Expired(initial: Cache, env: seq<Try>, sends: seq<Send>, n: nat): nat
    requires n <= |sends| <= |env|
  {
    if n == 0 then 0
    else
      var cache := Before(initial, sends, n - 1);
      Expired(initial, env, sends, n - 1) + if cache.token.Some? && env[n - 1].clock > cache.expiry then 1 else 0
  }

  /** The tokens minted are exactly: one if the cache was empty, one for each retried 403, one for each expiry. */
  lemma {:induction false} MintsAreAccountedFor(call: Call, base: Headers, initial: Cache, env: seq<Try>,
                                                sends: seq<Send>, n: nat)
    requires IsTrace(call, base, initial, env, sends) && 0 < n <= |sends|
    ensures Mints(sends, n) == (if initial.token.None? then 1 else 0) + Refused(sends, n)
            + Expired(initial, env, sends, n)
  {
    assert Proper(call, base, initial, env, sends, n - 1);
    if n > 1 {
      MintsAreAccountedFor(call, base, initial, env, sends, n - 1);
    } else {
      assert Mints(sends, 0) == 0 && Expired(initial, env, sends, 0) == 0;
    }
  }

  function RateLimited(sends: seq<Send>, n: nat): nat
    requires n <= |sends|
  {
    if n == 0 then 0 else RateLimited(sends, n - 1) + if sends[n - 1].Answered(429) then 1 else 0
  }

  function HalfDoubled(n: nat): (d: real)
    ensures d >= 0.5
  {
    if n == 0 then 0.5 else 2.0 * HalfDoubled(n - 1)
  }

  lemma {:induction false} DelayClosedForm(sends: seq<Send>, n: nat)
    requires n <= |sends|
    ensures Delay(sends, n) == Min(HalfDoubled(RateLimited(sends, n)), 8.0)
  {
    if n > 0 { DelayClosedForm(sends, n - 1); }
  }

  lemma Jittered(d: real, j: real)
    requires d >= 0.0 && 0.0 <= j <= 1.0
    ensures d <= d + j * d <= 2.0 * d
  {
  }

  /** After the n-th 429 the loop sleeps between d and 2d, with d half a second doubled n - 1 times and at most
      8 s; after a 502 it waits for, 2 s; after anything else not at all. */
  lemma PauseInRange(call: Call, base: Headers, initial: Cache, env: seq<Try>, sends: seq<Send>, k: nat)
    requires IsTrace(call, base, initial, env, sends) && k < |sends| && 0.0 <= env[k].jitter <= 1.0
    ensures var d := Min(HalfDoubled(RateLimited(sends, k)), 8.0);
            && (sends[k].Answered(429) ==> d <= sends[k].pause <= 2.0 * d)
            && (sends[k].Answered(502) && k + 1 < |sends| ==> sends[k].pause == 2.0)
            && (sends[k].pause > 0.0 ==> sends[k].Answered(429) || sends[k].Answered(502))
  {
    assert Proper(call, base, initial, env, sends, k);
    DelayClosedForm(sends, k);
    Jittered(Delay(sends, k), env[k].jitter);
  }

  /** A call that gives up on a 403 (its last attempt) leaves the refused token cached, and the next call sends
      it again unless it has expired meanwhile; so does a call that ended any other way after sending. */
  lemma NextCallReusesTheToken(first: Call, initial: Cache, env: seq<Try>, sends: seq<Send>, response: Response,
                               cache: Cache, call: Call, base: Headers, later: seq<Try>, more: seq<Send>)
    requires |sends| <= |env| && Ends(first, initial, env, sends, Returned(response), cache)
    requires IsTrace(call, base, cache, later, more) && |more| > 0
    ensures more[0].minted <==> later[0].clock > sends[|sends| - 1].expiry
    ensures !more[0].minted ==> more[0].token == sends[|sends| - 1].token
  {
    assert Proper(call, base, cache, later, more, 0);
  }
}
