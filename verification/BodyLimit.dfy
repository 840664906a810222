/**
 Body limits in front of the application: small bodies are buffered and replayed, uploads are counted while
 they are read. What the client sends, how often the application reads, and what it does with a refusal are
 arbitrary.
 */
module BodyLimit {
  import opened Text

  type Bytes = seq<bv8>

  /** What one wait for the next message yields before the deadline. */
  datatype Arrival = Chunk(body: Bytes, more: bool) | Disconnect

  datatype Scope = Scope(kind: string, verb: string, path: string, contentLength: Option<string>)

  /** The configured caps, and how the declared length is read as a number. */
  datatype Settings = Settings(webhook: nat, upload: nat, request: nat, public: nat, number: string -> Option<int>)

  datatype Rejection = Rejection(status: nat, code: string)

  // Routing ------------------------------------------------------------------------------------------

  const PUBLIC := "/api/v1/chat/public"
  const REVISIONS := "/api/v1/knowledge/revisions/"
  const VERSIONS := "/api/v1/admin/documents/"

  function Upper(s: string): string {
    seq(|s|, i requires 0 <= i < |s| => if 'a' <= s[i] <= 'z' then s[i] - 'a' + 'A' else s[i])
  }

  predicate IsUpload(path: string) {
    || path in {"/api/v1/documents/ingest", "/api/v1/admin/documents", "/api/v1/admin/results/csv-upload"}
    || (REVISIONS <= path && EndsWith(path, "/documents"))
    || (VERSIONS <= path && EndsWith(path, "/versions"))
  }

  function LimitFor(s: Settings, path: string): nat {
    if path == "/api/v1/webhooks/mailgun" then s.webhook
    else if IsUpload(path) then s.upload
    else s.request
  }

  /** What a middleware does with a request before reading its body. */
  datatype Way = Pass | Refuse(rejection: Rejection) | Buffer(limit: nat) | Count(limit: nat)

  predicate Guards(scope: Scope) {
    && scope.kind == "http" && Upper(scope.verb) in {"POST", "PUT", "PATCH", "DELETE"}
    && "/api/" <= scope.path && scope.path != PUBLIC
  }

  function Route(s: Settings, scope: Scope): Way {
    if !Guards(scope) then Pass
    else
      var limit, upload := LimitFor(s, scope.path), IsUpload(scope.path);
      if scope.contentLength == None then
        if upload then Refuse(Rejection(411, "CONTENT_LENGTH_REQUIRED")) else Buffer(limit)
      else
        var declared := s.number(scope.contentLength.value);
        if declared == None || declared.value < 0 then Refuse(Rejection(400, "REQUEST_INVALID"))
        else if declared.value > limit then
          Refuse(Rejection(413, if upload then "FILE_TOO_LARGE" else "REQUEST_TOO_LARGE"))
        else if upload then Count(limit) else Buffer(limit)
  }

  function PublicRoute(s: Settings, scope: Scope): Way {
    if scope.kind != "http" || scope.verb != "POST" || scope.path != PUBLIC then Pass
    else if scope.contentLength == None then Buffer(s.public)
    else
      var declared := s.number(scope.contentLength.value);
      if declared == None then Refuse(Rejection(400, "PUBLIC_REQUEST_INVALID"))
      else if declared.value > s.public then Refuse(Rejection(413, "PUBLIC_REQUEST_TOO_LARGE"))
      else Buffer(s.public)
  }

  // Bodies -------------------------------------------------------------------------------------------

  function Concat(arrivals: seq<Arrival>): Bytes {
    if arrivals == [] then []
    else
      var last := arrivals[|arrivals| - 1];
      Concat(arrivals[..|arrivals| - 1]) + if last.Chunk? then last.body else []
  }

  /** How many arrivals belong to the request: the chunks up to and including the first that ends it. */
  function Extent(arrivals: seq<Arrival>): (n: nat)
    ensures n <= |arrivals| && forall k | 0 <= k < n :: arrivals[k].Chunk? && (k < n - 1 ==> arrivals[k].more)
    ensures n < |arrivals| && (n == 0 || arrivals[n - 1].more) ==> arrivals[n].Disconnect?
  {
    if arrivals == [] || arrivals[0].Disconnect? then 0
    else if !arrivals[0].more then 1
    else 1 + Extent(arrivals[1..])
  }

  /** Everything the client sent as this request's body. */
  function Body(arrivals: seq<Arrival>): Bytes {
    Concat(arrivals[..Extent(arrivals)])
  }

  predicate Ended(arrivals: seq<Arrival>) {
    Extent(arrivals) > 0 && !arrivals[Extent(arrivals) - 1].more
  }

  datatype Buffered = Complete(body: Bytes) | TooLarge | TimedOut | Gone

  /** The verdict on a whole stream: a body over the limit is refused however it ends, a finished one is handed
      over, and an unfinished one is a disconnect or a timeout. */
  function Verdict(arrivals: seq<Arrival>, limit: nat): Buffered {
    if |Body(arrivals)| > limit then TooLarge
    else if Ended(arrivals) then Complete(Body(arrivals))
    else if Extent(arrivals) < |arrivals| then Gone
    else TimedOut
  }

  lemma {:induction false} ConcatGrows(arrivals: seq<Arrival>, m: nat, n: nat)
    requires m <= n <= |arrivals|
    ensures Concat(arrivals[..m]) <= Concat(arrivals[..n])
  {
    if m < n {
      ConcatGrows(arrivals, m, n - 1);
      assert arrivals[..n][..n - 1] == arrivals[..n - 1];
    }
  }

  lemma {:induction false} ExtentIs(arrivals: seq<Arrival>, n: nat)
    requires n <= |arrivals| && forall k | 0 <= k < n :: arrivals[k].Chunk? && (k < n - 1 ==> arrivals[k].more)
    ensures n <= Extent(arrivals)
    ensures n > 0 && !arrivals[n - 1].more ==> Extent(arrivals) == n
    ensures n < |arrivals| && arrivals[n].Disconnect? && (n == 0 || arrivals[n - 1].more) ==> Extent(arrivals) == n
    ensures n == |arrivals| ==> Extent(arrivals) == n
  {
    if n > 1 {
      ExtentIs(arrivals[1..], n - 1);
    }
  }

  /** The loop of both middlewares. It gives up as soon as the limit is passed, without waiting for the end. */
  method Collect(arrivals: seq<Arrival>, limit: nat) returns (r: Buffered)
    ensures r == Verdict(arrivals, limit)
  {
    var body: Bytes, i := [], 0;
    while true
      invariant i <= |arrivals| && body == Concat(arrivals[..i]) && |body| <= limit
      invariant forall k | 0 <= k < i :: arrivals[k].Chunk? && arrivals[k].more
      decreases |arrivals| - i
    {
      ExtentIs(arrivals, i);
      if i == |arrivals| {
        return TimedOut;
      }
      if arrivals[i].Disconnect? {
        return Gone;
      }
      body := body + arrivals[i].body;
      assert arrivals[..i + 1][..i] == arrivals[..i];
      ExtentIs(arrivals, i + 1);
      if |body| > limit {
        ConcatGrows(arrivals, i + 1, Extent(arrivals));
        return TooLarge;
      }
      if !arrivals[i].more {
        return Complete(body);
      }
      i := i + 1;
    }
  }

  // Receivers ----------------------------------------------------------------------------------------

  /** The buffered body, handed over whole on the first read. */
  class Replay {
    const body: Bytes
    var delivered: bool

    constructor (body: Bytes)
      ensures this.body == body && !delivered
    {
      this.body, delivered := body, false;
    }

    method Receive() returns (m: Arrival)
      modifies this
      ensures m == Chunk(if old(delivered) then [] else body, false) && delivered
    {
      if delivered {
        return Chunk([], false);
      }
      delivered := true;
      m := Chunk(body, false);
    }
  }

  /** The client's own messages, counted as they pass; nothing stands for the error raised over the limit. */
  class Counted {
    const arrivals: seq<Arrival>
    const limit: nat
    var next: nat
    var consumed: nat
    ghost var handed: Bytes

    constructor (arrivals: seq<Arrival>, limit: nat)
      ensures this.arrivals == arrivals && this.limit == limit && next == 0 && handed == [] && Valid()
    {
      this.arrivals, this.limit := arrivals, limit;
      next, consumed, handed := 0, 0, [];
    }

    /** What was handed on is what was sent, as long as it stays within the limit. */
    ghost predicate Valid()
      reads this
    {
      && next <= |arrivals| && consumed == |Concat(arrivals[..next])|
      && handed <= Concat(arrivals[..next]) && |handed| <= limit
      && (consumed <= limit ==> handed == Concat(arrivals[..next]))
    }

    method Receive() returns (m: Option<Arrival>)
      requires Valid()
      modifies this
      ensures Valid()
      ensures m == None ==> handed == old(handed) && consumed > limit
      ensures m.Some? ==> consumed <= limit && handed == old(handed) + if m.value.Chunk? then m.value.body else []
    {
      var message := Disconnect;
      if next < |arrivals| {
        message := arrivals[next];
        assert arrivals[..next + 1][..next] == arrivals[..next];
        next := next + 1;
      }
      if message.Chunk? {
        consumed := consumed + |message.body|;
      }
      if consumed > limit {
        return None;
      }
      handed := handed + if message.Chunk? then message.body else [];
      m := Some(message);
    }
  }

  class Client {
    var sent: seq<Rejection>

    method Reject(r: Rejection)
      modifies this
      ensures sent == old(sent) + [r]
    {
      sent := sent + [r];
    }
  }

  /** An application that reads its body as often as it likes, and may or may not let a refusal through. */
  class App {
    var runs: nat
    var seen: Bytes

    method RunReplay(r: Replay)
      requires !r.delivered
      modifies this, r
      ensures runs == old(runs) + 1 && (seen == [] || seen == r.body)
    {
      runs, seen := runs + 1, [];
      var wish: int := *;
      var times := if wish < 0 then 0 else wish;
      for i := 0 to times
        invariant runs == old(runs) + 1 && r.delivered == (i > 0) && seen == if i > 0 then r.body else []
      {
        var m := r.Receive();
        seen := seen + m.body;
      }
    }

    method RunCounted(c: Counted) returns (raised: bool)
      requires c.Valid() && c.handed == []
      modifies this, c
      ensures c.Valid() && runs == old(runs) + 1 && seen == c.handed
      ensures raised ==> |Concat(c.arrivals)| > c.limit
    {
      runs, seen, raised := runs + 1, [], false;
      var wish: int := *;
      var times := if wish < 0 then 0 else wish;
      for i := 0 to times
        invariant c.Valid() && runs == old(runs) + 1 && seen == c.handed
      {
        var m := c.Receive();
        if m.Some? && m.value.Chunk? {
          seen := seen + m.value.body;
        }
        if m == None {
          var propagates: bool := *;
          if propagates {
            ConcatGrows(c.arrivals, c.next, |c.arrivals|);
            assert c.arrivals[..|c.arrivals|] == c.arrivals;
            return true;
          }
        }
      }
    }

    method RunRaw(arrivals: seq<Arrival>)
      modifies this
      ensures runs == old(runs) + 1
    {
      var read: Bytes := *;
      runs, seen := runs + 1, read;
    }
  }

  // The middlewares ----------------------------------------------------------------------------------

  /** The codes of the two middlewares for a body that cannot be buffered. */
  datatype Codes = Codes(late: string, large: string)

  const REQUEST := Codes("REQUEST_TIMEOUT", "REQUEST_TOO_LARGE")
  const PUBLIC_REQUEST := Codes("PUBLIC_REQUEST_TIMEOUT", "PUBLIC_REQUEST_TOO_LARGE")

  /** What buffering ends in: how often the application runs, and what the client is told. */
  function Told(v: Buffered, codes: Codes): seq<Rejection> {
    match v
    case TooLarge => [Rejection(413, codes.large)]
    case TimedOut => [Rejection(408, codes.late)]
    case _ => []
  }

  method HandleBuffered(arrivals: seq<Arrival>, limit: nat, codes: Codes, app: App, client: Client)
    modifies app, client
    ensures var v := Verdict(arrivals, limit);
      && client.sent == old(client.sent) + Told(v, codes)
      && app.runs == old(app.runs) + (if v.Complete? then 1 else 0)
      && (v.Complete? ==> app.seen == [] || app.seen == v.body)
  {
    var r := Collect(arrivals, limit);
    match r {
      case TooLarge => client.Reject(Rejection(413, codes.large));
      case TimedOut => client.Reject(Rejection(408, codes.late));
      case Gone =>
      case Complete(body) =>
        var replay := new Replay(body);
        app.RunReplay(replay);
    }
  }

  method HandleUpload(arrivals: seq<Arrival>, limit: nat, app: App, client: Client)
    modifies app, client
    ensures app.runs == old(app.runs) + 1 && |app.seen| <= limit && app.seen <= Concat(arrivals)
    ensures client.sent == old(client.sent) ||
      (client.sent == old(client.sent) + [Rejection(413, "FILE_TOO_LARGE")] && |Concat(arrivals)| > limit)
  {
    var counted := new Counted(arrivals, limit);
    var raised := app.RunCounted(counted);
    ConcatGrows(arrivals, counted.next, |arrivals|);
    assert arrivals[..|arrivals|] == arrivals;
    if raised {
      client.Reject(Rejection(413, "FILE_TOO_LARGE"));
    }
  }

  /** The way a request takes through the public middleware, which is outside, and the general one. */
  function Taken(s: Settings, scope: Scope): (Way, Codes) {
    var outer := PublicRoute(s, scope);
    if outer != Pass then (outer, PUBLIC_REQUEST) else (Route(s, scope), REQUEST)
  }

  /** A request through both middlewares. */
  method Serve(s: Settings, scope: Scope, arrivals: seq<Arrival>, app: App, client: Client)
    modifies app, client
    ensures var (way, codes) := Taken(s, scope);
      match way
      case Pass => app.runs == old(app.runs) + 1 && client.sent == old(client.sent)
      case Refuse(r) => app.runs == old(app.runs) && client.sent == old(client.sent) + [r]
      case Buffer(limit) =>
        var v := Verdict(arrivals, limit);
        && client.sent == old(client.sent) + Told(v, codes)
        && app.runs == old(app.runs) + (if v.Complete? then 1 else 0)
        && (v.Complete? ==> app.seen == [] || app.seen == v.body)
      case Count(limit) =>
        && app.runs == old(app.runs) + 1 && |app.seen| <= limit && app.seen <= Concat(arrivals)
        && (client.sent == old(client.sent) ||
            (client.sent == old(client.sent) + [Rejection(413, "FILE_TOO_LARGE")] && |Concat(arrivals)| > limit))
  {
    match PublicRoute(s, scope) {
      case Refuse(r) => client.Reject(r);
      case Buffer(limit) => HandleBuffered(arrivals, limit, PUBLIC_REQUEST, app, client);
      case Pass =>
        match Route(s, scope) {
          case Refuse(r) => client.Reject(r);
          case Buffer(limit) => HandleBuffered(arrivals, limit, REQUEST, app, client);
          case Count(limit) => HandleUpload(arrivals, limit, app, client);
          case Pass => app.RunRaw(arrivals);
        }
    }
  }

  // What the two middlewares guarantee together -------------------------------------------------------

  /** A request that one middleware looks at is passed on by the other, so no body is buffered twice. */
  lemma OneMiddleware(s: Settings, scope: Scope)
    ensures PublicRoute(s, scope) == Pass || Route(s, scope) == Pass
  {
  }

  /** A body is only ever read when no length was declared, or one that is a number within the limit of its path;
      the general middleware counts exactly the uploads, and never buffers one. */
  lemma OnlyWithinLimit(s: Settings, scope: Scope)
    ensures var (way, _) := Taken(s, scope);
      var declared := if scope.contentLength.Some? then s.number(scope.contentLength.value) else Some(0);
      && (way.Buffer? || way.Count? ==> declared.Some? && declared.value <= way.limit)
      && (way.Count? ==>
            IsUpload(scope.path) && way.limit == s.upload && declared.value >= 0 && scope.contentLength.Some?)
      && (way.Buffer? ==> way.limit == if scope.path == PUBLIC then s.public else LimitFor(s, scope.path))
      && (way.Buffer? ==> scope.path == PUBLIC || !IsUpload(scope.path))
  {
    hide Upper;
    assert !IsUpload("/api/v1/webhooks/mailgun") by {
      assert "/api/v1/webhooks/mailgun"[8] == 'w' && REVISIONS[8] == 'k' && VERSIONS[8] == 'a';
      assert "/api/v1/documents/ingest"[8] == 'd' && "/api/v1/admin/documents"[8] == 'a';
      assert "/api/v1/admin/results/csv-upload"[8] == 'a';
    }
    hide IsUpload;
  }

  /** A body under the API that no middleware bounds is sent to the public chat with a method other than POST in
      capital letters; and every such request is unbounded. */
  lemma UnboundedIff(s: Settings, scope: Scope)
    requires scope.kind == "http" && Upper(scope.verb) in {"POST", "PUT", "PATCH", "DELETE"}
    requires "/api/" <= scope.path
    ensures Taken(s, scope).0 == Pass <==> scope.path == PUBLIC && scope.verb != "POST"
  {
    assert "/api/" <= PUBLIC;
    if scope.verb == "POST" {
      assert Upper(scope.verb) == "POST";
    }
  }

  /** Such a request: the method in small letters. */
  lemma SmallLettersPass(s: Settings, contentLength: Option<string>)
    ensures var scope := Scope("http", "post", PUBLIC, contentLength);
      Upper(scope.verb) == "POST" && "/api/" <= scope.path && Taken(s, scope).0 == Pass
  {
    var scope := Scope("http", "post", PUBLIC, contentLength);
    assert Upper("post") == "POST" && "/api/" <= PUBLIC;
    assert "post"[0] == 'p' && "POST"[0] == 'P';
    hide Taken, Upper, PUBLIC;
    UnboundedIff(s, scope);
  }

  /** How a finished body is cut into chunks does not matter. */
  lemma ChunkingIrrelevant(a: seq<Arrival>, b: seq<Arrival>, limit: nat)
    requires Finished(a) && Finished(b) && Concat(a) == Concat(b)
    ensures Verdict(a, limit) == Verdict(b, limit)
    ensures Verdict(a, limit) == if |Concat(a)| > limit then TooLarge else Complete(Concat(a))
  {
    ExtentIs(a, |a|);
    ExtentIs(b, |b|);
    assert a[..|a|] == a && b[..|b|] == b;
  }

  /** Chunks of which exactly the last says that nothing follows. */
  predicate Finished(a: seq<Arrival>) {
    a != [] && forall k | 0 <= k < |a| :: a[k].Chunk? && (a[k].more <==> k < |a| - 1)
  }

  /** Giving up early is no different from reading on: once the limit is passed, nothing that follows matters. */
  lemma {:induction false} TooLargeStays(a: seq<Arrival>, b: seq<Arrival>, limit: nat)
    requires Verdict(a, limit) == TooLarge
    ensures Verdict(a + b, limit) == TooLarge
  {
    var n := Extent(a);
    assert (a + b)[..n] == a[..n];
    ExtentIs(a + b, n);
    ConcatGrows(a + b, n, Extent(a + b));
  }

  /** Only a body within the limit is ever handed over, and it is what was sent. */
  lemma HandedOver(a: seq<Arrival>, limit: nat)
    requires Verdict(a, limit).Complete?
    ensures exists n | 0 < n <= |a| ::
      Finished(a[..n]) && Verdict(a, limit).body == Concat(a[..n]) && |Concat(a[..n])| <= limit
  {
    var n := Extent(a);
    assert Finished(a[..n]);
  }
}
