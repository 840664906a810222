/** Which way a request takes and what becomes of its body, told case by case. */
module BodyLimitMeaning {
  import opened Text
  import opened BodyLimit

  // Routing --------------------------------------------------------------------------------------------

  /** The same letters, small ones counting as capitals. */
  predicate ReadsAs(s: string, capitals: string) {
    && |s| == |capitals|
    && forall i | 0 <= i < |s| :: s[i] == capitals[i] || ('a' <= s[i] <= 'z' && s[i] - 'a' + 'A' == capitals[i])
  }

  predicate CarriesBody(verb: string) {
    ReadsAs(verb, "POST") || ReadsAs(verb, "PUT") || ReadsAs(verb, "PATCH") || ReadsAs(verb, "DELETE")
  }

  predicate Between(path: string, head: string, tail: string) {
    |path| >= |head| && |path| >= |tail| && path[..|head|] == head && path[|path| - |tail|..] == tail
  }

  predicate TakesFiles(path: string) {
    || path == "/api/v1/documents/ingest" || path == "/api/v1/admin/documents"
    || path == "/api/v1/admin/results/csv-upload"
    || Between(path, "/api/v1/knowledge/revisions/", "/documents")
    || Between(path, "/api/v1/admin/documents/", "/versions")
  }

  predicate OfPublicChat(scope: Scope) {
    scope.kind == "http" && scope.verb == "POST" && scope.path == "/api/v1/chat/public"
  }

  predicate OfApi(scope: Scope) {
    && scope.kind == "http" && CarriesBody(scope.verb) && Between(scope.path, "/api/", "")
    && scope.path != "/api/v1/chat/public"
  }

  lemma UpperIs(s: string, capitals: string)
    requires forall i | 0 <= i < |capitals| :: 'A' <= capitals[i] <= 'Z'
    ensures Upper(s) == capitals <==> ReadsAs(s, capitals)
  {
    assert Upper(s) == capitals ==> forall i | 0 <= i < |s| :: Upper(s)[i] == capitals[i];
  }

  lemma BodyVerbs(verb: string)
    ensures Upper(verb) in {"POST", "PUT", "PATCH", "DELETE"} <==> CarriesBody(verb)
  {
    UpperIs(verb, "POST");
    UpperIs(verb, "PUT");
    UpperIs(verb, "PATCH");
    UpperIs(verb, "DELETE");
    hide Upper, ReadsAs;
  }

  lemma UploadIs(path: string)
    ensures IsUpload(path) <==> TakesFiles(path)
  {
    assert REVISIONS == "/api/v1/knowledge/revisions/" && VERSIONS == "/api/v1/admin/documents/";
    hide REVISIONS, VERSIONS;
    BetweenIs(path, "/api/v1/knowledge/revisions/", "/documents");
    BetweenIs(path, "/api/v1/admin/documents/", "/versions");
    hide Between, EndsWith;
  }

  lemma BetweenIs(path: string, head: string, tail: string)
    ensures Between(path, head, tail) <==> head <= path && EndsWith(path, tail)
  {
  }

  /** The way of every request. The public chat is buffered up to its own limit; other bodies under the API are buffered
      up to the limit of their path, uploads counted; a declared length has to be a number and within the limit, and
      uploads have to declare one. Everything else passes. */
  lemma WayIs(s: Settings, scope: Scope)
    ensures var (way, codes) := Taken(s, scope);
      var length := if scope.contentLength.Some? then s.number(scope.contentLength.value) else None;
      if OfPublicChat(scope) then
        && codes == PUBLIC_REQUEST
        && way == if scope.contentLength == None then Buffer(s.public)
                  else if length == None then Refuse(Rejection(400, "PUBLIC_REQUEST_INVALID"))
                  else if length.value > s.public then Refuse(Rejection(413, "PUBLIC_REQUEST_TOO_LARGE"))
                  else Buffer(s.public)
      else if OfApi(scope) then
        var files := TakesFiles(scope.path);
        var limit := if scope.path == "/api/v1/webhooks/mailgun" then s.webhook
                     else if files then s.upload
                     else s.request;
        && codes == REQUEST
        && way == if scope.contentLength == None then
                    if files then Refuse(Rejection(411, "CONTENT_LENGTH_REQUIRED")) else Buffer(limit)
                  else if length == None || length.value < 0 then Refuse(Rejection(400, "REQUEST_INVALID"))
                  else if length.value > limit then
                    Refuse(Rejection(413, if files then "FILE_TOO_LARGE" else "REQUEST_TOO_LARGE"))
                  else if files then Count(limit) else Buffer(limit)
      else way == Pass
  {
    BodyVerbs(scope.verb);
    UploadIs(scope.path);
    BetweenIs(scope.path, "/api/", "");
    assert PUBLIC == "/api/v1/chat/public" && EndsWith(scope.path, "");
    hide IsUpload, TakesFiles, Upper, CarriesBody, Between, EndsWith, PUBLIC;
  }

  /** What the client is told where a body was not handed over. */
  lemma ToldIs()
    ensures Told(TooLarge, REQUEST) == [Rejection(413, "REQUEST_TOO_LARGE")]
    ensures Told(TimedOut, REQUEST) == [Rejection(408, "REQUEST_TIMEOUT")]
    ensures Told(TooLarge, PUBLIC_REQUEST) == [Rejection(413, "PUBLIC_REQUEST_TOO_LARGE")]
    ensures Told(TimedOut, PUBLIC_REQUEST) == [Rejection(408, "PUBLIC_REQUEST_TIMEOUT")]
    ensures Told(Gone, REQUEST) == Told(Gone, PUBLIC_REQUEST) == []
    ensures forall body :: Told(Complete(body), REQUEST) == Told(Complete(body), PUBLIC_REQUEST) == []
  {
  }

  // Bodies ---------------------------------------------------------------------------------------------

  /** The bodies of the chunks, one after the other. */
  function Joined(arrivals: seq<Arrival>): Bytes {
    if arrivals == [] then []
    else (if arrivals[0].Chunk? then arrivals[0].body else []) + Joined(arrivals[1..])
  }

  lemma {:induction false} JoinedLast(p: seq<Arrival>, last: Arrival)
    ensures Joined(p + [last]) == Joined(p) + if last.Chunk? then last.body else []
  {
    var all := p + [last];
    if p == [] {
      assert all[1..] == [] && Joined([]) == [];
    } else {
      assert all[1..] == p[1..] + [last] && all[0] == p[0];
      JoinedLast(p[1..], last);
      var first, x := if p[0].Chunk? then p[0].body else [], if last.Chunk? then last.body else [];
      assert Joined(all) == first + Joined(all[1..]) && Joined(p) == first + Joined(p[1..]);
      hide Joined;
      Associative(first, Joined(p[1..]), x);
    }
  }

  lemma Associative(a: Bytes, b: Bytes, c: Bytes)
    ensures a + (b + c) == a + b + c
  {
  }

  lemma {:induction false} JoinedIsConcat(arrivals: seq<Arrival>)
    ensures Joined(arrivals) == Concat(arrivals)
  {
    if arrivals != [] {
      var p := arrivals[..|arrivals| - 1];
      JoinedIsConcat(p);
      JoinedLast(p, arrivals[|arrivals| - 1]);
      assert p + [arrivals[|arrivals| - 1]] == arrivals;
    }
  }

  /** The first n arrivals are chunks, and all but possibly the last announce more. */
  predicate Flowing(arrivals: seq<Arrival>, n: nat) {
    n <= |arrivals| && forall k | 0 <= k < n :: arrivals[k].Chunk? && (k < n - 1 ==> arrivals[k].more)
  }

  lemma FlowingWithin(arrivals: seq<Arrival>, n: nat)
    requires Flowing(arrivals, n)
    ensures n <= Extent(arrivals)
  {
    ExtentIs(arrivals, n);
  }

  /** A body is too large exactly if some beginning of it is over the limit. */
  lemma TooLargeIff(arrivals: seq<Arrival>, limit: nat)
    ensures Verdict(arrivals, limit) == TooLarge <==>
      exists n: nat :: Flowing(arrivals, n) && |Joined(arrivals[..n])| > limit
  {
    var m := Extent(arrivals);
    JoinedIsConcat(arrivals[..m]);
    assert Flowing(arrivals, m);
    forall n: nat | Flowing(arrivals, n)
      ensures |Joined(arrivals[..n])| <= |Joined(arrivals[..m])|
    {
      FlowingWithin(arrivals, n);
      JoinedIsConcat(arrivals[..n]);
      ConcatGrows(arrivals, n, m);
    }
    hide Joined, Concat, Extent, Flowing;
  }

  /** It is handed over exactly if a chunk that announces nothing more comes within the limit: all of it. */
  lemma CompleteIff(arrivals: seq<Arrival>, limit: nat, body: Bytes)
    ensures Verdict(arrivals, limit) == Complete(body) <==>
      exists n: nat :: && Flowing(arrivals, n) && n > 0 && !arrivals[n - 1].more
                       && Joined(arrivals[..n]) == body && |body| <= limit
  {
    var m := Extent(arrivals);
    JoinedIsConcat(arrivals[..m]);
    assert Flowing(arrivals, m);
    forall n: nat | Flowing(arrivals, n) && n > 0 && !arrivals[n - 1].more
      ensures n == m
    {
      ExtentIs(arrivals, n);
    }
    hide Joined, Concat, Extent, Flowing;
  }

  /** After n chunks, none of them the last and all within the limit, the client disconnects. */
  predicate LeavesAfter(arrivals: seq<Arrival>, n: nat, limit: nat) {
    && Flowing(arrivals, n) && n < |arrivals| && arrivals[n].Disconnect?
    && (n > 0 ==> arrivals[n - 1].more) && |Joined(arrivals[..n])| <= limit
  }

  lemma ExtentEnds(arrivals: seq<Arrival>)
    ensures var m := Extent(arrivals);
      && Flowing(arrivals, m)
      && (m < |arrivals| && !Ended(arrivals) ==> arrivals[m].Disconnect? && (m > 0 ==> arrivals[m - 1].more))
  {
  }

  /** The request is dropped without a word exactly if the client disconnects first. */
  lemma GoneIff(arrivals: seq<Arrival>, limit: nat)
    ensures Verdict(arrivals, limit) == Gone <==> exists n: nat :: LeavesAfter(arrivals, n, limit)
  {
    var m := Extent(arrivals);
    JoinedIsConcat(arrivals[..m]);
    ExtentEnds(arrivals);
    if n: nat :| LeavesAfter(arrivals, n, limit) {
      ExtentIs(arrivals, n);
      assert n == m;
    }
    if Verdict(arrivals, limit) == Gone {
      hide Joined, Concat, Extent, Flowing, Ended;
      assert LeavesAfter(arrivals, m, limit);
    }
    hide Joined, Concat, Extent;
  }
}
