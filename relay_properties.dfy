/** Properties of the relay's state machine over single requests and over
    whole sequences of requests. */
module RelayProperties {
  import opened Wrappers
  import opened JsonValue
  import opened RelaySpec

  /** No request in `es` is a POST to /matches. */
  predicate NoMatchesPost(es: seq<Event>) {
    forall i :: 0 <= i < |es| ==> !es[i].req.MatchesPost?
  }

  /** No request in `es` is the startup hook. */
  predicate NoStartup(es: seq<Event>) {
    forall i :: 0 <= i < |es| ==> !es[i].req.Startup?
  }

  /** No request in `es` is a POST to /stream_links/{watchId}. */
  predicate NoLinksPostTo(es: seq<Event>, watchId: string) {
    forall i :: 0 <= i < |es| ==> !(es[i].req.StreamLinksPost? && es[i].req.watchId == watchId)
  }

  /** Every request in `es` either leaves the route tracker alone or logs `path`. */
  predicate OnlyPath(es: seq<Event>, path: string) {
    forall i :: 0 <= i < |es| ==> TrackedPath(es[i].req) == None || TrackedPath(es[i].req) == Some(path)
  }

  /** Handling `a` and then `b` is handling `a + b`. */
  lemma {:induction false} RunAppend(s: State, a: seq<Event>, b: seq<Event>)
    ensures Run(s, a + b) == Run(Run(s, a), b)
    decreases |a|
  {
    if a != [] {
      assert (a + b)[0] == a[0] && (a + b)[1..] == a[1..] + b;
      RunAppend(Step(s, a[0]), a[1..], b);
    } else {
      assert a + b == b;
    }
  }

  // ---------------------------------------------------------------------
  // The route tracker

  /** One request moves the route tracker exactly as `log_route` does for the
      path the handler logs, and not at all when the handler does not log. */
  lemma StepRoute(s: State, e: Event)
    ensures TrackedPath(e.req).Some? ==>
              SameRoute(Step(s, e), LogRoute(s, TrackedPath(e.req).value, e.newId))
    ensures TrackedPath(e.req).None? ==> SameRoute(Step(s, e), s)
  {
  }

  /** A logged request changes the correlation id if and only if its path
      differs from the previous one (given that the new id is not the old). */
  lemma IdChangesIffPathChanges(s: State, e: Event)
    requires TrackedPath(e.req).Some?
    requires Some(e.newId) != s.currentId
    ensures Step(s, e).currentId != s.currentId <==> s.lastRoute != TrackedPath(e.req)
    ensures Step(s, e).lastRoute == TrackedPath(e.req)
  {
    StepRoute(s, e);
  }

  /** A burst of requests to the path last recorded keeps one correlation id. */
  lemma {:induction false} SamePathKeepsId(s: State, path: string, es: seq<Event>)
    requires s.lastRoute == Some(path)
    requires OnlyPath(es, path)
    ensures SameRoute(Run(s, es), s)
    decreases |es|
  {
    if es != [] {
      StepRoute(s, es[0]);
      SamePathKeepsId(Step(s, es[0]), path, es[1..]);
    }
  }

  // ---------------------------------------------------------------------
  // The matches slot and its event

  /** Without a POST to /matches the slot keeps its value. */
  lemma {:induction false} MatchesUntouched(s: State, es: seq<Event>)
    requires NoMatchesPost(es)
    ensures Run(s, es).matches == s.matches
    decreases |es|
  {
    if es != [] {
      MatchesUntouched(Step(s, es[0]), es[1..]);
    }
  }

  /** Once set, the matches event stays set until the next startup. */
  lemma {:induction false} MatchesGateStaysOpen(s: State, es: seq<Event>)
    requires s.matchesGate
    requires NoStartup(es)
    ensures Run(s, es).matchesGate
    decreases |es|
  {
    if es != [] {
      MatchesGateStaysOpen(Step(s, es[0]), es[1..]);
    }
  }

  /** Only a POST to /matches sets the matches event. */
  lemma {:induction false} MatchesGateClosedWithoutPost(s: State, es: seq<Event>)
    requires !s.matchesGate
    requires NoMatchesPost(es)
    ensures !Run(s, es).matchesGate
    decreases |es|
  {
    if es != [] {
      MatchesGateClosedWithoutPost(Step(s, es[0]), es[1..]);
    }
  }

  /** A GET /matches before any POST to /matches blocks. */
  lemma ReadBeforePublishBlocks(es: seq<Event>, newId: Id)
    requires NoMatchesPost(es)
    ensures GetMatches(Run(Init(), es), newId).out == Blocked
  {
    MatchesGateClosedWithoutPost(Init(), es);
  }

  /** A successful POST to /matches releases every waiter, and what a
      released waiter sees is exactly the value just stored. */
  lemma PublishReleasesWaiters(s: State, body: Body, newId: Id)
    requires PostMatches(s, body, newId).out.Stored?
    ensures var t := PostMatches(s, body, newId).next;
            t.matches == Get(body.value.fields, "matches", JArr([])) &&
            MatchesAfterWait(t) == (if Truthy(t.matches) then Found(t.matches) else NotFound)
  {
  }

  /** Last writer wins: after a successful POST to /matches, followed by any
      requests that neither post matches nor restart, a GET returns exactly
      the posted value, or 404 when that value is empty. */
  lemma LastWriterWins(s: State, before: seq<Event>, fields: map<string, Json>, newId: Id, after: seq<Event>, readId: Id)
    requires Length(Get(fields, "matches", JArr([]))).Some?
    requires NoMatchesPost(after) && NoStartup(after)
    ensures var v := Get(fields, "matches", JArr([]));
            var final := Run(s, before + [Event(MatchesPost(Parsed(JObj(fields))), newId)] + after);
            final.matches == v &&
            GetMatches(final, readId).out == (if Truthy(v) then Found(v) else NotFound)
  {
    var post := Event(MatchesPost(Parsed(JObj(fields))), newId);
    RunAppend(s, before + [post], after);
    RunAppend(s, before, [post]);
    var mid := Run(s, before + [post]);
    assert mid == Step(Run(s, before), post);
    MatchesUntouched(mid, after);
    MatchesGateStaysOpen(mid, after);
  }

  /** Publishing an empty list, or a dict without "matches", makes later
      GETs answer 404 rather than wait. */
  lemma EmptyPublishReadsNotFound(s: State, fields: map<string, Json>, postId: Id, readId: Id)
    requires Get(fields, "matches", JArr([])) == JArr([])
    ensures PostMatches(s, Parsed(JObj(fields)), postId).out == Stored(0)
    ensures GetMatches(PostMatches(s, Parsed(JObj(fields)), postId).next, readId).out == NotFound
  {
  }

  /** A dict whose "matches" value has no length still overwrites the slot,
      but the event keeps its previous state and the reply is an error. */
  lemma UnsizedMatchesOverwriteWithoutSignal(s: State, fields: map<string, Json>, newId: Id)
    requires "matches" in fields && Length(fields["matches"]).None?
    ensures var r := PostMatches(s, Parsed(JObj(fields)), newId);
            r.out == PostError && r.next.matches == fields["matches"] &&
            r.next.matchesGate == s.matchesGate
  {
  }

  // ---------------------------------------------------------------------
  // The stream-links table and its event

  /** No request ever sets the stream-links event. */
  lemma {:induction false} LinksGateStaysClosed(s: State, es: seq<Event>)
    requires !s.linksGate
    ensures !Run(s, es).linksGate
    decreases |es|
  {
    if es != [] {
      LinksGateStaysClosed(Step(s, es[0]), es[1..]);
    }
  }

  /** In every reachable state the stream-links event is clear. */
  lemma ReachableLinksGateClosed(s: State)
    requires Reachable(s)
    ensures !s.linksGate
  {
    var es :| Run(Init(), es) == s;
    LinksGateStaysClosed(Init(), es);
  }

  /** An entry is only ever changed by a POST to its own key. */
  lemma {:induction false} LinkEntryUntouched(s: State, es: seq<Event>, watchId: string)
    requires NoLinksPostTo(es, watchId)
    ensures watchId in Run(s, es).links <==> watchId in s.links
    ensures watchId in s.links ==> Run(s, es).links[watchId] == s.links[watchId]
    decreases |es|
  {
    if es != [] {
      LinkEntryUntouched(Step(s, es[0]), es[1..], watchId);
    }
  }

  /** Entries are never removed. */
  lemma {:induction false} LinksNeverRemoved(s: State, es: seq<Event>, watchId: string)
    requires watchId in s.links
    ensures watchId in Run(s, es).links
    decreases |es|
  {
    if es != [] {
      LinksNeverRemoved(Step(s, es[0]), es[1..], watchId);
    }
  }

  /** A POST to one key leaves what a GET of any other key answers unchanged. */
  lemma PostLinksIsolation(s: State, watchId: string, body: Body, other: string, newId: Id)
    requires other != watchId
    ensures GetStreamLinks(PostStreamLinks(s, watchId, body).next, other, newId).out
            == GetStreamLinks(s, other, newId).out
  {
  }

  /** After a POST to a key, later requests that do not post to that key
      leave its entry in place, and a GET of it returns it at once. */
  lemma LinksLastWriterWins(s: State, before: seq<Event>, watchId: string, v: Json, newId: Id, after: seq<Event>, readId: Id)
    requires NoLinksPostTo(after, watchId)
    ensures var final := Run(s, before + [Event(StreamLinksPost(watchId, Parsed(v)), newId)] + after);
            GetStreamLinks(final, watchId, readId).out == Found(v)
  {
    var post := Event(StreamLinksPost(watchId, Parsed(v)), newId);
    RunAppend(s, before + [post], after);
    RunAppend(s, before, [post]);
    var mid := Run(s, before + [post]);
    assert mid == Step(Run(s, before), post);
    LinkEntryUntouched(mid, after, watchId);
  }

  /** In a reachable state a GET for a missing key blocks. */
  lemma AbsentLinkBlocks(es: seq<Event>, watchId: string, newId: Id)
    requires watchId !in Run(Init(), es).links
    ensures GetStreamLinks(Run(Init(), es), watchId, newId).out == Blocked
  {
    LinksGateStaysClosed(Init(), es);
  }

  /** A GET for a missing key is never released: whatever is handled after it,
      including a POST of that very key, its wait still does not return. */
  lemma PendingLinkReadNeverReleased(es: seq<Event>, watchId: string, newId: Id, later: seq<Event>)
    requires watchId !in Run(Init(), es).links
    ensures var r := GetStreamLinks(Run(Init(), es), watchId, newId);
            r.out == Blocked && StreamLinksAfterWait(Run(r.next, later), watchId) == Blocked
  {
    LinksGateStaysClosed(Init(), es);
    var r := GetStreamLinks(Run(Init(), es), watchId, newId);
    LinksGateStaysClosed(r.next, later);
  }

  // ---------------------------------------------------------------------
  // Startup

  /** Restarting closes both events; a GET /matches then blocks again even
      though the slot still holds the last published value. */
  lemma StartupBlocksReaders(s: State, newId: Id)
    ensures StartupEvent(s).matches == s.matches
    ensures GetMatches(StartupEvent(s), newId).out == Blocked
  {
  }
}
