/** Corrected versions of two handlers, next to the code as written in
    RelaySpec. The comments of the stream-links handlers say that the event
    controls when stream links are available and that a reader of a missing
    key waits until they are; the code never sets that event. The matches
    handler replaces the slot before finding out that the posted value has
    no length. These functions say what the code evidently means to do, and
    the lemmas prove the intended properties of them. */
module RelayIntended {
  import opened Wrappers
  import opened JsonValue
  import opened RelaySpec

  /** POST /stream_links/{watch_id} as intended: the upsert of the code as
      written, and on success the stream-links event is set. */
  function PostStreamLinksReleasing(s: State, watchId: string, body: Body): (r: Transition<PostLinksOutcome>)
    ensures r.out == PostStreamLinks(s, watchId, body).out
    ensures r.next.links == PostStreamLinks(s, watchId, body).next.links
    ensures SameRoute(r.next, s)
    ensures r.next.matches == s.matches && r.next.matchesGate == s.matchesGate
    ensures r.next.linksGate <==> s.linksGate || body.Parsed?
  {
    var t := PostStreamLinks(s, watchId, body);
    if t.out.Accepted? then Transition(t.next.(linksGate := true), t.out) else t
  }

  /** With the corrected POST, a reader waiting for the posted key is
      released with its payload, and a reader waiting for any other missing
      key is released too and answers 404 after its one re-check. */
  lemma ReleasingPostWakesWaiters(s: State, watchId: string, v: Json, other: string)
    requires other != watchId && other !in s.links
    ensures var t := PostStreamLinksReleasing(s, watchId, Parsed(v)).next;
            StreamLinksAfterWait(t, watchId) == Found(v) &&
            StreamLinksAfterWait(t, other) == NotFound
  {
  }

  /** POST /matches as intended: a "matches" value without a length is
      rejected before the slot is replaced. */
  function PostMatchesValidated(s: State, body: Body, newId: Id): (r: Transition<PostMatchesOutcome>)
    ensures r.out.PostError? ==> r.next == LogRoute(s, MatchesPath, newId)
    ensures r.out.Stored? <==> PostMatches(s, body, newId).out.Stored?
  {
    var t := LogRoute(s, MatchesPath, newId);
    if body.Parsed? && body.value.JObj? then
      var v := Get(body.value.fields, "matches", JArr([]));
      match Length(v)
      case Some(n) => Transition(t.(matches := v, matchesGate := true), Stored(n))
      case None => Transition(t, PostError)
    else
      Transition(t, PostError)
  }

  /** The corrected POST /matches agrees with the code as written on every
      successful post, and a rejected post leaves the slot and the event as
      they were. */
  lemma ValidatedPostKeepsSlotOnError(s: State, body: Body, newId: Id)
    ensures PostMatches(s, body, newId).out.Stored? ==>
              PostMatchesValidated(s, body, newId) == PostMatches(s, body, newId)
    ensures PostMatchesValidated(s, body, newId).out.PostError? ==>
              PostMatchesValidated(s, body, newId).next.matches == s.matches &&
              PostMatchesValidated(s, body, newId).next.matchesGate == s.matchesGate
  {
  }
}
