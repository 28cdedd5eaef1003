/** The relay's module-level state as one object whose handlers update its
    fields in place. Each handler is proved to move the object's state, and
    to reply, exactly as the corresponding function of RelaySpec says. */
module RelayServer {
  import opened Wrappers
  import opened JsonValue
  import opened RelaySpec

  class Relay {
    /** `matches_data` and the `data_available` event's flag. */
    var matches: Json
    var matchesGate: bool
    /** `stream_links_data` and the `stream_links_available` event's flag. */
    var links: map<string, Json>
    var linksGate: bool
    /** `log_route.last_route` and `current_route_id`. */
    var lastRoute: Option<string>
    var currentId: Option<Id>

    /** The object's state as a value of the specification. */
    function Snapshot(): State
      reads this
    {
      State(matches, matchesGate, links, linksGate, lastRoute, currentId)
    }

    /** The state at import time. */
    constructor ()
      ensures Snapshot() == Init()
    {
      matches := JArr([]);
      matchesGate := false;
      links := map[];
      linksGate := false;
      lastRoute := None;
      currentId := None;
    }

    /** `log_route`, with the id `uuid4` would produce passed in. */
    method LogRoute(path: string, newId: Id)
      modifies this
      ensures Snapshot() == RelaySpec.LogRoute(old(Snapshot()), path, newId)
      ensures lastRoute == Some(path)
    {
      if lastRoute != Some(path) {
        currentId := Some(newId);
        lastRoute := Some(path);
      }
    }

    /** GET /matches. */
    method GetMatches(newId: Id) returns (out: GetOutcome)
      modifies this
      ensures Transition(Snapshot(), out) == RelaySpec.GetMatches(old(Snapshot()), newId)
      ensures matches == old(matches) && matchesGate == old(matchesGate)
      ensures out.Blocked? <==> !matchesGate
    {
      LogRoute(MatchesPath, newId);
      out := AwaitMatches();
    }

    /** The rest of GET /matches once the route is logged: wait for the
        matches event, then answer from the slot. A waiter that was
        `Blocked` gets this answer, evaluated on the state when the waiter
        resumes. */
    method AwaitMatches() returns (out: GetOutcome)
      ensures out == MatchesAfterWait(Snapshot())
      ensures out.Blocked? <==> !matchesGate
      ensures out.NotFound? <==> matchesGate && !Truthy(matches)
      ensures out.Found? ==> out.value == matches
    {
      if !matchesGate {
        return Blocked;
      }
      if !Truthy(matches) {
        return NotFound;
      }
      return Found(matches);
    }

    /** POST /matches. */
    method PostMatches(body: Body, newId: Id) returns (out: PostMatchesOutcome)
      modifies this
      ensures Transition(Snapshot(), out) == RelaySpec.PostMatches(old(Snapshot()), body, newId)
      ensures links == old(links) && linksGate == old(linksGate)
    {
      LogRoute(MatchesPath, newId);
      if !(body.Parsed? && body.value.JObj?) {
        return PostError;
      }
      var fields := body.value.fields;
      matches := if "matches" in fields then fields["matches"] else JArr([]);
      var n := Length(matches);
      if n.None? {
        return PostError;
      }
      matchesGate := true;
      return Stored(n.value);
    }

    /** GET /admins. */
    method GetAdmins(newId: Id) returns (route: string)
      modifies this
      ensures Transition(Snapshot(), route) == RelaySpec.GetAdmins(old(Snapshot()), newId)
    {
      LogRoute(AdminsPath, newId);
      route := AdminsPath;
    }

    /** GET /stream_links/{watch_id}. */
    method GetStreamLinks(watchId: string, newId: Id) returns (out: GetOutcome)
      modifies this
      ensures Transition(Snapshot(), out) == RelaySpec.GetStreamLinks(old(Snapshot()), watchId, newId)
      ensures links == old(links) && linksGate == old(linksGate)
    {
      LogRoute(StreamLinksPath(watchId), newId);
      if watchId in links {
        return Found(links[watchId]);
      }
      out := AwaitStreamLinks(watchId);
    }

    /** The rest of GET /stream_links/{watch_id} once the key was found
        missing: wait for the stream-links event, then look the key up once
        more. A waiter that was `Blocked` gets this answer, evaluated on the
        state when the waiter resumes. */
    method AwaitStreamLinks(watchId: string) returns (out: GetOutcome)
      ensures out == StreamLinksAfterWait(Snapshot(), watchId)
      ensures out.Blocked? <==> !linksGate
      ensures out.NotFound? <==> linksGate && watchId !in links
      ensures out.Found? ==> watchId in links && out.value == links[watchId]
    {
      if !linksGate {
        return Blocked;
      }
      if watchId in links {
        return Found(links[watchId]);
      }
      return NotFound;
    }

    /** POST /stream_links/{watch_id}. */
    method PostStreamLinks(watchId: string, body: Body) returns (out: PostLinksOutcome)
      modifies this
      ensures Transition(Snapshot(), out) == RelaySpec.PostStreamLinks(old(Snapshot()), watchId, body)
      ensures linksGate == old(linksGate)
    {
      if body.Malformed? {
        return BadRequest;
      }
      links := links[watchId := body.value];
      return Accepted;
    }

    /** The startup hook. */
    method StartupEvent()
      modifies this
      ensures Snapshot() == RelaySpec.StartupEvent(old(Snapshot()))
    {
      matchesGate := false;
      linksGate := false;
    }
  }

  /** A client of the class: POST /matches with one record, then GET /matches,
      on a relay fresh from import. The GET returns the posted list. */
  method PostThenGetMatches(record: Json, postId: Id, readId: Id) returns (posted: PostMatchesOutcome, read: GetOutcome)
    ensures posted == Stored(1)
    ensures read == Found(JArr([record]))
  {
    var relay := new Relay();
    posted := relay.PostMatches(Parsed(JObj(map["matches" := JArr([record])])), postId);
    read := relay.GetMatches(readId);
  }

  /** A client of the class: GET /stream_links/{k} on a relay fresh from
      import blocks, and a later POST of that key does not release it: the
      waiter's re-check, evaluated after the POST, still blocks. */
  method StreamLinksWaiterStaysBlocked(watchId: string, payload: Json, getId: Id) returns (first: GetOutcome, posted: PostLinksOutcome, resumed: GetOutcome)
    ensures first == Blocked
    ensures posted == Accepted
    ensures resumed == Blocked
  {
    var relay := new Relay();
    first := relay.GetStreamLinks(watchId, getId);
    posted := relay.PostStreamLinks(watchId, Parsed(payload));
    resumed := relay.AwaitStreamLinks(watchId);
  }
}
