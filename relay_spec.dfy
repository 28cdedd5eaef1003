/** The relay's in-memory state machine as pure functions: one function per
    HTTP handler, each a deterministic step from the state before the request
    to the state after it, together with the reply. Waiting on an event whose
    flag is clear is the reply `Blocked`; what a waiter sees once the flag is
    set is the "after wait" function evaluated on the state when the waiter
    resumes. */
module RelaySpec {
  import opened Wrappers
  import opened JsonValue

  /** A correlation id, as produced by `str(uuid.uuid4())`. */
  type Id = string

  const MatchesPath: string := "/matches"
  const AdminsPath: string := "/admins"
  const StreamLinksPrefix: string := "/stream_links/"

  /** The request path of `/stream_links/{watch_id:path}`. */
  function StreamLinksPath(watchId: string): string {
    StreamLinksPrefix + watchId
  }

  /** The module-level state: the matches slot and its event flag, the
      stream-links table and its event flag, and the route tracker
      (`log_route.last_route`, `current_route_id`). */
  datatype State = State(
    matches: Json,
    matchesGate: bool,
    links: map<string, Json>,
    linksGate: bool,
    lastRoute: Option<string>,
    currentId: Option<Id>)

  /** The state at import time: both lists empty, both events clear, no
      route seen and no id yet. */
  function Init(): (s: State)
    ensures !s.matchesGate && !s.linksGate
    ensures Length(s.matches) == Some(0) && s.links == map[]
    ensures s.lastRoute == None && s.currentId == None
  {
    State(JArr([]), false, map[], false, None, None)
  }

  /** Reply of a GET that returns stored data. */
  datatype GetOutcome = Found(value: Json) | NotFound | Blocked

  /** Reply of POST /matches: the stored count, or the "error" status. */
  datatype PostMatchesOutcome = Stored(count: nat) | PostError

  /** Reply of POST /stream_links/{watch_id}: success or HTTP 400. */
  datatype PostLinksOutcome = Accepted | BadRequest

  /** A handler's new state together with its reply. */
  datatype Transition<O> = Transition(next: State, out: O)

  /** The stored data and both event flags agree between two states. */
  predicate SameData(a: State, b: State) {
    a.matches == b.matches && a.matchesGate == b.matchesGate &&
    a.links == b.links && a.linksGate == b.linksGate
  }

  /** The route tracker agrees between two states. */
  predicate SameRoute(a: State, b: State) {
    a.lastRoute == b.lastRoute && a.currentId == b.currentId
  }

  /** `log_route`: a newId id is taken only when the path differs from the
      last recorded one; the path is then recorded. */
  function LogRoute(s: State, path: string, newId: Id): (r: State)
    ensures SameData(r, s)
    ensures r.lastRoute == Some(path)
    ensures s.lastRoute == None ==> r.currentId == Some(newId)
    ensures s.lastRoute == Some(path) ==> r.currentId == s.currentId
    ensures s.lastRoute != Some(path) ==> r.currentId == Some(newId)
    ensures Some(newId) != s.currentId ==>
              (r.currentId != s.currentId <==> s.lastRoute != Some(path))
  {
    if s.lastRoute != Some(path) then
      s.(currentId := Some(newId), lastRoute := Some(path))
    else
      s
  }

  /** What `get_matches` does once `log_route` has returned: wait for the
      matches event, then 404 on a false value, else the stored value. */
  function MatchesAfterWait(s: State): (r: GetOutcome)
    ensures r.Blocked? <==> !s.matchesGate
    ensures r.NotFound? <==> s.matchesGate && !Truthy(s.matches)
    ensures r.Found? <==> s.matchesGate && Truthy(s.matches)
    ensures r.Found? ==> r.value == s.matches
  {
    if !s.matchesGate then Blocked
    else if !Truthy(s.matches) then NotFound
    else Found(s.matches)
  }

  /** GET /matches. */
  function GetMatches(s: State, newId: Id): (r: Transition<GetOutcome>)
    ensures r.next == LogRoute(s, MatchesPath, newId)
    ensures r.out == MatchesAfterWait(r.next)
    ensures r.out.Blocked? <==> !s.matchesGate
    ensures r.out.Found? ==> r.out.value == s.matches && Truthy(s.matches)
  {
    var t := LogRoute(s, MatchesPath, newId);
    Transition(t, MatchesAfterWait(t))
  }

  /** POST /matches. The route is logged first. A body that does not parse,
      or parses to something other than a dict, fails before anything is
      stored. A dict's "matches" value (an empty list when absent) replaces
      the slot; when that value has no length, `len` raises after the slot
      was replaced and before the event is set. */
  function PostMatches(s: State, body: Body, newId: Id): (r: Transition<PostMatchesOutcome>)
    ensures SameRoute(r.next, LogRoute(s, MatchesPath, newId))
    ensures r.next.links == s.links && r.next.linksGate == s.linksGate
    ensures !(body.Parsed? && body.value.JObj?) ==>
              r.out == PostError && r.next == LogRoute(s, MatchesPath, newId)
    ensures body.Parsed? && body.value.JObj? ==>
              r.next.matches == Get(body.value.fields, "matches", JArr([]))
    ensures r.out.Stored? <==>
              body.Parsed? && body.value.JObj? && Length(r.next.matches).Some?
    ensures r.out.Stored? ==> Length(r.next.matches) == Some(r.out.count)
    ensures r.next.matchesGate <==> s.matchesGate || r.out.Stored?
  {
    var t := LogRoute(s, MatchesPath, newId);
    if body.Parsed? && body.value.JObj? then
      var stored := t.(matches := Get(body.value.fields, "matches", JArr([])));
      match Length(stored.matches)
      case Some(n) => Transition(stored.(matchesGate := true), Stored(n))
      case None => Transition(stored, PostError)
    else
      Transition(t, PostError)
  }

  /** GET /admins: replies with its own path. */
  function GetAdmins(s: State, newId: Id): (r: Transition<string>)
    ensures r.next == LogRoute(s, AdminsPath, newId)
    ensures r.out == AdminsPath
  {
    Transition(LogRoute(s, AdminsPath, newId), AdminsPath)
  }

  /** What `get_stream_links` does once the key was found missing: wait for
      the stream-links event, then look the key up once more. */
  function StreamLinksAfterWait(s: State, watchId: string): (r: GetOutcome)
    ensures r.Blocked? <==> !s.linksGate
    ensures r.Found? <==> s.linksGate && watchId in s.links
    ensures r.NotFound? <==> s.linksGate && watchId !in s.links
    ensures r.Found? ==> r.value == s.links[watchId]
  {
    if !s.linksGate then Blocked
    else if watchId in s.links then Found(s.links[watchId])
    else NotFound
  }

  /** GET /stream_links/{watch_id}: a stored entry is returned at once;
      otherwise the handler waits and re-checks. */
  function GetStreamLinks(s: State, watchId: string, newId: Id): (r: Transition<GetOutcome>)
    ensures r.next == LogRoute(s, StreamLinksPath(watchId), newId)
    ensures watchId in s.links ==> r.out == Found(s.links[watchId])
    ensures watchId !in s.links ==> r.out == StreamLinksAfterWait(s, watchId)
    ensures r.out.NotFound? ==> watchId !in s.links && s.linksGate
  {
    var t := LogRoute(s, StreamLinksPath(watchId), newId);
    if watchId in t.links then Transition(t, Found(t.links[watchId]))
    else Transition(t, StreamLinksAfterWait(t, watchId))
  }

  /** POST /stream_links/{watch_id}: any parsed body is stored under the key;
      the route is not logged and no event is touched. */
  function PostStreamLinks(s: State, watchId: string, body: Body): (r: Transition<PostLinksOutcome>)
    ensures SameRoute(r.next, s)
    ensures r.next.matches == s.matches && r.next.matchesGate == s.matchesGate
    ensures r.next.linksGate == s.linksGate
    ensures r.out.Accepted? <==> body.Parsed?
    ensures body.Malformed? ==> r.next == s
    ensures body.Parsed? ==> watchId in r.next.links && r.next.links[watchId] == body.value
    ensures forall k :: k != watchId ==>
              (k in r.next.links <==> k in s.links) &&
              (k in s.links ==> r.next.links[k] == s.links[k])
  {
    match body
    case Malformed => Transition(s, BadRequest)
    case Parsed(v) => Transition(s.(links := s.links[watchId := v]), Accepted)
  }

  /** The startup hook: both events are cleared, nothing else changes. */
  function StartupEvent(s: State): (r: State)
    ensures !r.matchesGate && !r.linksGate
    ensures SameRoute(r, s)
    ensures r.matches == s.matches && r.links == s.links
  {
    s.(matchesGate := false, linksGate := false)
  }

  /** A request reaching the relay. */
  datatype Request =
    | MatchesGet
    | MatchesPost(body: Body)
    | AdminsGet
    | StreamLinksGet(watchId: string)
    | StreamLinksPost(watchId: string, body: Body)
    | Startup

  /** A request together with the id `uuid4` would produce if asked. */
  datatype Event = Event(req: Request, newId: Id)

  /** The path `log_route` records for a request, if the handler calls it. */
  function TrackedPath(req: Request): Option<string> {
    match req
    case MatchesGet => Some(MatchesPath)
    case MatchesPost(_) => Some(MatchesPath)
    case AdminsGet => Some(AdminsPath)
    case StreamLinksGet(k) => Some(StreamLinksPath(k))
    case StreamLinksPost(_, _) => None
    case Startup => None
  }

  /** The state after one request. */
  function Step(s: State, e: Event): State {
    match e.req
    case MatchesGet => GetMatches(s, e.newId).next
    case MatchesPost(b) => PostMatches(s, b, e.newId).next
    case AdminsGet => GetAdmins(s, e.newId).next
    case StreamLinksGet(k) => GetStreamLinks(s, k, e.newId).next
    case StreamLinksPost(k, b) => PostStreamLinks(s, k, b).next
    case Startup => StartupEvent(s)
  }

  /** The state after a sequence of requests, handled one after another. */
  function Run(s: State, es: seq<Event>): State
    decreases |es|
  {
    if es == [] then s else Run(Step(s, es[0]), es[1..])
  }

  /** The states the relay can be in: those reached from the import-time
      state by some sequence of requests. */
  ghost predicate Reachable(s: State) {
    exists es: seq<Event> :: Run(Init(), es) == s
  }
}
