/**
 * The chat panel's state and how each event changes it
 * (components/chat-panel.tsx, `ChatPanel`). `Step` is the specification the
 * imperative `ChatPanel.Panel` class is proved against, and `Run` extends it
 * to a sequence of events.
 */
module PanelState {
  import opened Wrappers
  import opened TextInput
  import opened VideoSearch

  datatype Role = User | Assistant

  /** A message of the conversation log. */
  datatype Message = Message(role: Role, content: string)

  /** The JSON body `{ q, gl }` of one outbound video-search call. */
  datatype Request = Request(q: string, gl: string)

  /** The fixed region code sent with every video search. */
  const Region: string := "in"

  /**
   * `lastQuery` is the `lastQuery` ref; `messages` the conversation log held
   * by the parent; `fetches` every outbound call issued so far, of which
   * `inFlight` have not settled; `pendingTimers` the 300 ms timers scheduled
   * and not yet fired; `input` the controlled textarea value;
   * `submitRequests` how many form submits the key handler has requested.
   */
  datatype State = State(
    lastQuery: Option<string>,
    messages: seq<Message>,
    fetches: seq<Request>,
    inFlight: nat,
    videoResults: seq<Video>,
    isComposing: bool,
    enterDisabled: bool,
    pendingTimers: nat,
    input: string,
    showEmptyScreen: bool,
    submitRequests: nat)

  /** The events the panel reacts to. */
  datatype Event =
    | QueryObserved(query: Option<string>)   // the effect on `[query, append]` runs
    | FetchSettled(response: Response)       // one in-flight video fetch completes
    | CompositionStart
    | CompositionEnd
    | TimerFired                             // one scheduled 300 ms timer fires
    | KeyDown(ev: KeyEvent)
    | Change(value: string)
    | NewChat

  /** The state on first render, with the parent's messages and input. */
  function Initial(messages: seq<Message>, input: string): (s: State)
    ensures Inv(s)
    ensures s.lastQuery == None && s.fetches == [] && s.videoResults == []
  {
    State(None, messages, [], 0, [], false, false, 0, input, false, 0)
  }

  /** The guard of the query effect: a non-blank query different from the last one admitted. */
  predicate Admits(s: State, query: Option<string>) {
    query.Some? && !IsBlank(query.value) && s.lastQuery != query
  }

  /** A fetch can only settle while one is in flight, and a timer only fire while one is pending. */
  predicate Enabled(s: State, e: Event) {
    match e
    case FetchSettled(_) => s.inFlight > 0
    case TimerFired => s.pendingTimers > 0
    case _ => true
  }

  /**
   * The state after `e`. Each part of the state has its own handlers: only the
   * query effect moves the ref and issues calls, only a settlement sets the
   * video results, only the composition handlers and the timer touch the
   * lock, only the key handler requests submits, only the change handler
   * touches the input, and only the query effect and a new chat touch the log.
   */
  function Step(s: State, e: Event): (r: State)
    requires Enabled(s, e)
    ensures !e.QueryObserved? ==> r.lastQuery == s.lastQuery && r.fetches == s.fetches
    ensures !e.QueryObserved? && !e.NewChat? ==> r.messages == s.messages
    ensures !e.QueryObserved? && !e.FetchSettled? ==> r.inFlight == s.inFlight
    ensures !e.FetchSettled? ==> r.videoResults == s.videoResults
    ensures !(e.CompositionStart? || e.CompositionEnd?) ==> r.isComposing == s.isComposing
    ensures !(e.CompositionEnd? || e.TimerFired?) ==> r.enterDisabled == s.enterDisabled && r.pendingTimers == s.pendingTimers
    ensures !e.KeyDown? ==> r.submitRequests == s.submitRequests
    ensures !e.Change? ==> r.input == s.input && r.showEmptyScreen == s.showEmptyScreen
  {
    match e
    case QueryObserved(query) =>
      if Admits(s, query) then
        s.(lastQuery := query,
           messages := s.messages + [Message(User, query.value)],
           fetches := s.fetches + [Request(query.value, Region)],
           inFlight := s.inFlight + 1)
      else s
    case FetchSettled(response) =>
      s.(inFlight := s.inFlight - 1, videoResults := SelectVideos(response))
    case CompositionStart =>
      s.(isComposing := true)
    case CompositionEnd =>
      s.(isComposing := false, enterDisabled := true, pendingTimers := s.pendingTimers + 1)
    case TimerFired =>
      s.(enterDisabled := false, pendingTimers := s.pendingTimers - 1)
    case KeyDown(ev) =>
      if EnterKeyEffect(ev, s.isComposing, s.enterDisabled, s.input).requestSubmit
      then s.(submitRequests := s.submitRequests + 1)
      else s
    case Change(value) =>
      s.(input := value, showEmptyScreen := |value| == 0)
    case NewChat =>
      s.(messages := [])
  }

  /** Every event of `t` can happen in turn, starting from `s`. */
  predicate Feasible(s: State, t: seq<Event>)
    decreases |t|
  {
    t == [] || (Enabled(s, t[0]) && Feasible(Step(s, t[0]), t[1..]))
  }

  /** The state after the events of `t`, in order. */
  function Run(s: State, t: seq<Event>): State
    requires Feasible(s, t)
    decreases |t|
  {
    if t == [] then s else Run(Step(s, t[0]), t[1..])
  }

  /** Every outbound call carries a non-blank query and the fixed region. */
  predicate WellFormedFetches(fs: seq<Request>) {
    forall i :: 0 <= i < |fs| ==> !AllTrimmable(fs[i].q) && fs[i].gl == Region
  }

  /** No two consecutive outbound calls carry the same query. */
  predicate NoRepeatedFetch(fs: seq<Request>) {
    forall i :: 0 < i < |fs| ==> fs[i - 1].q != fs[i].q
  }

  /**
   * What holds in every reachable state: the `lastQuery` ref is the query of
   * the latest outbound call (and empty before any), consecutive calls carry
   * different queries, and `videoResults` is empty until the first fetch
   * settles and holds exactly five entries from then on.
   */
  predicate Inv(s: State) {
    && (s.lastQuery.None? <==> s.fetches == [])
    && (s.fetches != [] ==> s.lastQuery == Some(s.fetches[|s.fetches| - 1].q))
    && WellFormedFetches(s.fetches)
    && NoRepeatedFetch(s.fetches)
    && s.inFlight <= |s.fetches|
    && (s.inFlight == |s.fetches| ==> s.videoResults == [])
    && (s.inFlight < |s.fetches| ==> |s.videoResults| == MinResults)
  }

  lemma StepPreservesInv(s: State, e: Event)
    requires Inv(s) && Enabled(s, e)
    ensures Inv(Step(s, e))
  {
  }

  lemma {:induction false} RunPreservesInv(s: State, t: seq<Event>)
    requires Inv(s) && Feasible(s, t)
    ensures Inv(Run(s, t))
    decreases |t|
  {
    if t != [] {
      StepPreservesInv(s, t[0]);
      RunPreservesInv(Step(s, t[0]), t[1..]);
    }
  }
}
