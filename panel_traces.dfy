/**
 * Properties of the chat panel over single events and over event sequences:
 * a query is admitted at most once, blank queries are ignored, the
 * composition lock holds until a timer fires, and some concrete event
 * scenarios.
 */
module PanelTraces {
  import opened Wrappers
  import opened TextInput
  import opened VideoSearch
  import opened PanelState

  /**
   * The query effect admits exactly when the query is non-blank and differs
   * from `lastQuery`. On admission it sets the ref, appends one user message
   * and issues one call, and does not touch `videoResults` (that happens only
   * when the call settles); otherwise nothing changes.
   */
  lemma QueryAdmission(s: State, query: Option<string>)
    ensures var r := Step(s, QueryObserved(query));
      (r != s <==> query.Some? && !AllTrimmable(query.value) && s.lastQuery != query) &&
      (r != s ==>
        r.lastQuery == query &&
        r.messages == s.messages + [Message(User, query.value)] &&
        r.fetches == s.fetches + [Request(query.value, Region)] &&
        r.videoResults == s.videoResults &&
        r == s.(lastQuery := r.lastQuery, messages := r.messages, fetches := r.fetches, inFlight := s.inFlight + 1))
  {
  }

  /** An absent, empty or whitespace-only query changes nothing. */
  lemma BlankQueryIgnored(s: State, query: Option<string>)
    requires query.None? || AllTrimmable(query.value)
    ensures Step(s, QueryObserved(query)) == s
  {
  }

  /** The same query twice in a row: one message and one call, then a no-op. */
  lemma AdmitTwice(s: State, q: string)
    requires !AllTrimmable(q) && s.lastQuery != Some(q)
    ensures var s1 := Step(s, QueryObserved(Some(q)));
      s1.messages == s.messages + [Message(User, q)] &&
      s1.fetches == s.fetches + [Request(q, Region)] &&
      Step(s1, QueryObserved(Some(q))) == s1
  {
  }

  /** Only an admitted query changes `lastQuery` or the outbound calls. */
  lemma StepDispatch(s: State, e: Event)
    requires Enabled(s, e)
    ensures var r := Step(s, e);
      (r.lastQuery == s.lastQuery && r.fetches == s.fetches) ||
      (e.QueryObserved? && Admits(s, e.query) &&
       r.lastQuery == e.query && r.fetches == s.fetches + [Request(e.query.value, Region)])
  {
  }

  /** Every query event of `t` carries no query or `q`. */
  predicate OnlyQuery(t: seq<Event>, q: string) {
    forall i :: 0 <= i < |t| && t[i].QueryObserved? ==> t[i].query.None? || t[i].query == Some(q)
  }

  /** `t` has an event observing `q`. */
  predicate Observes(t: seq<Event>, q: string) {
    exists i :: 0 <= i < |t| && t[i] == QueryObserved(Some(q))
  }

  /**
   * However often the same query is observed (with any other events in
   * between, new chats included, since nothing resets the ref), at most one
   * call is issued for it, none if it is already the last query, and exactly
   * one if it is observed at all, is non-blank and is not the last query.
   */
  lemma {:induction false} SameQueryAdmittedAtMostOnce(s: State, t: seq<Event>, q: string)
    requires Feasible(s, t) && OnlyQuery(t, q)
    ensures var r := Run(s, t);
      s.fetches <= r.fetches &&
      (r.fetches == s.fetches || r.fetches == s.fetches + [Request(q, Region)]) &&
      (s.lastQuery == Some(q) ==> r.fetches == s.fetches) &&
      (Observes(t, q) && !AllTrimmable(q) && s.lastQuery != Some(q) ==> r.fetches == s.fetches + [Request(q, Region)])
    decreases |t|
  {
    if t != [] {
      var s1 := Step(s, t[0]);
      StepDispatch(s, t[0]);
      assert OnlyQuery(t[1..], q) by {
        forall i | 0 <= i < |t[1..]| && t[1..][i].QueryObserved?
          ensures t[1..][i].query.None? || t[1..][i].query == Some(q)
        {
          assert t[1..][i] == t[i + 1];
        }
      }
      SameQueryAdmittedAtMostOnce(s1, t[1..], q);
      if Observes(t, q) && !AllTrimmable(q) && s.lastQuery != Some(q) && t[0] != QueryObserved(Some(q)) {
        var i :| 0 <= i < |t| && t[i] == QueryObserved(Some(q));
        assert t[1..][i - 1] == t[i];
        assert Observes(t[1..], q);
        assert s1.lastQuery == s.lastQuery;
      }
    }
  }

  /** `t` has no timer event. */
  predicate NoTimer(t: seq<Event>) {
    forall i :: 0 <= i < |t| ==> t[i] != TimerFired
  }

  /**
   * While Enter is locked and no timer fires, the lock stays on and the key
   * handler requests no submit, whatever else happens (further compositions
   * included).
   */
  lemma {:induction false} LockHoldsUntilTimer(s: State, t: seq<Event>)
    requires s.enterDisabled && Feasible(s, t) && NoTimer(t)
    ensures Run(s, t).enterDisabled
    ensures Run(s, t).submitRequests == s.submitRequests
    decreases |t|
  {
    if t != [] {
      assert t[0] != TimerFired;
      assert NoTimer(t[1..]) by {
        forall i | 0 <= i < |t[1..]| ensures t[1..][i] != TimerFired {
          assert t[1..][i] == t[i + 1];
        }
      }
      LockHoldsUntilTimer(Step(s, t[0]), t[1..]);
    }
  }

  /** Ending a composition locks Enter until a timer fires. */
  lemma CompositionEndSuppressesEnter(s: State, t: seq<Event>)
    requires Feasible(Step(s, CompositionEnd), t) && NoTimer(t)
    ensures Run(Step(s, CompositionEnd), t).submitRequests == s.submitRequests
  {
    LockHoldsUntilTimer(Step(s, CompositionEnd), t);
  }

  /** A timer clears the lock even while a new composition is open. */
  lemma TimerClearsLockRegardless(s: State)
    requires s.pendingTimers > 0
    ensures !Step(s, TimerFired).enterDisabled
    ensures Step(s, TimerFired).isComposing == s.isComposing
  {
  }

  /** The key handler changes nothing but the count of requested submits. */
  lemma KeyDownOnlyRequestsSubmit(s: State, ev: KeyEvent)
    ensures var r := Step(s, KeyDown(ev));
      r.(submitRequests := s.submitRequests) == s &&
      (r.submitRequests == s.submitRequests + 1 <==>
        ev.key == EnterKey && !ev.shiftKey && !s.isComposing && !s.enterDisabled && !AllTrimmable(s.input)) &&
      (r.submitRequests == s.submitRequests || r.submitRequests == s.submitRequests + 1)
  {
  }

  const Enter: KeyEvent := KeyEvent(EnterKey, false)

  /**
   * A key press inside the 300 ms window after a composition ends is
   * suppressed; once the timer has fired the same key press submits.
   */
  lemma CompositionTimingScenario(s: State)
    requires !AllTrimmable(s.input)
    ensures var ended := Step(s, CompositionEnd);
      Step(ended, KeyDown(Enter)).submitRequests == s.submitRequests &&
      Step(Step(ended, TimerFired), KeyDown(Enter)).submitRequests == s.submitRequests + 1
  {
  }

  /**
   * The timer is never re-armed: after end, start, end, the first timer
   * releases Enter although the second composition ended less than 300 ms
   * before, and its own timer is still pending.
   */
  lemma FirstTimerReleasesSecondWindow(s: State)
    requires !s.isComposing && s.pendingTimers == 0 && !AllTrimmable(s.input)
    ensures var r := Step(Step(Step(Step(s, CompositionEnd), CompositionStart), CompositionEnd), TimerFired);
      !r.enterDisabled && r.pendingTimers == 1 &&
      Step(r, KeyDown(Enter)).submitRequests == s.submitRequests + 1
  {
  }

  /**
   * A seed query "cats" on a fresh panel: one user message, one call with
   * body { q: "cats", gl: "in" }, and, when the call fails, the five
   * fallback entries.
   */
  lemma SeedQueryScenario()
    ensures Step(Initial([], ""), QueryObserved(Some("cats"))).inFlight == 1
    ensures var r := Step(Step(Initial([], ""), QueryObserved(Some("cats"))), FetchSettled(Failed));
      r.messages == [Message(User, "cats")] &&
      r.fetches == [Request("cats", "in")] &&
      r.videoResults == FallbackVideos() &&
      r.inFlight == 0
  {
  }

  /**
   * While the panel stays mounted, the new-chat handler empties the log but
   * keeps the ref, so observing the same query again does not re-append it.
   */
  lemma NewChatKeepsLastQuery(s: State, q: string)
    requires !AllTrimmable(q) && s.lastQuery != Some(q)
    ensures var r := Step(Step(Step(s, QueryObserved(Some(q))), NewChat), QueryObserved(Some(q)));
      r.messages == [] &&
      r.lastQuery == Some(q) &&
      r.fetches == s.fetches + [Request(q, Region)]
  {
  }

  /** Once any fetch has settled, exactly five video results are shown. */
  lemma SettledShowsFive(s: State, t: seq<Event>)
    requires Inv(s) && Feasible(s, t)
    requires Run(s, t).inFlight < |Run(s, t).fetches|
    ensures |Run(s, t).videoResults| == MinResults
  {
    RunPreservesInv(s, t);
  }
}
