/**
 * The chat panel as an object whose event handlers update its state in place
 * (components/chat-panel.tsx). Each handler is proved to change the state
 * exactly as `PanelState.Step` says for its event, and to keep `Inv`.
 */
module ChatPanel {
  import opened Wrappers
  import opened TextInput
  import opened VideoSearch
  import opened PanelState

  class Panel {
    var lastQuery: Option<string>
    var messages: seq<Message>
    var fetches: seq<Request>
    var inFlight: nat
    var videoResults: seq<Video>
    var isComposing: bool
    var enterDisabled: bool
    var pendingTimers: nat
    var input: string
    var showEmptyScreen: bool
    var submitRequests: nat

    /** The panel's state as a value. */
    function Snapshot(): State
      reads this
    {
      State(lastQuery, messages, fetches, inFlight, videoResults, isComposing,
            enterDisabled, pendingTimers, input, showEmptyScreen, submitRequests)
    }

    ghost predicate Valid()
      reads this
    {
      Inv(Snapshot())
    }

    /** First render, with the parent's messages and input. */
    constructor (initialMessages: seq<Message>, initialInput: string)
      ensures Valid()
      ensures Snapshot() == Initial(initialMessages, initialInput)
    {
      lastQuery := None;
      messages := initialMessages;
      fetches := [];
      inFlight := 0;
      videoResults := [];
      isComposing := false;
      enterDisabled := false;
      pendingTimers := 0;
      input := initialInput;
      showEmptyScreen := false;
      submitRequests := 0;
    }

    /**
     * The effect on `[query, append]`: a non-blank query different from the
     * ref is recorded in the ref first, then appended as a user message, then
     * its video fetch is issued.
     */
    method OnQuery(query: Option<string>) returns (admitted: bool)
      requires Valid()
      modifies this
      ensures Valid()
      ensures admitted <==> query.Some? && !AllTrimmable(query.value) && old(lastQuery) != query
      ensures Snapshot() == Step(old(Snapshot()), QueryObserved(query))
    {
      StepPreservesInv(Snapshot(), QueryObserved(query));
      admitted := query.Some? && |Trim(query.value)| > 0 && lastQuery != query;
      if admitted {
        var q := query.value;
        lastQuery := Some(q);
        messages := messages + [Message(User, q)];
        fetches := fetches + [Request(q, Region)];
        inFlight := inFlight + 1;
      }
    }

    /** One in-flight video fetch settles with `response`. */
    method OnFetchSettled(response: Response)
      requires Valid() && inFlight > 0
      modifies this
      ensures Valid()
      ensures |videoResults| == MinResults
      ensures Snapshot() == Step(old(Snapshot()), FetchSettled(response))
    {
      StepPreservesInv(Snapshot(), FetchSettled(response));
      inFlight := inFlight - 1;
      videoResults := SelectVideos(response);
    }

    method OnCompositionStart()
      requires Valid()
      modifies this
      ensures Valid()
      ensures Snapshot() == Step(old(Snapshot()), CompositionStart)
    {
      StepPreservesInv(Snapshot(), CompositionStart);
      isComposing := true;
    }

    /** Ends the composition, locks Enter and schedules one 300 ms timer. */
    method OnCompositionEnd()
      requires Valid()
      modifies this
      ensures Valid()
      ensures !isComposing && enterDisabled && pendingTimers == old(pendingTimers) + 1
      ensures Snapshot() == Step(old(Snapshot()), CompositionEnd)
    {
      StepPreservesInv(Snapshot(), CompositionEnd);
      isComposing := false;
      enterDisabled := true;
      pendingTimers := pendingTimers + 1;
    }

    /** One scheduled timer fires and unlocks Enter, whatever the composition state. */
    method OnTimerFire()
      requires Valid() && pendingTimers > 0
      modifies this
      ensures Valid()
      ensures !enterDisabled && isComposing == old(isComposing)
      ensures Snapshot() == Step(old(Snapshot()), TimerFired)
    {
      StepPreservesInv(Snapshot(), TimerFired);
      enterDisabled := false;
      pendingTimers := pendingTimers - 1;
    }

    /** The textarea's key handler; a requested submit is counted. */
    method OnKeyDown(ev: KeyEvent) returns (effect: KeyEffect)
      requires Valid()
      modifies this
      ensures Valid()
      ensures effect == EnterKeyEffect(ev, old(isComposing), old(enterDisabled), old(input))
      ensures Snapshot() == Step(old(Snapshot()), KeyDown(ev))
    {
      StepPreservesInv(Snapshot(), KeyDown(ev));
      effect := KeyEffect(false, false);
      if ev.key == EnterKey && !ev.shiftKey && !isComposing && !enterDisabled {
        if |Trim(input)| == 0 {
          effect := KeyEffect(true, false);
          return;
        }
        effect := KeyEffect(true, true);
        submitRequests := submitRequests + 1;
      }
    }

    /** The textarea's change handler: the parent stores the value, the panel the empty-screen flag. */
    method OnChange(value: string)
      requires Valid()
      modifies this
      ensures Valid()
      ensures input == value && (showEmptyScreen <==> value == [])
      ensures Snapshot() == Step(old(Snapshot()), Change(value))
    {
      StepPreservesInv(Snapshot(), Change(value));
      input := value;
      showEmptyScreen := |value| == 0;
    }

    /**
     * The new-chat button: empties the message log. The navigation to `/` it
     * also starts is not part of this model; the handler itself leaves every
     * other field as it was.
     */
    method OnNewChat()
      requires Valid()
      modifies this
      ensures Valid()
      ensures messages == [] && lastQuery == old(lastQuery) && videoResults == old(videoResults)
      ensures Snapshot() == Step(old(Snapshot()), NewChat)
    {
      StepPreservesInv(Snapshot(), NewChat);
      messages := [];
    }
  }
}
