/** The YouTube IFrame player API loader: one shared load, flagged by
    `isLoading` and `isLoaded`, retried up to three times on a script error,
    with the promises of every caller waiting in two queues until the API is
    ready or the loader gives up. Each call to the loader is a request with
    its own id, and `settled` records, in order, how each promise was settled.
    Whether `window.YT.Player` exists, and whether injecting the script
    throws, are inputs; the script tag, the timers and the debug log are not
    modelled. Also the pure player-state and player-error names. */
module YouTubeApi {
  import opened Wrappers
  import opened Text

  /** `PlayerState`, with the values the IFrame API uses. */
  datatype PlayerState = Unstarted | Ended | Playing | Paused | Buffering | Cued

  function StateCode(s: PlayerState): int {
    match s
    case Unstarted => -1
    case Ended => 0
    case Playing => 1
    case Paused => 2
    case Buffering => 3
    case Cued => 5
  }

  function EnumName(s: PlayerState): string {
    match s
    case Unstarted => "UNSTARTED"
    case Ended => "ENDED"
    case Playing => "PLAYING"
    case Paused => "PAUSED"
    case Buffering => "BUFFERING"
    case Cued => "CUED"
  }

  /** `getPlayerStateName`. */
  function GetPlayerStateName(state: int): (name: string)
    ensures name != "UNKNOWN" ==> name in {"UNSTARTED", "ENDED", "PLAYING", "PAUSED", "BUFFERING", "CUED"}
  {
    if state == -1 then "UNSTARTED"
    else if state == 0 then "ENDED"
    else if state == 1 then "PLAYING"
    else if state == 2 then "PAUSED"
    else if state == 3 then "BUFFERING"
    else if state == 5 then "CUED"
    else "UNKNOWN"
  }

  /** Every state's code is named after the state, and exactly the codes of
      no state are "UNKNOWN". */
  lemma PlayerStateNames(state: int)
    ensures forall s :: GetPlayerStateName(StateCode(s)) == EnumName(s)
    ensures GetPlayerStateName(state) == "UNKNOWN" <==> forall s :: StateCode(s) != state
  {
    if GetPlayerStateName(state) != "UNKNOWN" {
      var s := if state == -1 then Unstarted else if state == 0 then Ended else if state == 1 then Playing
               else if state == 2 then Paused else if state == 3 then Buffering else Cued;
      assert StateCode(s) == state;
    }
  }

  const NOT_EMBEDDABLE := "Video owner does not allow embedding"

  /** `getPlayerErrorMessage`. */
  function GetPlayerErrorMessage(errorCode: int): (message: string)
    ensures errorCode !in {2, 5, 100, 101, 150} ==>
      message == "Unknown error (code: " + IntToString(errorCode) + ")"
  {
    if errorCode == 2 then "Invalid parameter value"
    else if errorCode == 5 then "HTML5 player error"
    else if errorCode == 100 then "Video not found or has been removed"
    else if errorCode == 101 || errorCode == 150 then NOT_EMBEDDABLE
    else "Unknown error (code: " + IntToString(errorCode) + ")"
  }

  /** Both embedding refusals read the same, and no other code reads so,
      since every other message either names another cause or starts
      with "Unknown error". */
  lemma EmbeddingRefusalsShareMessage(errorCode: int)
    ensures GetPlayerErrorMessage(101) == GetPlayerErrorMessage(150) == NOT_EMBEDDABLE
    ensures GetPlayerErrorMessage(errorCode) == NOT_EMBEDDABLE <==> errorCode == 101 || errorCode == 150
  {
    if errorCode !in {2, 5, 100, 101, 150} {
      var m := GetPlayerErrorMessage(errorCode);
      assert m[0] == 'U';
      assert NOT_EMBEDDABLE[0] == 'V';
    }
  }

  const MAX_RETRIES: int := 3
  const RETRY_DELAY: int := 2000
  const NOT_AVAILABLE := "YouTube API loaded but YT.Player not available"
  const GIVE_UP := "Failed to load YouTube IFrame API script after multiple attempts. "
                 + "Please check your internet connection, disable ad blockers for this site, "
                 + "or try refreshing the page."

  /** How a caller's promise was settled. */
  datatype Event = Resolved(request: nat) | Rejected(request: nat, message: string)

  /** The error callbacks, in order, each rejecting its promise with `message`. */
  function Rejections(requests: seq<nat>, message: string): (r: seq<Event>)
    ensures |r| == |requests|
    ensures forall k :: 0 <= k < |r| ==> r[k] == Rejected(requests[k], message)
  {
    if requests == [] then []
    else Rejections(requests[..|requests| - 1], message) + [Rejected(requests[|requests| - 1], message)]
  }

  /** The load callbacks, in order: each resolves when the player exists and rejects otherwise. */
  function ReadyOutcomes(requests: seq<nat>, playerAvailable: bool): (r: seq<Event>)
    ensures |r| == |requests|
    ensures forall k :: 0 <= k < |r| ==>
      r[k] == if playerAvailable then Resolved(requests[k]) else Rejected(requests[k], NOT_AVAILABLE)
  {
    if requests == [] then []
    else
      var last := requests[|requests| - 1];
      ReadyOutcomes(requests[..|requests| - 1], playerAvailable)
        + [if playerAvailable then Resolved(last) else Rejected(last, NOT_AVAILABLE)]
  }

  predicate Increasing(s: seq<nat>) {
    forall p, q :: 0 <= p < q < |s| ==> s[p] < s[q]
  }

  /** No promise is settled twice. */
  predicate SettledOnce(events: seq<Event>) {
    forall p, q :: 0 <= p < q < |events| ==> events[p].request != events[q].request
  }

  /** Settling a queue of distinct, not yet settled requests, one event per
      request, settles none of them twice. */
  lemma {:induction false} SettleQueue(settled: seq<Event>, queue: seq<nat>, events: seq<Event>)
    requires SettledOnce(settled) && Increasing(queue)
    requires forall k, j :: 0 <= k < |queue| && 0 <= j < |settled| ==> queue[k] != settled[j].request
    requires |events| == |queue| && forall k :: 0 <= k < |events| ==> events[k].request == queue[k]
    ensures SettledOnce(settled + events)
  {
    var all := settled + events;
    forall p, q | 0 <= p < q < |all| ensures all[p].request != all[q].request {
      if q >= |settled| {
        assert all[q].request == queue[q - |settled|];
        if p >= |settled| {
          assert all[p].request == queue[p - |settled|];
        } else {
          assert all[p] == settled[p];
        }
      }
    }
  }

  class Loader {
    var isLoading: bool
    var isLoaded: bool
    var retryCount: int
    var loadCallbacks: seq<nat>
    var errorCallbacks: seq<nat>
    /** Retries whose timer has been set and has not fired yet. */
    var pendingRetries: nat
    /** Script load attempts started. */
    var attempts: nat
    /** The id the next caller's promise gets. */
    var nextRequest: nat
    var settled: seq<Event>

    /** The retry count stays within its bound; both queues hold the same
        waiting requests, each once; only requests already made are waiting
        or settled; a waiting request is not settled; and no promise is
        settled twice. */
    predicate Valid()
      reads this
    {
      && 0 <= retryCount <= MAX_RETRIES
      && loadCallbacks == errorCallbacks
      && Increasing(loadCallbacks)
      && (forall k :: 0 <= k < |loadCallbacks| ==> loadCallbacks[k] < nextRequest)
      && (forall j :: 0 <= j < |settled| ==> settled[j].request < nextRequest)
      && (forall k, j :: 0 <= k < |loadCallbacks| && 0 <= j < |settled| ==> loadCallbacks[k] != settled[j].request)
      && SettledOnce(settled)
    }

    constructor()
      ensures Valid()
      ensures !isLoading && !isLoaded && retryCount == 0 && loadCallbacks == [] && errorCallbacks == []
      ensures pendingRetries == 0 && attempts == 0 && nextRequest == 0 && settled == []
    {
      isLoading := false;
      isLoaded := false;
      retryCount := 0;
      loadCallbacks := [];
      errorCallbacks := [];
      pendingRetries := 0;
      attempts := 0;
      nextRequest := 0;
      settled := [];
    }

    /** `isYouTubeAPILoaded`. */
    function IsYouTubeAPILoaded(playerAvailable: bool): (loaded: bool)
      reads this
      ensures loaded <==> playerAvailable && isLoaded
    {
      playerAvailable && isLoaded
    }

    /** The `forEach` over the error callbacks. */
    method RejectWaiting(message: string)
      modifies this
      ensures settled == old(settled) + Rejections(errorCallbacks, message)
      ensures isLoading == old(isLoading) && isLoaded == old(isLoaded) && retryCount == old(retryCount)
      ensures loadCallbacks == old(loadCallbacks) && errorCallbacks == old(errorCallbacks)
      ensures pendingRetries == old(pendingRetries) && attempts == old(attempts) && nextRequest == old(nextRequest)
    {
      var queue := errorCallbacks;
      for i := 0 to |queue|
        invariant settled == old(settled) + Rejections(queue[..i], message)
        invariant isLoading == old(isLoading) && isLoaded == old(isLoaded) && retryCount == old(retryCount)
        invariant loadCallbacks == old(loadCallbacks) && errorCallbacks == old(errorCallbacks)
        invariant pendingRetries == old(pendingRetries) && attempts == old(attempts) && nextRequest == old(nextRequest)
      {
        assert queue[..i + 1][..i] == queue[..i];
        settled := settled + [Rejected(queue[i], message)];
      }
      assert queue[..|queue|] == queue;
    }

    /** The `forEach` over the load callbacks in `handleAPIReady`. */
    method RunLoadCallbacks(playerAvailable: bool)
      modifies this
      ensures settled == old(settled) + ReadyOutcomes(loadCallbacks, playerAvailable)
      ensures isLoading == old(isLoading) && isLoaded == old(isLoaded) && retryCount == old(retryCount)
      ensures loadCallbacks == old(loadCallbacks) && errorCallbacks == old(errorCallbacks)
      ensures pendingRetries == old(pendingRetries) && attempts == old(attempts) && nextRequest == old(nextRequest)
    {
      var queue := loadCallbacks;
      for i := 0 to |queue|
        invariant settled == old(settled) + ReadyOutcomes(queue[..i], playerAvailable)
        invariant isLoading == old(isLoading) && isLoaded == old(isLoaded) && retryCount == old(retryCount)
        invariant loadCallbacks == old(loadCallbacks) && errorCallbacks == old(errorCallbacks)
        invariant pendingRetries == old(pendingRetries) && attempts == old(attempts) && nextRequest == old(nextRequest)
      {
        assert queue[..i + 1][..i] == queue[..i];
        var request := queue[i];
        settled := settled + [if playerAvailable then Resolved(request) else Rejected(request, NOT_AVAILABLE)];
      }
      assert queue[..|queue|] == queue;
    }

    /** Every waiting promise is rejected with `message` and both queues are emptied. */
    method GiveUpWaiting(message: string)
      requires Valid()
      modifies this
      ensures Valid()
      ensures settled == old(settled) + Rejections(old(errorCallbacks), message)
      ensures loadCallbacks == [] && errorCallbacks == []
      ensures isLoading == old(isLoading) && isLoaded == old(isLoaded) && retryCount == old(retryCount)
      ensures pendingRetries == old(pendingRetries) && attempts == old(attempts) && nextRequest == old(nextRequest)
    {
      RejectWaiting(message);
      SettleQueue(old(settled), old(errorCallbacks), Rejections(old(errorCallbacks), message));
      errorCallbacks := [];
      loadCallbacks := [];
    }

    /** `attemptLoad`: one more attempt starts; when injecting the script
        throws, every waiting promise is rejected and loading stops. */
    method AttemptLoad(injectionError: Option<string>)
      requires Valid()
      modifies this
      ensures Valid()
      ensures attempts == old(attempts) + 1
      ensures isLoaded == old(isLoaded) && retryCount == old(retryCount)
      ensures pendingRetries == old(pendingRetries) && nextRequest == old(nextRequest)
      ensures injectionError.None? ==>
        && isLoading == old(isLoading) && settled == old(settled)
        && loadCallbacks == old(loadCallbacks) && errorCallbacks == old(errorCallbacks)
      ensures injectionError.Some? ==>
        && !isLoading && loadCallbacks == [] && errorCallbacks == []
        && settled == old(settled) + Rejections(old(errorCallbacks), "Failed to inject YouTube API script: " + injectionError.value)
    {
      attempts := attempts + 1;
      if injectionError.Some? {
        GiveUpWaiting("Failed to inject YouTube API script: " + injectionError.value);
        isLoading := false;
      }
    }

    /** A new promise gets the next id. */
    method NewRequest() returns (request: nat)
      requires Valid()
      modifies this
      ensures Valid()
      ensures request == old(nextRequest) && nextRequest == request + 1
      ensures isLoading == old(isLoading) && isLoaded == old(isLoaded) && retryCount == old(retryCount)
      ensures loadCallbacks == old(loadCallbacks) && errorCallbacks == old(errorCallbacks) && settled == old(settled)
      ensures pendingRetries == old(pendingRetries) && attempts == old(attempts)
    {
      request := nextRequest;
      nextRequest := nextRequest + 1;
    }

    /** The promise of the newest request is resolved at once. */
    method ResolveNewest(request: nat)
      requires Valid() && request + 1 == nextRequest
      requires forall k :: 0 <= k < |loadCallbacks| ==> loadCallbacks[k] < request
      requires forall j :: 0 <= j < |settled| ==> settled[j].request < request
      modifies this
      ensures Valid()
      ensures settled == old(settled) + [Resolved(request)]
      ensures isLoading == old(isLoading) && isLoaded == old(isLoaded) && retryCount == old(retryCount)
      ensures loadCallbacks == old(loadCallbacks) && errorCallbacks == old(errorCallbacks)
      ensures pendingRetries == old(pendingRetries) && attempts == old(attempts) && nextRequest == old(nextRequest)
    {
      settled := settled + [Resolved(request)];
    }

    /** The newest request waits in both queues. */
    method EnqueueNewest(request: nat)
      requires Valid() && request + 1 == nextRequest
      requires forall k :: 0 <= k < |loadCallbacks| ==> loadCallbacks[k] < request
      requires forall j :: 0 <= j < |settled| ==> settled[j].request < request
      modifies this
      ensures Valid()
      ensures loadCallbacks == old(loadCallbacks) + [request] && errorCallbacks == old(errorCallbacks) + [request]
      ensures isLoading == old(isLoading) && isLoaded == old(isLoaded) && retryCount == old(retryCount)
      ensures settled == old(settled)
      ensures pendingRetries == old(pendingRetries) && attempts == old(attempts) && nextRequest == old(nextRequest)
    {
      loadCallbacks := loadCallbacks + [request];
      errorCallbacks := errorCallbacks + [request];
    }

    /** `loadYouTubeAPI`: a new promise. When the API is already there it is
        resolved at once and the queues are not touched; otherwise it waits
        in both queues, and an attempt starts only if none is under way. */
    method LoadYouTubeAPI(playerAvailable: bool, injectionError: Option<string>) returns (request: nat)
      requires Valid()
      modifies this
      ensures Valid()
      ensures request == old(nextRequest) && nextRequest == old(nextRequest) + 1
      ensures isLoaded == old(isLoaded) && retryCount == old(retryCount) && pendingRetries == old(pendingRetries)
      ensures old(isLoaded) && playerAvailable ==>
        && settled == old(settled) + [Resolved(request)]
        && loadCallbacks == old(loadCallbacks) && errorCallbacks == old(errorCallbacks)
        && isLoading == old(isLoading) && attempts == old(attempts)
      ensures !(old(isLoaded) && playerAvailable) && old(isLoading) ==>
        && loadCallbacks == old(loadCallbacks) + [request] && errorCallbacks == old(errorCallbacks) + [request]
        && isLoading && attempts == old(attempts) && settled == old(settled)
      ensures !(old(isLoaded) && playerAvailable) && !old(isLoading) ==>
        && attempts == old(attempts) + 1
        && (injectionError.None? ==>
              isLoading && loadCallbacks == old(loadCallbacks) + [request] && settled == old(settled))
        && (injectionError.Some? ==>
              && !isLoading && loadCallbacks == [] && errorCallbacks == []
              && settled == old(settled) + Rejections(old(errorCallbacks) + [request],
                                                      "Failed to inject YouTube API script: " + injectionError.value))
    {
      request := NewRequest();
      if isLoaded && playerAvailable {
        ResolveNewest(request);
        return;
      }
      EnqueueNewest(request);
      if isLoading {
        return;
      }
      isLoading := true;
      AttemptLoad(injectionError);
    }

    /** `script.onerror`: while retries remain, one more is counted and its
        timer set; otherwise every waiting promise is rejected, the queues are
        emptied and the count starts again from 0. */
    method OnScriptError()
      requires Valid()
      modifies this
      ensures Valid()
      ensures !isLoading && isLoaded == old(isLoaded) && attempts == old(attempts) && nextRequest == old(nextRequest)
      ensures old(retryCount) < MAX_RETRIES ==>
        && retryCount == old(retryCount) + 1 && pendingRetries == old(pendingRetries) + 1
        && loadCallbacks == old(loadCallbacks) && errorCallbacks == old(errorCallbacks) && settled == old(settled)
      ensures old(retryCount) >= MAX_RETRIES ==>
        && retryCount == 0 && pendingRetries == old(pendingRetries)
        && loadCallbacks == [] && errorCallbacks == []
        && settled == old(settled) + Rejections(old(errorCallbacks), GIVE_UP)
    {
      isLoading := false;
      if retryCount < MAX_RETRIES {
        retryCount := retryCount + 1;
        pendingRetries := pendingRetries + 1;
      } else {
        GiveUpWaiting(GIVE_UP);
        retryCount := 0;
      }
    }

    /** The retry timer, `RETRY_DELAY` milliseconds after a script error:
        loading is flagged again and the next attempt starts. */
    method OnRetryTimer(injectionError: Option<string>)
      requires Valid()
      modifies this
      ensures Valid()
      ensures old(pendingRetries) == 0 ==>
        && pendingRetries == 0 && isLoading == old(isLoading) && attempts == old(attempts) && settled == old(settled)
        && loadCallbacks == old(loadCallbacks) && errorCallbacks == old(errorCallbacks)
      ensures old(pendingRetries) > 0 ==>
        && pendingRetries == old(pendingRetries) - 1 && attempts == old(attempts) + 1
        && isLoading == injectionError.None?
      ensures old(pendingRetries) > 0 && injectionError.None? ==>
        loadCallbacks == old(loadCallbacks) && errorCallbacks == old(errorCallbacks) && settled == old(settled)
      ensures old(pendingRetries) > 0 && injectionError.Some? ==>
        && loadCallbacks == [] && errorCallbacks == []
        && settled == old(settled) + Rejections(old(errorCallbacks), "Failed to inject YouTube API script: " + injectionError.value)
      ensures isLoaded == old(isLoaded) && retryCount == old(retryCount) && nextRequest == old(nextRequest)
    {
      if pendingRetries == 0 {
        return;
      }
      pendingRetries := pendingRetries - 1;
      isLoading := true;
      AttemptLoad(injectionError);
    }

    /** `handleAPIReady`: the API is loaded, loading stops, the retry count is
        cleared, every waiting load callback runs once, in order, and both
        queues are emptied. */
    method HandleAPIReady(playerAvailable: bool)
      requires Valid()
      modifies this
      ensures Valid()
      ensures isLoaded && !isLoading && retryCount == 0
      ensures settled == old(settled) + ReadyOutcomes(old(loadCallbacks), playerAvailable)
      ensures loadCallbacks == [] && errorCallbacks == []
      ensures pendingRetries == old(pendingRetries) && attempts == old(attempts) && nextRequest == old(nextRequest)
    {
      isLoaded := true;
      isLoading := false;
      retryCount := 0;
      RunLoadCallbacks(playerAvailable);
      SettleQueue(old(settled), old(loadCallbacks), ReadyOutcomes(old(loadCallbacks), playerAvailable));
      loadCallbacks := [];
      errorCallbacks := [];
    }

    /** The 3-second check after finding the script already in the page: a
        player that exists without the ready callback having fired is treated
        as ready. */
    method OnReadyTimeout(playerAvailable: bool)
      requires Valid()
      modifies this
      ensures Valid()
      ensures !old(isLoaded) && playerAvailable ==>
        && isLoaded && !isLoading && retryCount == 0 && loadCallbacks == []
        && settled == old(settled) + ReadyOutcomes(old(loadCallbacks), true)
      ensures !(!old(isLoaded) && playerAvailable) ==>
        && isLoaded == old(isLoaded) && isLoading == old(isLoading) && retryCount == old(retryCount)
        && loadCallbacks == old(loadCallbacks) && settled == old(settled)
      ensures pendingRetries == old(pendingRetries) && attempts == old(attempts) && nextRequest == old(nextRequest)
    {
      if !isLoaded && playerAvailable {
        HandleAPIReady(true);
      }
    }
  }

  /** In any reachable state, no caller's promise has been settled twice and
      only promises of callers that already asked are settled. */
  lemma EachPromiseSettlesOnce(l: Loader, p: int, q: int)
    requires l.Valid() && 0 <= p < q < |l.settled|
    ensures l.settled[p].request != l.settled[q].request
    ensures l.settled[q].request < l.nextRequest
  {
  }
}
