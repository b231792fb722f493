/** The iOS plugin: the validation and start-item choice of `setQueue`, the time observer driven
    by playback-state notifications, and the user/developer token commands. The OS's answers
    (the authorization dialog, the user-token fetch, the player's current state) are inputs;
    the player commands `setQueue` issues are returned as values. */
module IOSPlugin {
  import opened Wrappers
  import opened IOSStatus

  // ---------------------------------------------------------------------------------------
  // setQueue

  /** A command `setQueue` issues to `MPMusicPlayerController`: a store-id queue descriptor
      (with the id it should start at, if pinned), or `play()`. */
  datatype PlayerCommand = SetStoreQueue(storeIds: seq<string>, startItemId: Option<string>) | Play

  /** The `{success, error}` dictionary `setQueue` resolves with. */
  datatype QueueReply = QueueReply(success: bool, error: string)

  /** What one `setQueue` call does: the reply and the player commands, in issue order. */
  datatype SetQueueEffect = SetQueueEffect(reply: QueueReply, commands: seq<PlayerCommand>)

  /** The store ids `setQueue` accepts: the non-empty ones, in the order given. */
  function ValidTrackIds(trackIds: seq<string>): (valid: seq<string>)
    ensures |valid| <= |trackIds|
    ensures forall k :: 0 <= k < |valid| ==> valid[k] != ""
    ensures valid == [] <==> forall k :: 0 <= k < |trackIds| ==> trackIds[k] == ""
  {
    if trackIds == [] then []
    else if trackIds[0] == "" then ValidTrackIds(trackIds[1..])
    else [trackIds[0]] + ValidTrackIds(trackIds[1..])
  }

  /** The filter keeps the non-empty ids in their order ... */
  lemma {:induction false} ValidTrackIdsKeepsOrder(trackIds: seq<string>)
    ensures IsSubsequence(ValidTrackIds(trackIds), trackIds)
  {
    if trackIds != [] {
      ValidTrackIdsKeepsOrder(trackIds[1..]);
      var valid := ValidTrackIds(trackIds);
      if trackIds[0] == "" && valid != [] {
        assert valid[0] != "";
      }
    }
  }

  /** ... and every one of them, repeats included; only empty ids go. */
  lemma {:induction false} ValidTrackIdsCounts(trackIds: seq<string>)
    ensures forall id :: multiset(ValidTrackIds(trackIds))[id] == if id == "" then 0 else multiset(trackIds)[id]
  {
    if trackIds != [] {
      ValidTrackIdsCounts(trackIds[1..]);
      assert trackIds == [trackIds[0]] + trackIds[1..];
    }
  }

  /** The id the descriptor starts at: pinned only for `0 < startPosition < count`, and the
      position indexes the filtered list, not the list the caller sent. */
  function StartItemId(validIds: seq<string>, startPosition: int): (start: Option<string>)
    ensures start.Some? <==> 0 < startPosition < |validIds|
    ensures start.Some? ==> start.value == validIds[startPosition] && start.value in validIds[1..]
  {
    if startPosition > 0 && startPosition < |validIds| then Some(validIds[startPosition]) else None
  }

  /** `setQueue(trackIds, startPlaying, startPosition)`. */
  function SetQueue(trackIds: seq<string>, startPlaying: bool, startPosition: int): (e: SetQueueEffect)
    ensures e.reply.success <==> exists k :: 0 <= k < |trackIds| && trackIds[k] != ""
    ensures !e.reply.success ==> e.reply.error == "No valid track IDs provided" && e.commands == []
    ensures e.reply.success ==>
      && e.reply.error == ""
      && |e.commands| == (if startPlaying then 2 else 1)
      && e.commands[0].SetStoreQueue?
      && e.commands[0].storeIds == ValidTrackIds(trackIds)
      && (startPlaying ==> e.commands[1] == Play)
    ensures e.reply.success ==>
      e.commands[0].startItemId == StartItemId(ValidTrackIds(trackIds), startPosition)
    ensures e.reply.success ==>
      (e.commands[0].startItemId.Some? <==> 0 < startPosition < |ValidTrackIds(trackIds)|)
    ensures e.reply.success && e.commands[0].startItemId.Some? ==>
      e.commands[0].startItemId.value != "" && e.commands[0].startItemId.value in trackIds
  {
    var validIds := ValidTrackIds(trackIds);
    if validIds == [] then
      SetQueueEffect(QueueReply(false, "No valid track IDs provided"), [])
    else
      var start := StartItemId(validIds, startPosition);
      ValidTrackIdsCounts(trackIds);
      assert start.Some? ==> multiset(validIds)[start.value] > 0;
      var queue := [SetStoreQueue(validIds, start)];
      SetQueueEffect(QueueReply(true, ""), if startPlaying then queue + [Play] else queue)
  }

  /** Two tracks, start at position 1: the descriptor holds both ids and starts at the second. */
  lemma SetQueueStartsAtSecond()
    ensures SetQueue(["a", "b"], false, 1)
         == SetQueueEffect(QueueReply(true, ""), [SetStoreQueue(["a", "b"], Some("b"))])
  {
    assert ["a", "b"][1..] == ["b"] && ["b"][1..] == [];
    assert ValidTrackIds(["a", "b"]) == ["a", "b"];
  }

  /** Position 0 is never pinned: the descriptor then starts at its first id by itself. */
  lemma PositionZeroNeverPinned(trackIds: seq<string>, startPlaying: bool)
    requires SetQueue(trackIds, startPlaying, 0).reply.success
    ensures SetQueue(trackIds, startPlaying, 0).commands[0].startItemId == None
  {
  }

  /** With an empty id in front, position 1 names the second valid id, not the caller's
      second entry. */
  lemma StartPositionIndexesFilteredIds()
    ensures SetQueue(["", "a", "b"], true, 1).commands
         == [SetStoreQueue(["a", "b"], Some("b")), Play]
  {
    assert ["", "a", "b"][1..] == ["a", "b"] && ["a", "b"][1..] == ["b"] && ["b"][1..] == [];
    assert ValidTrackIds(["", "a", "b"]) == ["a", "b"];
  }

  // ---------------------------------------------------------------------------------------
  // The plugin object

  /** What `authorize` settles its invocation with: the status dictionary (with the token
      when one is held), or a rejection message. */
  datatype AuthorizeReply = AuthResolved(status: string, token: Option<string>) | AuthRejected(message: string)

  /** The last playback-state event reported `playing`. */
  predicate LastReportedPlaying(stateEvents: seq<string>)
  {
    |stateEvents| > 0 && stateEvents[|stateEvents| - 1] == "playing"
  }

  class MusicKitPlugin {
    var userToken: Option<string>
    var developerToken: Option<string>
    /** `timeObserver`: the serial number of the repeating timer the plugin holds, if any. */
    var timeObserver: Option<nat>
    /** How many timers have been scheduled so far; the next one gets this serial number. */
    var timersScheduled: nat
    /** The timers scheduled and not yet invalidated, i.e. the ones still firing. */
    var liveTimers: set<nat>
    /** The `state` of every `musickit-playback-state-changed` event emitted, oldest first. */
    var stateEvents: seq<string>

    /** The only timer still firing is the one the plugin holds: no orphaned timer. */
    ghost predicate TimersValid()
      reads this
    {
      match timeObserver
      case None => liveTimers == {}
      case Some(t) => liveTimers == {t} && t < timersScheduled
    }

    /** A timer is running exactly when the last reported state was `playing`. */
    ghost predicate Valid()
      reads this
    {
      TimersValid() && (timeObserver.Some? <==> LastReportedPlaying(stateEvents))
    }

    constructor ()
      ensures Valid()
      ensures userToken == None && developerToken == None
      ensures timeObserver == None && timersScheduled == 0 && stateEvents == []
    {
      userToken := None;
      developerToken := None;
      timeObserver := None;
      timersScheduled := 0;
      liveTimers := {};
      stateEvents := [];
    }

    /** `startTimeObserver`: schedules a timer only when none is held. */
    method StartTimeObserver()
      requires TimersValid()
      modifies this`timeObserver, this`timersScheduled, this`liveTimers
      ensures TimersValid() && timeObserver.Some?
      ensures old(timeObserver).Some? ==>
        timeObserver == old(timeObserver) && timersScheduled == old(timersScheduled) && liveTimers == old(liveTimers)
      ensures old(timeObserver).None? ==>
        timeObserver == Some(old(timersScheduled)) && timersScheduled == old(timersScheduled) + 1
    {
      if timeObserver.Some? {
        return;
      }
      var timer := timersScheduled;
      timersScheduled := timersScheduled + 1;
      liveTimers := liveTimers + {timer};
      timeObserver := Some(timer);
    }

    /** `stopTimeObserver`: invalidates and drops the held timer; with none held it does nothing. */
    method StopTimeObserver()
      requires TimersValid()
      modifies this`timeObserver, this`liveTimers
      ensures TimersValid() && timeObserver == None && liveTimers == {}
      ensures old(timeObserver).None? ==> liveTimers == old(liveTimers)
    {
      match timeObserver
      case None =>
      case Some(observer) =>
        liveTimers := liveTimers - {observer};
        timeObserver := None;
    }

    /** `handlePlaybackStateDidChange`, given the player's state at the notification: reports the
        state's name, then starts the time observer for `playing` and stops it otherwise. */
    method HandlePlaybackStateDidChange(state: PlaybackState)
      requires Valid()
      modifies this`stateEvents, this`timeObserver, this`timersScheduled, this`liveTimers
      ensures Valid()
      ensures stateEvents == old(stateEvents) + [PlaybackStateName(state)]
      ensures timeObserver.Some? <==> state == Playing
      ensures |liveTimers| == if state == Playing then 1 else 0
      ensures timersScheduled == old(timersScheduled) + (if state == Playing && old(timeObserver).None? then 1 else 0)
      ensures state == Playing && old(timeObserver).Some? ==> timeObserver == old(timeObserver)
    {
      stateEvents := stateEvents + [PlaybackStateName(state)];
      if state == Playing {
        StartTimeObserver();
      } else {
        StopTimeObserver();
      }
    }

    /** `authorize`, given the status the OS authorization request returned and the user-token
        fetch for a developer token. Only an authorized status fetches a token; a missing
        developer token or a failed fetch rejects and keeps the token held before. */
    method Authorize(osStatus: AuthorizationStatus, fetchUserToken: string -> Result<string>)
      returns (r: AuthorizeReply)
      modifies this`userToken
      ensures osStatus == Authorized && developerToken.None? ==>
        r == AuthRejected("Developer token not set.") && userToken == old(userToken)
      ensures osStatus == Authorized && developerToken.Some? && fetchUserToken(developerToken.value).Failure? ==>
        && r == AuthRejected("Failed to fetch music user token: " + fetchUserToken(developerToken.value).error)
        && userToken == old(userToken)
      ensures osStatus == Authorized && developerToken.Some? && fetchUserToken(developerToken.value).Success? ==>
        && userToken == Some(fetchUserToken(developerToken.value).value)
        && r == AuthResolved("authorized", userToken)
      ensures osStatus != Authorized ==>
        userToken == old(userToken) && r == AuthResolved(AuthorizationStatusName(osStatus), userToken)
      ensures r.AuthResolved? ==> r.status == AuthorizationStatusName(osStatus) && r.token == userToken
    {
      if osStatus == Authorized {
        match developerToken
        case None =>
          return AuthRejected("Developer token not set.");
        case Some(devToken) =>
          match fetchUserToken(devToken)
          case Failure(e) =>
            return AuthRejected("Failed to fetch music user token: " + e);
          case Success(token) =>
            userToken := Some(token);
      }
      r := AuthResolved(AuthorizationStatusName(osStatus), userToken);
    }

    /** `isAuthorized`: whether a user token is held. */
    method IsAuthorized() returns (authorized: bool)
      ensures authorized <==> userToken.Some?
    {
      authorized := userToken.Some?;
    }

    /** `setUserToken`. */
    method SetUserToken(token: string) returns (r: Outcome)
      modifies this`userToken
      ensures userToken == Some(token) && r == Resolved
    {
      userToken := Some(token);
      r := Resolved;
    }

    /** `unauthorize`: drops the user token (and never settles its invocation). */
    method Unauthorize()
      modifies this`userToken
      ensures userToken == None
    {
      userToken := None;
    }

    /** `getUserToken`: the held token, or the empty string when there is none. */
    method GetUserToken() returns (token: string)
      ensures userToken.Some? ==> token == userToken.value
      ensures userToken.None? ==> token == ""
    {
      token := userToken.GetOr("");
    }

    /** `setDeveloperToken`. */
    method SetDeveloperToken(token: string) returns (r: Outcome)
      modifies this`developerToken
      ensures developerToken == Some(token) && r == Resolved
    {
      developerToken := Some(token);
      r := Resolved;
    }

    /** `getDeveloperToken`: this version always answers the empty string, whatever is held. */
    method GetDeveloperToken() returns (token: string)
      ensures token == ""
    {
      token := "";
    }

    /** `getAuthorizationStatus`: derived from the held user token alone, not from the OS. */
    method GetAuthorizationStatus() returns (status: string)
      ensures status == "authorized" <==> userToken.Some?
      ensures status == "authorized" || status == "notAuthorized"
    {
      status := if userToken.Some? then "authorized" else "notAuthorized";
    }
  }

  /** `isAuthorized` and `getAuthorizationStatus` always agree. */
  method StatusAgreesWithIsAuthorized(plugin: MusicKitPlugin) returns (authorized: bool, status: string)
    ensures authorized <==> status == "authorized"
    ensures !authorized ==> status == "notAuthorized"
  {
    authorized := plugin.IsAuthorized();
    status := plugin.GetAuthorizationStatus();
  }

  /** A token set with `setUserToken` is the one `getUserToken` returns. */
  method SetThenGetUserToken(plugin: MusicKitPlugin, token: string) returns (got: string)
    modifies plugin
    ensures got == token && plugin.userToken == Some(token)
  {
    var _ := plugin.SetUserToken(token);
    got := plugin.GetUserToken();
  }

  /** After `unauthorize` no token is returned and the status is "notAuthorized". */
  method UnauthorizeThenQuery(plugin: MusicKitPlugin) returns (token: string, status: string)
    modifies plugin
    ensures token == "" && status == "notAuthorized"
  {
    plugin.Unauthorize();
    token := plugin.GetUserToken();
    status := plugin.GetAuthorizationStatus();
  }

  /** However often `playing` is reported, one timer is scheduled; leaving `playing` stops it. */
  method RepeatedPlayingThenPause(plugin: MusicKitPlugin)
    requires plugin.Valid()
    modifies plugin
    ensures plugin.Valid() && plugin.timeObserver == None && plugin.liveTimers == {}
    ensures plugin.timersScheduled <= old(plugin.timersScheduled) + 1
  {
    plugin.HandlePlaybackStateDidChange(Playing);
    plugin.HandlePlaybackStateDidChange(Playing);
    plugin.HandlePlaybackStateDidChange(Playing);
    plugin.HandlePlaybackStateDidChange(Paused);
  }
}
