/** The macOS plugin object: its shadow queue `currentQueue`, the `isInitialized` guard, and
    the queue commands that edit the shadow queue in place and then hand the player the catalog
    songs for it. The catalog request and the decode of the command's track JSON are inputs;
    the player's queue and the emitted queue-update events are recorded as fields. */
module MacOSPlugin {
  import opened Wrappers
  import opened MacQueue

  class MusicKitPlugin {
    /** The full-metadata queue as the application knows it. */
    var currentQueue: seq<Track>
    var isInitialized: bool
    /** How many times `setupObservers` has subscribed to the player's status publisher. */
    var observerSetups: nat
    /** The songs last assigned to `player.queue`. */
    var playerQueue: seq<Song>
    /** The `items` of every queue-update event emitted, oldest first. */
    var queueEvents: seq<seq<Track>>

    /** Observers are subscribed exactly once, and only once the plugin is initialized. */
    ghost predicate Valid()
      reads this
    {
      observerSetups == if isInitialized then 1 else 0
    }

    constructor ()
      ensures Valid() && !isInitialized
      ensures currentQueue == [] && playerQueue == [] && queueEvents == []
    {
      currentQueue := [];
      isInitialized := false;
      observerSetups := 0;
      playerQueue := [];
      queueEvents := [];
    }

    /** `initialize`: the first call subscribes the observers and sets the flag; later calls
        change nothing. Every call resolves. */
    method Initialize() returns (r: Outcome)
      requires Valid()
      modifies this`isInitialized, this`observerSetups
      ensures Valid() && isInitialized && r == Resolved
      ensures old(isInitialized) ==> observerSetups == old(observerSetups)
    {
      if isInitialized {
        return Resolved;
      }
      SetupObservers();
      isInitialized := true;
      r := Resolved;
    }

    /** `setupObservers`: subscribes to the player's playback-status publisher. */
    method SetupObservers()
      modifies this`observerSetups
      ensures observerSetups == old(observerSetups) + 1
    {
      observerSetups := observerSetups + 1;
    }

    /** `convertToMusicItems`: one catalog request per track, in queue order; a request that
        fails or finds nothing is skipped and the loop goes on. */
    method ConvertToMusicItems(tracks: seq<Track>, catalog: Catalog) returns (songs: seq<Song>)
      ensures songs == Resolve(tracks, catalog)
    {
      songs := [];
      for i := 0 to |tracks|
        invariant songs == Resolve(tracks[..i], catalog)
      {
        assert tracks[..i + 1][..i] == tracks[..i];
        match catalog(tracks[i].id)
        case Some(song) =>
          songs := songs + [song];
        case None =>
      }
      assert tracks[..|tracks|] == tracks;
    }

    /** The common tail of every successful edit: hand the player the songs for the new queue
        and emit a queue-update event carrying it. */
    method PublishQueue(catalog: Catalog)
      modifies this`playerQueue, this`queueEvents
      ensures playerQueue == Resolve(currentQueue, catalog)
      ensures queueEvents == old(queueEvents) + [currentQueue]
    {
      playerQueue := ConvertToMusicItems(currentQueue, catalog);
      queueEvents := queueEvents + [currentQueue];
    }

    /** `setQueue`: the decoded list replaces the queue wholesale. */
    method SetQueue(tracks: Result<seq<Track>>, catalog: Catalog) returns (r: Outcome)
      modifies this`currentQueue, this`playerQueue, this`queueEvents
      ensures tracks.Failure? ==> r == Rejected("Set queue failed: " + tracks.error)
      ensures tracks.Failure? ==> currentQueue == old(currentQueue) && playerQueue == old(playerQueue)
                                  && queueEvents == old(queueEvents)
      ensures tracks.Success? ==> r == Resolved && currentQueue == tracks.value
      ensures tracks.Success? ==> playerQueue == Resolve(tracks.value, catalog)
                                  && queueEvents == old(queueEvents) + [tracks.value]
    {
      if tracks.Failure? {
        return Rejected("Set queue failed: " + tracks.error);
      }
      currentQueue := tracks.value;
      PublishQueue(catalog);
      r := Resolved;
    }

    /** `updateQueue`: the same replacement as `setQueue`, with its own error text. */
    method UpdateQueue(tracks: Result<seq<Track>>, catalog: Catalog) returns (r: Outcome)
      modifies this`currentQueue, this`playerQueue, this`queueEvents
      ensures tracks.Failure? ==> r == Rejected("Update queue failed: " + tracks.error)
      ensures tracks.Failure? ==> currentQueue == old(currentQueue) && playerQueue == old(playerQueue)
                                  && queueEvents == old(queueEvents)
      ensures tracks.Success? ==> r == Resolved && currentQueue == tracks.value
      ensures tracks.Success? ==> playerQueue == Resolve(tracks.value, catalog)
                                  && queueEvents == old(queueEvents) + [tracks.value]
    {
      if tracks.Failure? {
        return Rejected("Update queue failed: " + tracks.error);
      }
      currentQueue := tracks.value;
      PublishQueue(catalog);
      r := Resolved;
    }

    /** `insertTrackAtPosition`: a position up to the queue's length splices the track in
        there; a larger one is rejected and nothing changes. */
    method InsertTrackAtPosition(track: Result<Track>, position: nat, catalog: Catalog)
      returns (r: Outcome)
      modifies this`currentQueue, this`playerQueue, this`queueEvents
      ensures track.Failure? ==> r == Rejected("Insert track failed: " + track.error)
      ensures track.Success? && position > |old(currentQueue)| ==> r == Rejected("Position out of bounds")
      ensures r.Rejected? ==> currentQueue == old(currentQueue) && playerQueue == old(playerQueue)
                              && queueEvents == old(queueEvents)
      ensures track.Success? && position <= |old(currentQueue)| ==>
        && r == Resolved
        && currentQueue == old(currentQueue)[..position] + [track.value] + old(currentQueue)[position..]
        && playerQueue == Resolve(currentQueue, catalog)
        && queueEvents == old(queueEvents) + [currentQueue]
    {
      if track.Failure? {
        return Rejected("Insert track failed: " + track.error);
      }
      if position <= |currentQueue| {
        currentQueue := currentQueue[..position] + [track.value] + currentQueue[position..];
        PublishQueue(catalog);
        r := Resolved;
      } else {
        r := Rejected("Position out of bounds");
      }
    }

    /** `insertTracksAtPosition`: the same splice for a list of tracks, kept in their order. */
    method InsertTracksAtPosition(tracks: Result<seq<Track>>, position: nat, catalog: Catalog)
      returns (r: Outcome)
      modifies this`currentQueue, this`playerQueue, this`queueEvents
      ensures tracks.Failure? ==> r == Rejected("Insert tracks failed: " + tracks.error)
      ensures tracks.Success? && position > |old(currentQueue)| ==> r == Rejected("Position out of bounds")
      ensures r.Rejected? ==> currentQueue == old(currentQueue) && playerQueue == old(playerQueue)
                              && queueEvents == old(queueEvents)
      ensures tracks.Success? && position <= |old(currentQueue)| ==>
        && r == Resolved
        && currentQueue == old(currentQueue)[..position] + tracks.value + old(currentQueue)[position..]
        && playerQueue == Resolve(currentQueue, catalog)
        && queueEvents == old(queueEvents) + [currentQueue]
    {
      if tracks.Failure? {
        return Rejected("Insert tracks failed: " + tracks.error);
      }
      if position <= |currentQueue| {
        currentQueue := currentQueue[..position] + tracks.value + currentQueue[position..];
        PublishQueue(catalog);
        r := Resolved;
      } else {
        r := Rejected("Position out of bounds");
      }
    }

    /** `removeTrackFromQueue`: every entry with the id goes, the rest keep their order; an
        id that is not queued is not an error. */
    method RemoveTrackFromQueue(trackId: string, catalog: Catalog) returns (r: Outcome)
      modifies this`currentQueue, this`playerQueue, this`queueEvents
      ensures r == Resolved
      ensures currentQueue == WithoutId(old(currentQueue), trackId)
      ensures !HasTrack(currentQueue, trackId)
      ensures !HasTrack(old(currentQueue), trackId) ==> currentQueue == old(currentQueue)
      ensures playerQueue == Resolve(currentQueue, catalog)
      ensures queueEvents == old(queueEvents) + [currentQueue]
    {
      if !HasTrack(currentQueue, trackId) {
        WithoutAbsentId(currentQueue, trackId);
      }
      currentQueue := WithoutId(currentQueue, trackId);
      PublishQueue(catalog);
      r := Resolved;
    }

    /** `insertTrackNext`: the track goes in at `min(1, count)`. */
    method InsertTrackNext(track: Result<Track>, catalog: Catalog) returns (r: Outcome)
      modifies this`currentQueue, this`playerQueue, this`queueEvents
      ensures track.Failure? ==> r == Rejected("Insert track next failed: " + track.error)
      ensures track.Failure? ==> currentQueue == old(currentQueue) && playerQueue == old(playerQueue)
                                 && queueEvents == old(queueEvents)
      ensures track.Success? ==>
        && r == Resolved
        && currentQueue == (if old(currentQueue) == [] then [track.value]
                            else [old(currentQueue)[0], track.value] + old(currentQueue)[1..])
        && playerQueue == Resolve(currentQueue, catalog)
        && queueEvents == old(queueEvents) + [currentQueue]
    {
      if track.Failure? {
        return Rejected("Insert track next failed: " + track.error);
      }
      var insertPosition := NextPosition(|currentQueue|);
      InsertNextShape(currentQueue, track.value);
      currentQueue := currentQueue[..insertPosition] + [track.value] + currentQueue[insertPosition..];
      PublishQueue(catalog);
      r := Resolved;
    }

    /** `insertTrackLast`: the track is appended. */
    method InsertTrackLast(track: Result<Track>, catalog: Catalog) returns (r: Outcome)
      modifies this`currentQueue, this`playerQueue, this`queueEvents
      ensures track.Failure? ==> r == Rejected("Insert track last failed: " + track.error)
      ensures track.Failure? ==> currentQueue == old(currentQueue) && playerQueue == old(playerQueue)
                                 && queueEvents == old(queueEvents)
      ensures track.Success? ==>
        && r == Resolved
        && currentQueue == old(currentQueue) + [track.value]
        && playerQueue == Resolve(currentQueue, catalog)
        && queueEvents == old(queueEvents) + [currentQueue]
    {
      if track.Failure? {
        return Rejected("Insert track last failed: " + track.error);
      }
      currentQueue := currentQueue + [track.value];
      PublishQueue(catalog);
      r := Resolved;
    }

    /** `appendTracksToQueue`: the tracks are appended in their order. */
    method AppendTracksToQueue(tracks: Result<seq<Track>>, catalog: Catalog) returns (r: Outcome)
      modifies this`currentQueue, this`playerQueue, this`queueEvents
      ensures tracks.Failure? ==> r == Rejected("Append tracks failed: " + tracks.error)
      ensures tracks.Failure? ==> currentQueue == old(currentQueue) && playerQueue == old(playerQueue)
                                  && queueEvents == old(queueEvents)
      ensures tracks.Success? ==>
        && r == Resolved
        && currentQueue == old(currentQueue) + tracks.value
        && playerQueue == Resolve(currentQueue, catalog)
        && queueEvents == old(queueEvents) + [currentQueue]
    {
      if tracks.Failure? {
        return Rejected("Append tracks failed: " + tracks.error);
      }
      currentQueue := currentQueue + tracks.value;
      PublishQueue(catalog);
      r := Resolved;
    }

    /** `skipToItem`: only checks that the id is queued; it changes nothing. */
    method SkipToItem(trackId: string) returns (r: Outcome)
      ensures r == Resolved <==> exists k :: 0 <= k < |currentQueue| && currentQueue[k].id == trackId
      ensures r.Rejected? ==> r.message == "Track not found in queue"
    {
      if HasTrack(currentQueue, trackId) {
        r := Resolved;
      } else {
        r := Rejected("Track not found in queue");
      }
    }
  }

  /** A second `initialize` subscribes no second set of observers. */
  method InitializeTwice(plugin: MusicKitPlugin) returns (first: Outcome, second: Outcome)
    requires plugin.Valid() && !plugin.isInitialized
    modifies plugin
    ensures first == Resolved && second == Resolved
    ensures plugin.isInitialized && plugin.observerSetups == 1
  {
    first := plugin.Initialize();
    second := plugin.Initialize();
  }

  /** Removing an id that is not queued succeeds and leaves the shadow queue as it was. */
  method RemoveAbsentTrack(plugin: MusicKitPlugin, trackId: string, catalog: Catalog) returns (r: Outcome)
    requires !HasTrack(plugin.currentQueue, trackId)
    modifies plugin
    ensures r == Resolved && plugin.currentQueue == old(plugin.currentQueue)
  {
    r := plugin.RemoveTrackFromQueue(trackId, catalog);
  }
}
