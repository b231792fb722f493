/** The values behind the macOS shadow queue: the full-metadata track record the plugin keeps,
    the catalog songs the player accepts, and the pure operations the queue commands are
    specified by (the catalog resolution of a queue, removal by id, the "play next" slot). */
module MacQueue {
  import opened Wrappers

  /** A queued track with all the metadata the application supplied (`MusicKitTrack`).
      Only `id` takes part in any decision; `duration` is a Double in the source and is carried,
      never computed with. */
  datatype Track = Track(
    id: string,
    title: string,
    artist: string,
    album: string,
    duration: real,
    artworkUrl: Option<string>,
    isExplicit: bool,
    isPlayable: bool)

  /** A catalog `Song`, the only item `ApplicationMusicPlayer.Queue` accepts. */
  datatype Song = Song(id: string, title: string, artistName: string)

  /** The catalog request for one store id: `Some(song)` when the request returns a first item,
      `None` when it returns nothing or throws. */
  type Catalog = string -> Option<Song>

  /** The songs the player is given for `tracks`: each track is looked up in turn, a track whose
      lookup fails is skipped, and the songs found keep the queue's order. */
  function Resolve(tracks: seq<Track>, catalog: Catalog): (songs: seq<Song>)
    ensures |songs| <= |tracks|
  {
    if tracks == [] then []
    else
      var prefix := Resolve(tracks[..|tracks| - 1], catalog);
      match catalog(tracks[|tracks| - 1].id)
      case Some(song) => prefix + [song]
      case None => prefix
  }

  /** The positions of `tracks` whose lookup succeeds, in increasing order. */
  function FoundIndices(tracks: seq<Track>, catalog: Catalog): (indices: seq<nat>)
    ensures forall k :: 0 <= k < |indices| ==> indices[k] < |tracks|
  {
    if tracks == [] then []
    else
      var prefix := FoundIndices(tracks[..|tracks| - 1], catalog);
      if catalog(tracks[|tracks| - 1].id).Some? then prefix + [|tracks| - 1] else prefix
  }

  /** The catalog resolution of a queue is exactly the in-order subsequence of the tracks whose
      lookup succeeds: song k is the lookup result of the k-th such track, the positions used
      increase strictly, and no position whose lookup succeeds is missed. */
  lemma {:induction false} ResolveIsFoundSubsequence(tracks: seq<Track>, catalog: Catalog)
    ensures |FoundIndices(tracks, catalog)| == |Resolve(tracks, catalog)|
    ensures forall k :: 0 <= k < |FoundIndices(tracks, catalog)| ==>
      catalog(tracks[FoundIndices(tracks, catalog)[k]].id) == Some(Resolve(tracks, catalog)[k])
    ensures forall k, l :: 0 <= k < l < |FoundIndices(tracks, catalog)| ==>
      FoundIndices(tracks, catalog)[k] < FoundIndices(tracks, catalog)[l]
    ensures forall i :: 0 <= i < |tracks| && catalog(tracks[i].id).Some? ==>
      i in FoundIndices(tracks, catalog)
  {
    if tracks != [] {
      var n := |tracks| - 1;
      var init := tracks[..n];
      ResolveIsFoundSubsequence(init, catalog);
      assert forall i :: 0 <= i < n ==> init[i] == tracks[i];
    }
  }

  /** Resolving a queue resolves its two halves independently: what one track's lookup does
      never affects the songs found for the others. */
  lemma {:induction false} ResolveAppend(a: seq<Track>, b: seq<Track>, catalog: Catalog)
    ensures Resolve(a + b, catalog) == Resolve(a, catalog) + Resolve(b, catalog)
  {
    if b == [] {
      assert a + b == a;
    } else {
      var n := |b| - 1;
      assert (a + b)[..|a + b| - 1] == a + b[..n];
      assert (a + b)[|a + b| - 1] == b[n];
      ResolveAppend(a, b[..n], catalog);
    }
  }

  /** One failed lookup does not abort the batch: the tracks around it still resolve. */
  lemma SkipsFailedLookup(before: seq<Track>, t: Track, after: seq<Track>, catalog: Catalog)
    requires catalog(t.id).None?
    ensures Resolve(before + [t] + after, catalog) == Resolve(before, catalog) + Resolve(after, catalog)
  {
    ResolveAppend(before + [t], after, catalog);
    assert (before + [t])[..|before + [t]| - 1] == before;
  }

  /** When every lookup succeeds the player receives one song per queued track. */
  lemma {:induction false} ResolveAllFound(tracks: seq<Track>, catalog: Catalog)
    requires forall i :: 0 <= i < |tracks| ==> catalog(tracks[i].id).Some?
    ensures |Resolve(tracks, catalog)| == |tracks|
  {
    if tracks != [] {
      var n := |tracks| - 1;
      assert forall i :: 0 <= i < n ==> tracks[..n][i] == tracks[i];
      ResolveAllFound(tracks[..n], catalog);
    }
  }

  /** The queue with every entry whose id is `id` removed (`removeAll { $0.id == id }`). */
  function WithoutId(queue: seq<Track>, id: string): (rest: seq<Track>)
    ensures |rest| <= |queue|
    ensures forall k :: 0 <= k < |rest| ==> rest[k].id != id
  {
    if queue == [] then []
    else if queue[0].id == id then WithoutId(queue[1..], id)
    else [queue[0]] + WithoutId(queue[1..], id)
  }

  /** Removal keeps the other entries in their original order ... */
  lemma {:induction false} WithoutIdKeepsOrder(queue: seq<Track>, id: string)
    ensures IsSubsequence(WithoutId(queue, id), queue)
  {
    if queue != [] {
      WithoutIdKeepsOrder(queue[1..], id);
      var rest := WithoutId(queue, id);
      if queue[0].id == id && rest != [] {
        assert rest[0].id != id;
      }
    }
  }

  /** ... and every one of them, duplicates included: only entries with that id go. */
  lemma {:induction false} WithoutIdCounts(queue: seq<Track>, id: string)
    ensures forall t :: multiset(WithoutId(queue, id))[t] == if t.id == id then 0 else multiset(queue)[t]
  {
    if queue != [] {
      WithoutIdCounts(queue[1..], id);
      assert queue == [queue[0]] + queue[1..];
    }
  }

  /** Removing an id no entry has leaves the queue as it was. */
  lemma {:induction false} WithoutAbsentId(queue: seq<Track>, id: string)
    requires forall k :: 0 <= k < |queue| ==> queue[k].id != id
    ensures WithoutId(queue, id) == queue
  {
    if queue != [] {
      WithoutAbsentId(queue[1..], id);
    }
  }

  /** Whether some queued track has the store id (`contains(where: { $0.id == id })`). */
  predicate HasTrack(queue: seq<Track>, id: string)
  {
    exists k :: 0 <= k < |queue| && queue[k].id == id
  }

  /** Where "play next" inserts: `min(1, count)`, the slot after the first entry. */
  function NextPosition(count: nat): (p: nat)
    ensures p <= count
  {
    if count < 1 then count else 1
  }

  /** Inserting at `NextPosition`: an empty queue becomes the one track; otherwise the track
      lands right behind the first entry and everything after it shifts right. */
  lemma InsertNextShape(queue: seq<Track>, t: Track)
    ensures var p := NextPosition(|queue|);
      queue[..p] + [t] + queue[p..] == if queue == [] then [t] else [queue[0], t] + queue[1..]
  {
  }
}
