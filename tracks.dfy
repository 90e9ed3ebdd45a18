/** The music side of a voice connection: a FIFO queue of tracks and the
    scheduler that moves tracks from the queue to the audio player when one
    is queued, when one ends and when the user skips. The audio player is
    reduced to the track it is playing, the player front-end to whether the
    Opus stream is running. */
module Tracks {
  import opened Bytes

  /** `TrackQueue`: a `LinkedList` used through `offer`, `poll` and `clear`. */
  class TrackQueue<T> {
    var items: seq<T>

    constructor ()
      ensures items == []
    {
      items := [];
    }

    /** `add`: the track goes to the tail. */
    method Add(track: T)
      modifies this
      ensures items == old(items) + [track]
    {
      items := items + [track];
    }

    /** `addAll`: the tracks go to the tail in iteration order. */
    method AddAll(tracks: seq<T>)
      modifies this
      ensures items == old(items) + tracks
    {
      for i := 0 to |tracks|
        invariant items == old(items) + tracks[..i]
      {
        assert tracks[..i + 1] == tracks[..i] + [tracks[i]];
        items := items + [tracks[i]];
      }
    }

    /** `poll`: the head, removed; `None` (Java's `null`) and no change on an
        empty queue. */
    method Poll() returns (head: Option<T>)
      modifies this
      ensures old(items) == [] ==> head == None && items == []
      ensures old(items) != [] ==> head == Some(old(items)[0]) && items == old(items)[1..]
    {
      if items == [] {
        head := None;
      } else {
        head := Some(items[0]);
        items := items[1..];
      }
    }

    method IsEmpty() returns (empty: bool)
      ensures empty <==> |items| == 0
    {
      empty := |items| == 0;
    }

    method Clear()
      modifies this
      ensures items == []
    {
      items := [];
    }

    /** `getSnapshot`: a copy in queue order; being a value, later changes to
        the queue do not reach it. */
    method Snapshot() returns (snapshot: seq<T>)
      ensures snapshot == items
    {
      snapshot := items;
    }
  }

  /** The lavaplayer `AudioPlayer`, as far as the scheduler sees it. */
  class AudioPlayer<T> {
    var current: Option<T>

    constructor ()
      ensures current == None
    {
      current := None;
    }

    /** `startTrack(track, noInterrupt)`: with `noInterrupt` a playing track is
        left alone and the call answers `false`; otherwise `track` becomes
        the current one. */
    method StartTrack(track: T, noInterrupt: bool) returns (accepted: bool)
      modifies this
      ensures accepted <==> !(noInterrupt && old(current).Some?)
      ensures accepted ==> current == Some(track)
      ensures !accepted ==> current == old(current)
    {
      if noInterrupt && current.Some? {
        accepted := false;
      } else {
        current := Some(track);
        accepted := true;
      }
    }

    /** `stopTrack`; also what the player does itself when a track ends,
        before it reports the end. */
    method StopTrack()
      modifies this
      ensures current == None
    {
      current := None;
    }
  }

  /** A call the scheduler makes on the `LavaPlayer` front-end. */
  datatype Request = StartAudioStream | Stop

  /** The `LavaPlayer` front-end: the calls it received, whether the Opus
      stream runs, and the audio player it drives. */
  class LavaPlayer<T> {
    const player: AudioPlayer<T>
    var streaming: bool
    var requests: seq<Request>

    constructor (player: AudioPlayer<T>)
      ensures this.player == player && !streaming && requests == []
    {
      this.player := player;
      streaming := false;
      requests := [];
    }

    /** `startAudioStream`: a second call while streaming is ignored. */
    method StartAudioStream()
      modifies this
      ensures streaming && requests == old(requests) + [Request.StartAudioStream]
    {
      requests := requests + [Request.StartAudioStream];
      if !streaming {
        streaming := true;
      }
    }

    /** `stop`: stops the audio player's track and the stream. */
    method Stop()
      modifies this, player
      ensures !streaming && requests == old(requests) + [Request.Stop]
      ensures player.current == None
    {
      requests := requests + [Request.Stop];
      player.StopTrack();
      streaming := false;
    }
  }

  class TrackScheduler<T> {
    const player: AudioPlayer<T>
    const queue: TrackQueue<T>
    const lavaPlayer: LavaPlayer<T>
    /** Every track `queue` put in the queue, in order. */
    ghost var enqueued: seq<T>
    /** Every track `onTrackEnd` or `skip` took from the queue and started. */
    ghost var dequeued: seq<T>

    /** The scheduler and the front-end drive one audio player, and the
        queue is first in, first out: the tracks started from it, then those
        still waiting, are the tracks put in it, in order. */
    ghost predicate Valid()
      reads this, lavaPlayer, queue
    {
      lavaPlayer.player == player && dequeued + queue.items == enqueued
    }

    constructor (player: AudioPlayer<T>, queue: TrackQueue<T>, lavaPlayer: LavaPlayer<T>)
      requires lavaPlayer.player == player
      ensures this.player == player && this.queue == queue && this.lavaPlayer == lavaPlayer
      ensures enqueued == queue.items && dequeued == []
      ensures Valid()
    {
      this.player := player;
      this.queue := queue;
      this.lavaPlayer := lavaPlayer;
      enqueued := queue.items;
      dequeued := [];
    }

    /** `queue`: the track starts at once when nothing is playing (and the
        stream is started); otherwise it waits at the tail of the queue and
        the playing track carries on. */
    method Queue(track: T)
      requires Valid()
      modifies this, player, queue, lavaPlayer
      ensures Valid() && dequeued == old(dequeued)
      ensures old(player.current).None? ==>
                player.current == Some(track) && queue.items == old(queue.items) && lavaPlayer.streaming
                && lavaPlayer.requests == old(lavaPlayer.requests) + [Request.StartAudioStream]
                && enqueued == old(enqueued)
      ensures old(player.current).Some? ==>
                player.current == old(player.current) && queue.items == old(queue.items) + [track]
                && lavaPlayer.streaming == old(lavaPlayer.streaming) && lavaPlayer.requests == old(lavaPlayer.requests)
                && enqueued == old(enqueued) + [track]
    {
      var accepted := player.StartTrack(track, true);
      if !accepted {
        queue.Add(track);
        enqueued := enqueued + [track];
      } else {
        lavaPlayer.StartAudioStream();
      }
    }

    /** `onTrackEnd`: when the end reason allows a next track, the head of
        the queue starts, or the front-end stops when the queue is empty;
        otherwise nothing happens. */
    method OnTrackEnd(mayStartNext: bool)
      requires Valid()
      modifies this, player, queue, lavaPlayer
      ensures Valid() && enqueued == old(enqueued)
      ensures !mayStartNext ==>
                player.current == old(player.current) && queue.items == old(queue.items)
                && lavaPlayer.streaming == old(lavaPlayer.streaming) && lavaPlayer.requests == old(lavaPlayer.requests)
                && dequeued == old(dequeued)
      ensures mayStartNext && old(queue.items) != [] ==>
                player.current == Some(old(queue.items)[0]) && queue.items == old(queue.items)[1..]
                && lavaPlayer.streaming && dequeued == old(dequeued) + [old(queue.items)[0]]
                && lavaPlayer.requests == old(lavaPlayer.requests) + [Request.StartAudioStream]
      ensures mayStartNext && old(queue.items) == [] ==>
                player.current == None && queue.items == [] && !lavaPlayer.streaming && dequeued == old(dequeued)
                && lavaPlayer.requests == old(lavaPlayer.requests) + [Request.Stop]
    {
      if mayStartNext {
        StartNext(false);
      }
    }

    /** `skip`: the head of the queue replaces the playing track; with an
        empty queue the track is stopped and so is the front-end. */
    method Skip()
      requires Valid()
      modifies this, player, queue, lavaPlayer
      ensures Valid() && enqueued == old(enqueued)
      ensures old(queue.items) != [] ==>
                player.current == Some(old(queue.items)[0]) && queue.items == old(queue.items)[1..]
                && |queue.items| == |old(queue.items)| - 1 && lavaPlayer.streaming
                && dequeued == old(dequeued) + [old(queue.items)[0]]
                && lavaPlayer.requests == old(lavaPlayer.requests) + [Request.StartAudioStream]
      ensures old(queue.items) == [] ==>
                player.current == None && queue.items == [] && !lavaPlayer.streaming && dequeued == old(dequeued)
                && lavaPlayer.requests == old(lavaPlayer.requests) + [Request.Stop]
    {
      StartNext(true);
    }

    /** The common tail of `onTrackEnd` and `skip`: poll, then start the
        head or stop (`skip` also calls `stopTrack` first). */
    method StartNext(stopFirst: bool)
      requires Valid()
      modifies this, player, queue, lavaPlayer
      ensures Valid() && enqueued == old(enqueued)
      ensures old(queue.items) != [] ==>
                player.current == Some(old(queue.items)[0]) && queue.items == old(queue.items)[1..]
                && lavaPlayer.streaming && dequeued == old(dequeued) + [old(queue.items)[0]]
                && lavaPlayer.requests == old(lavaPlayer.requests) + [Request.StartAudioStream]
      ensures old(queue.items) == [] ==>
                player.current == None && queue.items == [] && !lavaPlayer.streaming && dequeued == old(dequeued)
                && lavaPlayer.requests == old(lavaPlayer.requests) + [Request.Stop]
    {
      ghost var before := queue.items;
      var next := queue.Poll();
      if next.Some? {
        var _ := player.StartTrack(next.value, false);
        dequeued := dequeued + [next.value];
        assert dequeued + queue.items == old(dequeued) + before;
        lavaPlayer.StartAudioStream();
      } else {
        if stopFirst {
          player.StopTrack();
        }
        lavaPlayer.Stop();
      }
    }
  }
}
