/** `AudioPlayerUseCaseImpl`: the playback queue over `playlist`, the position
    `currentIndex` (-1 when no track of the queue is current) and the `isLooping` flag.
    The audio manager that actually plays is an external object; the model keeps the
    commands it is sent, in order. */
module AudioPlayer {
  import opened Wrappers
  import opened DownloadedAudios
  import opened AudioStore
  import opened SavedAudio

  /** A command received by the audio manager. */
  datatype RendererCommand =
    | PlayTrack(audio: DownloadedAudio)
    | PauseTrack
    | ResumeTrack
    | StopTrack
    | SeekTo(time: real)

  /** The position `playNext` moves to from `current` in a queue of `count` tracks, or
      nothing when it returns without playing. */
  function NextIndex(current: int, count: nat, looping: bool): (r: Option<int>)
    ensures r.None? <==> count == 0 || (current >= count - 1 && !looping)
    ensures r.Some? && current >= -1 ==> 0 <= r.value < count
    ensures r.Some? && r.value != current + 1 ==> looping && current >= count - 1 && r.value == 0
  {
    if count == 0 then None
    else if current < count - 1 then Some(current + 1)
    else if looping then Some(0)
    else None
  }

  /** The position `playPrevious` moves to from `current`, or nothing when it returns
      without playing. */
  function PreviousIndex(current: int, count: nat, looping: bool): (r: Option<int>)
    ensures r.None? <==> count == 0 || (current <= 0 && !looping)
    ensures r.Some? && current <= count ==> 0 <= r.value < count
    ensures r.Some? && r.value != current - 1 ==> looping && current <= 0 && r.value == count - 1
  {
    if count == 0 then None
    else if current > 0 then Some(current - 1)
    else if looping then Some(count - 1)
    else None
  }

  /** Going back after going forward returns to the track one started from. */
  lemma PreviousUndoesNext(i: int, count: nat, looping: bool)
    requires 0 <= i < count
    requires NextIndex(i, count, looping).Some?
    ensures PreviousIndex(NextIndex(i, count, looping).value, count, looping) == Some(i)
  {
  }

  /** Going forward after going back returns to the track one started from. */
  lemma NextUndoesPrevious(i: int, count: nat, looping: bool)
    requires 0 <= i < count
    requires PreviousIndex(i, count, looping).Some?
    ensures NextIndex(PreviousIndex(i, count, looping).value, count, looping) == Some(i)
  {
  }

  /** The position after pressing "next" `k` times; a press that plays nothing leaves
      the position where it is. */
  function AfterNexts(current: int, count: nat, looping: bool, k: nat): int
    decreases k
  {
    if k == 0 then current
    else
      var next := NextIndex(current, count, looping);
      AfterNexts(if next.Some? then next.value else current, count, looping, k - 1)
  }

  /** Pressing "next" `a` and then `b` times is pressing it `a + b` times. */
  lemma {:induction false} AfterNextsCompose(current: int, count: nat, looping: bool, a: nat, b: nat)
    ensures AfterNexts(current, count, looping, a + b) == AfterNexts(AfterNexts(current, count, looping, a), count, looping, b)
    decreases a
  {
    if a > 0 {
      var next := NextIndex(current, count, looping);
      var step := if next.Some? then next.value else current;
      AfterNextsCompose(step, count, looping, a - 1, b);
      assert a + b - 1 == (a - 1) + b;
    }
  }

  /** Inside the queue, each press of "next" moves one track on. */
  lemma {:induction false} AfterNextsInside(current: int, count: nat, looping: bool, k: nat)
    requires -1 <= current && current + k < count
    ensures AfterNexts(current, count, looping, k) == current + k
    decreases k
  {
    if k > 0 {
      AfterNextsInside(current + 1, count, looping, k - 1);
    }
  }

  /** With looping on, "next" cycles through the queue: `count` presses from any
      track come back to it. */
  lemma LoopingNextsCycle(i: int, count: nat)
    requires 0 <= i < count
    ensures AfterNexts(i, count, true, count) == i
  {
    var toLast := count - 1 - i;
    AfterNextsCompose(i, count, true, toLast, 1 + i);
    AfterNextsInside(i, count, true, toLast);
    AfterNextsCompose(count - 1, count, true, 1, i);
    assert AfterNexts(count - 1, count, true, 1) == 0;
    AfterNextsInside(0, count, true, i);
  }

  /** Without looping, "next" plays through the queue from nothing current and then
      stays on the last track. */
  lemma {:induction false} NextsWithoutLoopingStop(current: int, count: nat, k: nat)
    requires -1 <= current < count
    ensures AfterNexts(current, count, false, k) == if current + k < count then current + k else count - 1
    decreases k
  {
    if k > 0 {
      var next := NextIndex(current, count, false);
      if next.Some? {
        NextsWithoutLoopingStop(next.value, count, k - 1);
      } else {
        NextsWithoutLoopingStop(current, count, k - 1);
      }
    }
  }

  class AudioPlayerUseCaseImpl {
    /** `playlist` */
    var playlist: seq<DownloadedAudio>
    /** `currentIndex`: a position in `playlist`, or -1 */
    var currentIndex: int
    /** `isLooping` */
    var isLooping: bool
    /** The commands sent to `audioManager` so far. */
    var commands: seq<RendererCommand>
    /** `savedAudioUseCase` */
    const savedAudio: SavedAudioUseCase

    /** `init`: an empty queue with nothing current and looping off. */
    constructor(savedAudio0: SavedAudioUseCase)
      ensures savedAudio == savedAudio0
      ensures playlist == [] && currentIndex == -1 && !isLooping && commands == []
    {
      savedAudio := savedAudio0;
      playlist := [];
      currentIndex := -1;
      isLooping := false;
      commands := [];
    }

    /** `setupPlaylist()`: the queue becomes the saved records; the position is kept. */
    method SetupPlaylist()
      modifies this
      ensures playlist == savedAudio.repository.audios
      ensures currentIndex == old(currentIndex) && isLooping == old(isLooping) && commands == old(commands)
    {
      playlist := savedAudio.GetSavedAudios();
    }

    /** `play(_:)`: the position moves to the first queue entry with the track's id, or
        stays when there is none; the track is played either way. */
    method Play(a: DownloadedAudio)
      modifies this
      ensures var found := IndexOfId(playlist, a.id);
        && (found.Some? ==> currentIndex == found.value && playlist[currentIndex].id == a.id)
        && (found.None? ==> currentIndex == old(currentIndex))
      ensures commands == old(commands) + [PlayTrack(a)]
      ensures playlist == old(playlist) && isLooping == old(isLooping)
    {
      var index := IndexOfId(playlist, a.id);
      if index.Some? {
        currentIndex := index.value;
      }
      commands := commands + [PlayTrack(a)];
    }

    /** `pause()`: only the audio manager is told. */
    method Pause()
      modifies this
      ensures commands == old(commands) + [PauseTrack]
      ensures playlist == old(playlist) && currentIndex == old(currentIndex) && isLooping == old(isLooping)
    {
      commands := commands + [PauseTrack];
    }

    /** `resume()`: only the audio manager is told. */
    method Resume()
      modifies this
      ensures commands == old(commands) + [ResumeTrack]
      ensures playlist == old(playlist) && currentIndex == old(currentIndex) && isLooping == old(isLooping)
    {
      commands := commands + [ResumeTrack];
    }

    /** `stop()`: the audio manager stops and nothing is current any more. */
    method Stop()
      modifies this
      ensures commands == old(commands) + [StopTrack] && currentIndex == -1
      ensures playlist == old(playlist) && isLooping == old(isLooping)
    {
      commands := commands + [StopTrack];
      currentIndex := -1;
    }

    /** `seek(to:)`: only the audio manager is told. */
    method Seek(time: real)
      modifies this
      ensures commands == old(commands) + [SeekTo(time)]
      ensures playlist == old(playlist) && currentIndex == old(currentIndex) && isLooping == old(isLooping)
    {
      commands := commands + [SeekTo(time)];
    }

    /** `playNext()`. A position below -1 would index the queue out of range. */
    method PlayNext()
      requires currentIndex >= -1
      modifies this
      ensures playlist == old(playlist) && isLooping == old(isLooping)
      ensures var next := NextIndex(old(currentIndex), |playlist|, isLooping);
        && (next.None? ==> currentIndex == old(currentIndex) && commands == old(commands))
        && (next.Some? ==> currentIndex == next.value && commands == old(commands) + [PlayTrack(playlist[currentIndex])])
      ensures 0 <= currentIndex < |playlist| || currentIndex == old(currentIndex)
    {
      if |playlist| == 0 {
        return;
      }
      if currentIndex < |playlist| - 1 {
        currentIndex := currentIndex + 1;
      } else if isLooping {
        currentIndex := 0;
      } else {
        return;
      }
      commands := commands + [PlayTrack(playlist[currentIndex])];
    }

    /** `playPrevious()`. A position beyond the queue's length would index it out of
        range. */
    method PlayPrevious()
      requires currentIndex <= |playlist|
      modifies this
      ensures playlist == old(playlist) && isLooping == old(isLooping)
      ensures var previous := PreviousIndex(old(currentIndex), |playlist|, isLooping);
        && (previous.None? ==> currentIndex == old(currentIndex) && commands == old(commands))
        && (previous.Some? ==> currentIndex == previous.value && commands == old(commands) + [PlayTrack(playlist[currentIndex])])
      ensures 0 <= currentIndex < |playlist| || currentIndex == old(currentIndex)
    {
      if |playlist| == 0 {
        return;
      }
      if currentIndex > 0 {
        currentIndex := currentIndex - 1;
      } else if isLooping {
        currentIndex := |playlist| - 1;
      } else {
        return;
      }
      commands := commands + [PlayTrack(playlist[currentIndex])];
    }

    /** `toggleLoop()`: flips the flag and nothing else, so two calls restore it. */
    method ToggleLoop()
      modifies this
      ensures isLooping == !old(isLooping)
      ensures playlist == old(playlist) && currentIndex == old(currentIndex) && commands == old(commands)
    {
      isLooping := !isLooping;
    }
  }
}
