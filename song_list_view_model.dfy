/** The decisions of `SongListViewModel`: what a tap on a track and a deletion ask of
    the player and of the saved-audio store. */
module SongList {
  import opened Wrappers
  import opened Errors
  import opened Files
  import opened DownloadedAudios
  import opened AudioStore
  import opened SavedAudio
  import opened AudioPlayer

  /** Whether `deleteAudio` succeeds on a store holding `files`: the title-named file
      exists and can be removed, and the repository accepts the deletion. */
  predicate DeletionSucceeds(fs: FileSystem, repository: AudioRepository, files: map<string, Bytes>, a: DownloadedAudio) {
    var path := AudioPath(DocumentsDir, a.title);
    path in files && path !in fs.unremovable && !repository.rejectsDeletes
  }

  /** Whether `audio` is the track the player reports as current. */
  predicate IsCurrent(currentAudio: Option<DownloadedAudio>, audio: DownloadedAudio) {
    currentAudio.Some? && currentAudio.value.id == audio.id
  }

  class SongListViewModel {
    /** `currentAudio`, bound to the player's current track */
    var currentAudio: Option<DownloadedAudio>
    /** `isPlaying`, bound to the player's state */
    var isPlaying: bool
    /** How many times `audioPlayerUseCase.updatePlaylist()` has been called. */
    var playlistUpdates: nat
    /** `audioPlayerUseCase` */
    const player: AudioPlayerUseCaseImpl
    /** `savedAudioUseCase` */
    const savedAudio: SavedAudioUseCase

    constructor(player0: AudioPlayerUseCaseImpl, savedAudio0: SavedAudioUseCase)
      ensures player == player0 && savedAudio == savedAudio0
      ensures currentAudio.None? && !isPlaying && playlistUpdates == 0
    {
      player := player0;
      savedAudio := savedAudio0;
      currentAudio := None;
      isPlaying := false;
      playlistUpdates := 0;
    }

    /** `playAudio(_:)`: a tap on the current track pauses or resumes it and leaves the
        queue position alone; a tap on any other track, or with nothing current, plays
        it. */
    method PlayAudio(a: DownloadedAudio)
      modifies player
      ensures player.playlist == old(player.playlist) && player.isLooping == old(player.isLooping)
      ensures IsCurrent(currentAudio, a) ==>
        && player.commands == old(player.commands) + [if isPlaying then PauseTrack else ResumeTrack]
        && player.currentIndex == old(player.currentIndex)
      ensures !IsCurrent(currentAudio, a) ==>
        && player.commands == old(player.commands) + [PlayTrack(a)]
        && var found := IndexOfId(player.playlist, a.id);
           player.currentIndex == if found.Some? then found.value else old(player.currentIndex)
    {
      if currentAudio.Some? && currentAudio.value.id == a.id {
        if isPlaying {
          player.Pause();
        } else {
          player.Resume();
        }
      } else {
        player.Play(a);
      }
    }

    /** `delete(_:)`: the current track is stopped first, whatever the deletion then
        does; the deletion is `deleteAudio`, and the playlist is refreshed only when it
        succeeds. Its error is swallowed, although a file already removed stays removed
        when the record cannot be deleted. */
    method Delete(a: DownloadedAudio)
      modifies this, player, savedAudio.fs, savedAudio.repository
      ensures currentAudio == old(currentAudio) && isPlaying == old(isPlaying)
      ensures player.playlist == old(player.playlist) && player.isLooping == old(player.isLooping)
      ensures IsCurrent(currentAudio, a) ==>
        player.commands == old(player.commands) + [StopTrack] && player.currentIndex == -1
      ensures !IsCurrent(currentAudio, a) ==>
        player.commands == old(player.commands) && player.currentIndex == old(player.currentIndex)
      ensures var fs, store := savedAudio.fs, savedAudio.repository;
        var ok := DeletionSucceeds(fs, store, old(fs.files), a);
        && (ok ==> playlistUpdates == old(playlistUpdates) + 1
                   && fs.files == old(fs.files) - {AudioPath(DocumentsDir, a.title)}
                   && store.audios == WithoutId(old(store.audios), a.id))
        && (!ok ==> playlistUpdates == old(playlistUpdates) && store.audios == old(store.audios))
      ensures var fs, path := savedAudio.fs, AudioPath(DocumentsDir, a.title);
        && (path in old(fs.files) && path !in fs.unremovable ==> fs.files == old(fs.files) - {path})
        && (path !in old(fs.files) || path in fs.unremovable ==> fs.files == old(fs.files))
      ensures savedAudio.fs.directories == old(savedAudio.fs.directories)
    {
      if currentAudio.Some? && currentAudio.value.id == a.id {
        player.Stop();
      }
      var deleted := savedAudio.DeleteAudio(a);
      if deleted.Fail? {
        return;
      }
      playlistUpdates := playlistUpdates + 1;
    }
  }
}
