/** The video-progress store: one record per (video, program) pair, kept in
    an ordered list and changed by an upsert, plus the session-wide player
    preferences. Aggregates are functions of the list. */
module Video {
  import opened Options
  import opened Seqs

  /** Watch state of one video within one program. Times are whole seconds;
      `lastWatched` is an abstract timestamp. */
  datatype VideoProgress = VideoProgress(
    videoId: string, programId: string,
    currentTime: int, duration: int, completed: bool, lastWatched: int)

  /** The optional fields of a progress update; `None` means "not supplied". */
  datatype ProgressPatch = ProgressPatch(
    currentTime: Option<int>, duration: Option<int>, completed: Option<bool>, lastWatched: Option<int>)

  datatype Quality = Auto | P720 | P1080 | P480

  datatype VideoState = VideoState(
    isPlaying: bool, isMuted: bool, volume: real, playbackRate: real,
    quality: Quality, subtitles: bool, fullscreen: bool)

  datatype StatePatch = StatePatch(
    isPlaying: Option<bool>, isMuted: Option<bool>, volume: Option<real>, playbackRate: Option<real>,
    quality: Option<Quality>, subtitles: Option<bool>, fullscreen: Option<bool>)

  datatype CurrentVideo = CurrentVideo(id: string, programId: string, title: string, url: string)

  datatype ProgramProgress = ProgramProgress(completed: nat, total: nat, percentage: real)

  const DefaultState := VideoState(false, false, 1.0, 1.0, Auto, false, false)

  predicate SameKey(p: VideoProgress, videoId: string, programId: string) {
    p.videoId == videoId && p.programId == programId
  }

  /** At most one record per (videoId, programId) pair. */
  ghost predicate KeysUnique(rs: seq<VideoProgress>) {
    forall i, j :: 0 <= i < j < |rs| ==> !SameKey(rs[j], rs[i].videoId, rs[i].programId)
  }

  /** Index of the first record for the pair, or -1 (`findIndex`). */
  function FindIndex(rs: seq<VideoProgress>, videoId: string, programId: string): (r: int)
    ensures -1 <= r < |rs|
    ensures r >= 0 ==> SameKey(rs[r], videoId, programId)
    ensures r >= 0 ==> forall j :: 0 <= j < r ==> !SameKey(rs[j], videoId, programId)
    ensures r == -1 <==> forall j :: 0 <= j < |rs| ==> !SameKey(rs[j], videoId, programId)
  {
    if rs == [] then -1
    else if SameKey(rs[0], videoId, programId) then 0
    else
      var k := FindIndex(rs[1..], videoId, programId);
      if k < 0 then -1 else k + 1
  }

  /** The first matching index is the one `FindIndex` returns. */
  lemma FindIndexIsFirst(rs: seq<VideoProgress>, videoId: string, programId: string, k: nat)
    requires k < |rs| && SameKey(rs[k], videoId, programId)
    requires forall j :: 0 <= j < k ==> !SameKey(rs[j], videoId, programId)
    ensures FindIndex(rs, videoId, programId) == k
  {
  }

  /** The record for the pair, or `None` (`find(...) || null`). */
  function GetVideoProgress(rs: seq<VideoProgress>, videoId: string, programId: string): (r: Option<VideoProgress>)
    ensures r.Some? ==> r.value in rs && SameKey(r.value, videoId, programId)
    ensures r.None? <==> forall j :: 0 <= j < |rs| ==> !SameKey(rs[j], videoId, programId)
  {
    var i := FindIndex(rs, videoId, programId);
    if i < 0 then None else Some(rs[i])
  }

  /** The defaults a new record starts from. */
  function Seed(videoId: string, programId: string, now: int): VideoProgress {
    VideoProgress(videoId, programId, 0, 0, false, now)
  }

  /** `{...base, ...patch}`: each supplied field replaces the base's. */
  function Overlay(base: VideoProgress, videoId: string, programId: string, patch: ProgressPatch): (r: VideoProgress)
    ensures SameKey(r, videoId, programId)
    ensures patch.currentTime.Some? ==> r.currentTime == patch.currentTime.value
    ensures patch.duration.Some? ==> r.duration == patch.duration.value
    ensures patch.completed.Some? ==> r.completed == patch.completed.value
    ensures patch.lastWatched.Some? ==> r.lastWatched == patch.lastWatched.value
    ensures patch.currentTime.None? ==> r.currentTime == base.currentTime
    ensures patch.duration.None? ==> r.duration == base.duration
    ensures patch.completed.None? ==> r.completed == base.completed
    ensures patch.lastWatched.None? ==> r.lastWatched == base.lastWatched
  {
    VideoProgress(videoId, programId,
      patch.currentTime.GetOr(base.currentTime),
      patch.duration.GetOr(base.duration),
      patch.completed.GetOr(base.completed),
      patch.lastWatched.GetOr(base.lastWatched))
  }

  /** The list after `updateVideoProgress`: the pair's record is overlaid in
      place, or a seeded and overlaid record is appended. */
  function Upsert(rs: seq<VideoProgress>, videoId: string, programId: string, patch: ProgressPatch, now: int): (r: seq<VideoProgress>)
    ensures |r| == (if FindIndex(rs, videoId, programId) >= 0 then |rs| else |rs| + 1)
    ensures forall j :: 0 <= j < |rs| && !SameKey(rs[j], videoId, programId) ==> r[j] == rs[j]
  {
    var i := FindIndex(rs, videoId, programId);
    var updated := Overlay(if i >= 0 then rs[i] else Seed(videoId, programId, now), videoId, programId, patch);
    if i >= 0 then rs[i := updated] else rs + [updated]
  }

  /** An upsert replaces the pair's record at its index or appends exactly
      one record, and leaves every other index as it was. */
  lemma UpsertShape(rs: seq<VideoProgress>, videoId: string, programId: string, patch: ProgressPatch, now: int)
    ensures var r := Upsert(rs, videoId, programId, patch, now);
      var i := FindIndex(rs, videoId, programId);
      && (i >= 0 ==> |r| == |rs| && r[i] == Overlay(rs[i], videoId, programId, patch))
      && (i < 0 ==> |r| == |rs| + 1 && r[|rs|] == Overlay(Seed(videoId, programId, now), videoId, programId, patch))
      && (forall j :: 0 <= j < |rs| && j != i ==> r[j] == rs[j])
  {
  }

  /** Upserting never creates a second record for a pair. */
  lemma UpsertKeepsKeysUnique(rs: seq<VideoProgress>, videoId: string, programId: string, patch: ProgressPatch, now: int)
    requires KeysUnique(rs)
    ensures KeysUnique(Upsert(rs, videoId, programId, patch, now))
  {
  }

  /** Reading the pair back after an upsert gives the overlaid record: a
      new record is seeded with zero times, not completed and `now`; an
      existing one keeps every field the patch does not supply, including
      `lastWatched`. */
  lemma UpsertThenGet(rs: seq<VideoProgress>, videoId: string, programId: string, patch: ProgressPatch, now: int)
    ensures GetVideoProgress(Upsert(rs, videoId, programId, patch, now), videoId, programId)
         == Some(Overlay(GetVideoProgress(rs, videoId, programId).GetOr(Seed(videoId, programId, now)), videoId, programId, patch))
  {
    var i := FindIndex(rs, videoId, programId);
    var r := Upsert(rs, videoId, programId, patch, now);
    if i < 0 {
      assert forall j :: 0 <= j < |rs| ==> r[j] == rs[j];
      FindIndexIsFirst(r, videoId, programId, |rs|);
    } else {
      FindIndexIsFirst(r, videoId, programId, i);
    }
  }

  /** An upsert does not change what any other pair reads back. */
  lemma UpsertLeavesOtherPairs(rs: seq<VideoProgress>, videoId: string, programId: string, patch: ProgressPatch, now: int,
                               otherVideo: string, otherProgram: string)
    requires otherVideo != videoId || otherProgram != programId
    ensures GetVideoProgress(Upsert(rs, videoId, programId, patch, now), otherVideo, otherProgram)
         == GetVideoProgress(rs, otherVideo, otherProgram)
  {
    var i := FindIndex(rs, videoId, programId);
    var r := Upsert(rs, videoId, programId, patch, now);
    var k := FindIndex(rs, otherVideo, otherProgram);
    assert forall j :: 0 <= j < |rs| && j != i ==> r[j] == rs[j];
    if k < 0 {
      assert forall j :: 0 <= j < |r| ==> !SameKey(r[j], otherVideo, otherProgram);
    } else {
      assert k != i;
      FindIndexIsFirst(r, otherVideo, otherProgram, k);
    }
  }

  /** The patch `markVideoComplete` applies. */
  function CompletionPatch(now: int): ProgressPatch {
    ProgressPatch(None, None, Some(true), Some(now))
  }

  /** After marking a video complete it reads back completed, stamped with
      `now`, and with the times it had before (zero for a new record). */
  lemma MarkCompleteEffect(rs: seq<VideoProgress>, videoId: string, programId: string, now: int)
    ensures var before := GetVideoProgress(rs, videoId, programId).GetOr(Seed(videoId, programId, now));
      var after := GetVideoProgress(Upsert(rs, videoId, programId, CompletionPatch(now), now), videoId, programId);
      && after.Some?
      && after.value.completed
      && after.value.lastWatched == now
      && after.value.currentTime == before.currentTime
      && after.value.duration == before.duration
  {
    UpsertThenGet(rs, videoId, programId, CompletionPatch(now), now);
  }

  /** `{...prev, ...patch}` over the player preferences. */
  function MergeState(s: VideoState, patch: StatePatch): (r: VideoState)
    ensures patch == StatePatch(None, None, None, None, None, None, None) ==> r == s
    ensures patch.isPlaying.Some? ==> r.isPlaying == patch.isPlaying.value
    ensures patch.isMuted.Some? ==> r.isMuted == patch.isMuted.value
    ensures patch.volume.Some? ==> r.volume == patch.volume.value
    ensures patch.playbackRate.Some? ==> r.playbackRate == patch.playbackRate.value
    ensures patch.quality.Some? ==> r.quality == patch.quality.value
    ensures patch.subtitles.Some? ==> r.subtitles == patch.subtitles.value
    ensures patch.fullscreen.Some? ==> r.fullscreen == patch.fullscreen.value
    ensures patch.isPlaying.None? ==> r.isPlaying == s.isPlaying
    ensures patch.isMuted.None? ==> r.isMuted == s.isMuted
    ensures patch.volume.None? ==> r.volume == s.volume
    ensures patch.playbackRate.None? ==> r.playbackRate == s.playbackRate
    ensures patch.quality.None? ==> r.quality == s.quality
    ensures patch.subtitles.None? ==> r.subtitles == s.subtitles
    ensures patch.fullscreen.None? ==> r.fullscreen == s.fullscreen
  {
    VideoState(
      patch.isPlaying.GetOr(s.isPlaying), patch.isMuted.GetOr(s.isMuted),
      patch.volume.GetOr(s.volume), patch.playbackRate.GetOr(s.playbackRate),
      patch.quality.GetOr(s.quality), patch.subtitles.GetOr(s.subtitles),
      patch.fullscreen.GetOr(s.fullscreen))
  }

  /** Applying the same preference patch twice is the same as once. */
  lemma MergeStateIdempotent(s: VideoState, patch: StatePatch)
    ensures MergeState(MergeState(s, patch), patch) == MergeState(s, patch)
  {
  }

  /** What one record adds to the total watch time. */
  function Watched(p: VideoProgress): int {
    if p.completed then p.duration else p.currentTime
  }

  /** `reduce((total, p) => total + Watched(p), 0)`, folding from the left. */
  function TotalWatchTime(rs: seq<VideoProgress>): (r: int)
    ensures (forall i :: 0 <= i < |rs| ==> Watched(rs[i]) >= 0) ==> r >= 0
  {
    if rs == [] then 0 else TotalWatchTime(rs[..|rs| - 1]) + Watched(rs[|rs| - 1])
  }

  lemma {:induction false} TotalWatchTimeAppend(a: seq<VideoProgress>, b: seq<VideoProgress>)
    ensures TotalWatchTime(a + b) == TotalWatchTime(a) + TotalWatchTime(b)
    decreases |b|
  {
    if b == [] {
      assert a + b == a;
    } else {
      assert (a + b)[..|a + b| - 1] == a + b[..|b| - 1];
      TotalWatchTimeAppend(a, b[..|b| - 1]);
    }
  }

  /** Replacing one record changes the total by exactly the difference of
      the two records' contributions. */
  lemma TotalWatchTimeUpdate(rs: seq<VideoProgress>, i: nat, x: VideoProgress)
    requires i < |rs|
    ensures TotalWatchTime(rs[i := x]) == TotalWatchTime(rs) - Watched(rs[i]) + Watched(x)
  {
    assert rs == rs[..i] + [rs[i]] + rs[i+1..];
    assert rs[i := x] == rs[..i] + [x] + rs[i+1..];
    TotalWatchTimeAppend(rs[..i] + [rs[i]], rs[i+1..]);
    TotalWatchTimeAppend(rs[..i], [rs[i]]);
    TotalWatchTimeAppend(rs[..i] + [x], rs[i+1..]);
    TotalWatchTimeAppend(rs[..i], [x]);
  }

  /** Total watch time after an upsert: the old total, less the pair's old
      contribution (nothing for a new pair), plus its new one. */
  lemma TotalWatchTimeAfterUpsert(rs: seq<VideoProgress>, videoId: string, programId: string, patch: ProgressPatch, now: int)
    ensures var old_ := GetVideoProgress(rs, videoId, programId);
      var new_ := Overlay(old_.GetOr(Seed(videoId, programId, now)), videoId, programId, patch);
      TotalWatchTime(Upsert(rs, videoId, programId, patch, now))
        == TotalWatchTime(rs) - (if old_.Some? then Watched(old_.value) else 0) + Watched(new_)
  {
    var i := FindIndex(rs, videoId, programId);
    var updated := Overlay(if i >= 0 then rs[i] else Seed(videoId, programId, now), videoId, programId, patch);
    if i >= 0 {
      TotalWatchTimeUpdate(rs, i, updated);
    } else {
      TotalWatchTimeAppend(rs, [updated]);
    }
  }

  predicate IsCompleted(p: VideoProgress) {
    p.completed
  }

  /** `filter(p => p.completed).length`: the number of completed records,
      which is every record exactly when all of them are completed. */
  function GetCompletedVideosCount(rs: seq<VideoProgress>): (r: nat)
    ensures r <= |rs|
    ensures r == |rs| <==> forall i :: 0 <= i < |rs| ==> rs[i].completed
  {
    FilterKeepsAllIff(rs, IsCompleted);
    |Filter(rs, IsCompleted)|
  }

  /** Marking a video complete raises the completed count by one when the
      pair was absent or not yet complete, and leaves it alone otherwise. */
  lemma CompletedCountAfterMarkComplete(rs: seq<VideoProgress>, videoId: string, programId: string, now: int)
    ensures var before := GetVideoProgress(rs, videoId, programId);
      GetCompletedVideosCount(Upsert(rs, videoId, programId, CompletionPatch(now), now))
        == GetCompletedVideosCount(rs) + (if before.Some? && before.value.completed then 0 else 1)
  {
    var i := FindIndex(rs, videoId, programId);
    var patch := CompletionPatch(now);
    var updated := Overlay(if i >= 0 then rs[i] else Seed(videoId, programId, now), videoId, programId, patch);
    if i >= 0 {
      FilterUpdate(rs, i, updated, IsCompleted);
    } else {
      FilterAppend(rs, [updated], IsCompleted);
    }
  }

  /** The filter that selects one program's records. */
  function InProgram(programId: string): VideoProgress -> bool {
    (p: VideoProgress) => p.programId == programId
  }

  /** Completion of one program: how many of its records there are, how many
      of them are completed, and that share as a percentage (see
      `Percentage` for its range). */
  function GetProgramProgress(rs: seq<VideoProgress>, programId: string): (r: ProgramProgress)
    ensures r.completed <= r.total <= |rs|
    ensures r.total == |Filter(rs, InProgram(programId))|
    ensures r.completed == GetCompletedVideosCount(Filter(rs, InProgram(programId)))
    ensures r.percentage == Percentage(r.completed, r.total)
  {
    var programVideos := Filter(rs, InProgram(programId));
    var completed := |Filter(programVideos, IsCompleted)|;
    var total := |programVideos|;
    ProgramProgress(completed, total, Percentage(completed, total))
  }

  /** `total > 0 ? (completed / total) * 100 : 0`: the completed share in
      percent, guarded against an empty program. */
  function Percentage(completed: nat, total: nat): (p: real)
    ensures total == 0 ==> p == 0.0
    ensures total > 0 ==> p * (total as real) == (completed as real) * 100.0
    ensures completed <= total ==> 0.0 <= p <= 100.0
  {
    if total > 0 then
      PercentageBounds(completed, total);
      (completed as real / total as real) * 100.0
    else 0.0
  }

  /** `completed / total * 100` lies in [0, 100] and scales back to `completed`. */
  lemma PercentageBounds(completed: nat, total: nat)
    requires 0 < total
    ensures var p := (completed as real / total as real) * 100.0;
      0.0 <= p && p * (total as real) == (completed as real) * 100.0
      && (completed <= total ==> p <= 100.0)
  {
    var c, t := completed as real, total as real;
    var q := c / t;
    assert q * t == c;
    assert 0.0 <= q;
    assert completed <= total ==> q <= 1.0;
  }

  class VideoStore {
    var videoProgress: seq<VideoProgress>
    var videoState: VideoState
    var currentVideo: Option<CurrentVideo>

    ghost predicate Valid()
      reads this
    {
      KeysUnique(videoProgress)
    }

    constructor ()
      ensures Valid()
      ensures videoProgress == [] && videoState == DefaultState && currentVideo == None
    {
      videoProgress := [];
      videoState := DefaultState;
      currentVideo := None;
    }

    /** Overlay `patch` on the pair's record in place, or append a new one. */
    method UpdateVideoProgress(videoId: string, programId: string, patch: ProgressPatch, now: int)
      requires Valid()
      modifies this
      ensures Valid()
      ensures videoProgress == Upsert(old(videoProgress), videoId, programId, patch, now)
      ensures videoState == old(videoState) && currentVideo == old(currentVideo)
    {
      UpsertKeepsKeysUnique(videoProgress, videoId, programId, patch, now);
      var existingIndex := FindIndex(videoProgress, videoId, programId);
      var base := if existingIndex >= 0 then videoProgress[existingIndex] else Seed(videoId, programId, now);
      var updated := Overlay(base, videoId, programId, patch);
      if existingIndex >= 0 {
        videoProgress := videoProgress[existingIndex := updated];
      } else {
        videoProgress := videoProgress + [updated];
      }
    }

    /** Mark the pair completed and stamp it, keeping its times. */
    method MarkVideoComplete(videoId: string, programId: string, now: int)
      requires Valid()
      modifies this
      ensures Valid()
      ensures videoProgress == Upsert(old(videoProgress), videoId, programId, CompletionPatch(now), now)
      ensures videoState == old(videoState) && currentVideo == old(currentVideo)
    {
      UpdateVideoProgress(videoId, programId, CompletionPatch(now), now);
    }

    /** Merge a partial update into the player preferences. */
    method UpdateVideoState(patch: StatePatch)
      requires Valid()
      modifies this
      ensures Valid()
      ensures videoState == MergeState(old(videoState), patch)
      ensures videoProgress == old(videoProgress) && currentVideo == old(currentVideo)
    {
      videoState := MergeState(videoState, patch);
    }

    method SetCurrentVideo(video: Option<CurrentVideo>)
      requires Valid()
      modifies this
      ensures Valid()
      ensures currentVideo == video
      ensures videoProgress == old(videoProgress) && videoState == old(videoState)
    {
      currentVideo := video;
    }
  }

  /** A typical session: record a 600-second video at time 0 and then mark
      it complete; the store then reports 600 seconds watched and one
      completed video. */
  lemma WatchThenCompleteScenario(now1: int, now2: int)
    ensures var rs1 := Upsert([], "v1", "p1", ProgressPatch(Some(0), Some(600), None, None), now1);
      var rs2 := Upsert(rs1, "v1", "p1", CompletionPatch(now2), now2);
      TotalWatchTime(rs2) == 600 && GetCompletedVideosCount(rs2) == 1
  {
    var rs1 := Upsert([], "v1", "p1", ProgressPatch(Some(0), Some(600), None, None), now1);
    assert rs1 == [VideoProgress("v1", "p1", 0, 600, false, now1)];
    var rs2 := Upsert(rs1, "v1", "p1", CompletionPatch(now2), now2);
    assert rs2 == [VideoProgress("v1", "p1", 0, 600, true, now2)];
    assert TotalWatchTime(rs2) == TotalWatchTime([]) + 600;
    assert Filter(rs2, IsCompleted) == rs2;
  }
}
