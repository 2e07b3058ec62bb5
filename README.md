# MelodicaLife in Dafny

MelodicaLife is a music visualiser. A browser front end plays YouTube audio and analyses each
frame's frequency spectrum into features: bpm, pitch, volume and the leading bins. Those features
drive a 3D particle system, a few "photon" lifeforms, an ecosystem statistics panel and an
evolution tree. A Node back end asks `yt-dlp` for video, playlist and audio-stream information.

This project models the logic of those components, one Dafny module per source file:

- `AudioAnalyzer` (`audio_analyzer.dfy`) turns one frame of byte-valued bins into `AudioFeatures`.
  It finds the first maximal bin with a loop and converts that bin index into a pitch.
- `Scene3D` (`scene3d.dfy`) is the particle system, a class over three `array<real>` buffers.
  It covers the 50-candidate neighbour search, the pair forces, velocity damping and wall
  reflection, and the connection-line builder. That builder is capped at 500 segments.
- `PhotonLifeEngine` (`photon_life.dfy`) is the `PhotonLife` class. Its methods update fields in
  place: the per-frame update, the pitch colour, the three movement patterns, energy, the
  particle influence and resonance with a neighbour.
- `LifeformManager` (`lifeform_manager.dfy`) is the statistics panel. It is a class whose `stats`
  field is updated by the four handlers. Every handler is specified by one pure transition
  `Step`, so its invariants can be proved over any sequence of events.
- `EvolutionTree` (`evolution_tree.dfy`) is the lifeform tree, node counting, the maximum
  generation and the two buttons.
- `MusicPlayer` (`music_player.dfy`) is the player state:
  - next and previous with wrap-around;
  - shuffle;
  - the track-end decision;
  - preloading and the cache of the next track's audio;
  - `String.prototype.hashCode` with its 32-bit wrap;
  - `formatTime`.
- `YouTubeService` (`youtube_service.dfy`) is the back end service:
  - the video-id and playlist-id regular expressions;
  - `getVideoInfo` and its fallback;
  - `getPlaylistInfo` and its fallback path;
  - `getAudioStream` with its 15-minute file cache;
  - the thumbnail choice.
- `JsNumber`, `JsText` and `Common` hold the JavaScript semantics this code relies on:
  - `Math.floor`, `%` truncating toward zero, `Math.min`/`max`/`abs`/`sign`, and ToInt32;
  - UTF-16 code units;
  - `trim` and its whitespace set, `split`, `includes` and `padStart`;
  - decimal rendering and the shared value types.

Several inputs become parameters of the operations that use them. Each call therefore states its
result for every value:

- `Math.random` samples;
- `Date.now()`;
- the trigonometric terms of the movement formulas;
- `Math.sqrt` in the particle system;
- the output of `yt-dlp`, as a `ToolRun` that either ran with some stdout or crashed with a message;
- the result of `JSON.parse`, as a `parse` function returning an `Option`;
- the result of `fetch`.

`getPlaylistInfo` replaces its title only while it still equals `'Unknown Playlist'`
(backend/src/services/youtubeService.ts:117-119). A truthy `playlist_title` of
`'Unknown Playlist'` therefore does not fix the title: the result is the first truthy
`playlist_title` that differs from `'Unknown Playlist'`. `TitleIsFirst` proves this.

## Model

| member | source | states |
|---|---|---|
| AudioAnalyzer.Sum | frontend/src/components/AudioAnalyzer.tsx:48 | the bin sum lies between 0 and 255 per bin, and it is 0 exactly when every bin is 0 |
| AudioAnalyzer.MeanVolume | frontend/src/components/AudioAnalyzer.tsx:48 | the mean bin value lies in [0, 255] and times the bin count gives back the sum |
| AudioAnalyzer.EstimateBpm | frontend/src/components/AudioAnalyzer.tsx:81-84 | the estimate lies in [60, 180]; it is 120 + (volume - 128)/2 inside that range, 60 for volume ≤ 8 and 180 for volume ≥ 248 |
| AudioAnalyzer.EstimateBpmMonotone | frontend/src/components/AudioAnalyzer.tsx:81-84 | a louder frame never gets a lower bpm estimate |
| AudioAnalyzer.PeakIndex | frontend/src/components/AudioAnalyzer.tsx:52-59 | the loop returns the first index of the maximal bin, with index 0 and value 0 when every bin is 0 |
| AudioAnalyzer.Pitch | frontend/src/components/AudioAnalyzer.tsx:61-65 | the pitch is index · sampleRate / (2 · binCount), replaced by 440 when that is 0; it is always positive |
| AudioAnalyzer.ScaledBins | frontend/src/components/AudioAnalyzer.tsx:49-67 | at most the first 12 bins, each divided by 255 and so in [0, 1] |
| AudioAnalyzer.AnalyzeFrame | frontend/src/components/AudioAnalyzer.tsx:45-68 | bpm is the estimate of the mean volume and volume is the mean as a percentage; pitch is `Pitch` of the returned first-argmax peak (440 when the peak is bin 0 or all bins are 0); frequency is the scaled leading bins |
| LifeformManager.AverageEnergy | frontend/src/components/LifeformManager.tsx:38-43 | (volume + bpm/2)/2 clamped to [0, 100], with each of the three cases stated |
| LifeformManager.DominantColor | frontend/src/components/LifeformManager.tsx:39-44 | `hsl(hue, 70%, 60%)` with hue · 660 = (pitch − 220) · 360 |
| LifeformManager.Step | frontend/src/components/LifeformManager.tsx:36-67 | add raises the count by one only below 10; remove lowers it by one only above 1; both change nothing else; reset restores the initial stats; an audio update keeps count and generations, sets the energy to the clamped average energy and the colour to the pitch colour; the count range [1, 10] is preserved |
| LifeformManager.CountStaysInRange | frontend/src/components/LifeformManager.tsx:48-58 | from any in-range state, every sequence of events keeps 1 ≤ count ≤ 10 |
| LifeformManager.InitialCountInRange | frontend/src/components/LifeformManager.tsx:22-27 | starting from the initial stats, the count stays in [1, 10] after any events |
| LifeformManager.ResetForgets | frontend/src/components/LifeformManager.tsx:60-67 | after a reset, the state depends only on the events that follow it |
| LifeformManager.ExactlyOneFlowLabel | frontend/src/components/LifeformManager.tsx:77-80 | exactly one flow label is shown, and each label appears exactly in its volume band |
| LifeformManager.Manager.constructor | frontend/src/components/LifeformManager.tsx:22-27 | the panel starts with count 3, energy 75, generation 1 and colour `#ffffff` |
| LifeformManager.Manager.AddLifeform | frontend/src/components/LifeformManager.tsx:48-52 | the new stats are the `Add` transition of the old ones |
| LifeformManager.Manager.RemoveLifeform | frontend/src/components/LifeformManager.tsx:54-58 | the new stats are the `Remove` transition of the old ones |
| LifeformManager.Manager.ResetEcosystem | frontend/src/components/LifeformManager.tsx:60-67 | the new stats are the initial stats |
| LifeformManager.Manager.OnAudioFeatures | frontend/src/components/LifeformManager.tsx:36-46 | the new stats are the audio transition of the old ones |
| EvolutionTree.CountNodes | frontend/src/components/EvolutionTree.tsx:209-215 | a node counts at least itself |
| EvolutionTree.CountIsSize | frontend/src/components/EvolutionTree.tsx:209-215 | `countNodes` equals the number of nodes in the tree's preorder listing |
| EvolutionTree.MaxGeneration | frontend/src/components/EvolutionTree.tsx:217-223 | the result is at least the node's own generation |
| EvolutionTree.MaxIsMaximum | frontend/src/components/EvolutionTree.tsx:217-223 | `getMaxGeneration` bounds every generation in the tree and is attained by one of them |
| EvolutionTree.NewLifeform | frontend/src/components/EvolutionTree.tsx:127-138 | the id is `evolution_<now>`, the parent is child1 and the generation is 2; the hue lies in [0, 360), the size in [0.5, 2) and the speed in [0.5, 2.5); the pattern is wave exactly when its sample is > 0.5 |
| EvolutionTree.WithEvolution | frontend/src/components/EvolutionTree.tsx:140-149 | when the root has a first child, the new node is appended to that child's children (created if absent) and nothing else changes; otherwise the tree is unchanged |
| EvolutionTree.AddEvolutionCount | frontend/src/components/EvolutionTree.tsx:140-149 | an evolution adds the new node's count to the root's count, or nothing without a first child |
| EvolutionTree.AddEvolutionMaxGeneration | frontend/src/components/EvolutionTree.tsx:140-149 | after an evolution the maximum generation is the maximum of the old one and the new node's |
| EvolutionTree.ResetTreeData | frontend/src/components/EvolutionTree.tsx:152-159 | the reset tree is one root with no children: count 1, maximum generation 0 |
| EvolutionTree.InitialTree | frontend/src/components/EvolutionTree.tsx:25-48 | the initial tree has a root whose first child is child1, 3 nodes and maximum generation 1 |
| EvolutionTree.FirstEvolution | frontend/src/components/EvolutionTree.tsx:125-150 | for every time and every random sample, one evolution of the initial tree gives 4 nodes and maximum generation 2 |
| EvolutionTree.Panel.constructor | frontend/src/components/EvolutionTree.tsx:25-50 | the panel starts with the initial tree and no selected node |
| EvolutionTree.Panel.AddEvolution | frontend/src/components/EvolutionTree.tsx:125-150 | the tree becomes `WithEvolution` of the old tree and a new lifeform; the selection is kept |
| EvolutionTree.Panel.ResetTree | frontend/src/components/EvolutionTree.tsx:152-160 | the tree becomes the reset tree and the selection is cleared |
| PhotonLifeEngine.InitialTraits | frontend/src/engine/PhotonLife.ts:41-47 | the default traits (config colour, size 1, speed 1, wave), overridden field by field by the configured ones |
| PhotonLifeEngine.BpmFactor | frontend/src/engine/PhotonLife.ts:54 | max(0.1, bpm/120), with both cases stated |
| PhotonLifeEngine.VolumeFactor | frontend/src/engine/PhotonLife.ts:58 | max(0.1, volume/100), with both cases stated |
| PhotonLifeEngine.FrameSpeed | frontend/src/engine/PhotonLife.ts:54-55 | speed · 120 = trait speed · max(12, bpm), and speed ≥ 0.1 · trait speed |
| PhotonLifeEngine.FrameSize | frontend/src/engine/PhotonLife.ts:58-59 | size ≥ 0.92 · trait size, with equality at volume ≤ 10 |
| PhotonLifeEngine.FrameBrightness | frontend/src/engine/PhotonLife.ts:58-60 | brightness ≥ 0.08, and volume/125 once the volume factor exceeds its floor |
| PhotonLifeEngine.Hue | frontend/src/engine/PhotonLife.ts:74-75 | the hue is (pitch − 220)/660 · 360 remaindered toward zero: it lies in (−360, 360), is non-negative from 220 Hz and negative below |
| PhotonLifeEngine.PitchColorBounds | frontend/src/engine/PhotonLife.ts:72-91 | every colour channel lies in [0.5, 1.5] |
| PhotonLifeEngine.LowPitchIsGrey | frontend/src/engine/PhotonLife.ts:74-90 | below 220 Hz the hue is negative, no branch fires and the colour is grey [0.5, 0.5, 0.5] |
| PhotonLifeEngine.HighPitchIsSaturated | frontend/src/engine/PhotonLife.ts:83-90 | from 220 Hz one channel is 1.5 and one is 0.5 |
| PhotonLifeEngine.MovedPosition | frontend/src/engine/PhotonLife.ts:93-128 | wave keeps z; at zero volume, wave keeps base y, spiral keeps base x and z, and the attractor stays at the base; at 440 Hz wave keeps base x |
| PhotonLifeEngine.InfluenceStrength | frontend/src/engine/PhotonLife.ts:139 | the influence lies in [0, energy/10000] |
| PhotonLifeEngine.InfluenceWeakensWithDistance | frontend/src/engine/PhotonLife.ts:139 | the influence never grows with distance |
| PhotonLifeEngine.NextEnergy | frontend/src/engine/PhotonLife.ts:147-155 | energy + music energy − 0.1, capped at 200 and reset to 10 when ≤ 0, with each case stated |
| PhotonLifeEngine.Exchange | frontend/src/engine/PhotonLife.ts:181-183 | the exchange keeps the total energy and shrinks the difference to 0.8 of itself, so both new energies lie between the old ones |
| PhotonLifeEngine.AverageColor | frontend/src/engine/PhotonLife.ts:176-178 | each channel is the mean of the two, between them, and unchanged for equal colours |
| Common.SqDist | frontend/src/engine/PhotonLife.ts:167-171 | the squared distance is non-negative |
| PhotonLifeEngine.PhotonLife.constructor | frontend/src/engine/PhotonLife.ts:36-48 | position, base and colour are fresh copies of the config and the traits are `InitialTraits`; the other fields take their declared defaults |
| PhotonLifeEngine.PhotonLife.Update | frontend/src/engine/PhotonLife.ts:50-70 | time advances by delta; speed, size, brightness, colour, position and energy become the frame's values; traits and generation are kept |
| PhotonLifeEngine.PhotonLife.UpdateColorFromPitch | frontend/src/engine/PhotonLife.ts:72-91 | the colour becomes a fresh `PitchColor(pitch)` and nothing else changes |
| PhotonLifeEngine.PhotonLife.UpdateComplexMovement | frontend/src/engine/PhotonLife.ts:93-128 | the position becomes `MovedPosition` of the pattern, base and old position |
| PhotonLifeEngine.PhotonLife.UpdateEnergy | frontend/src/engine/PhotonLife.ts:147-155 | the energy becomes `NextEnergy`, in (0, 200], and nothing else changes |
| PhotonLifeEngine.PhotonLife.ParticleInfluence | frontend/src/engine/PhotonLife.ts:131-145 | beyond radius 3 the influence is zero; at distance 0 it is undefined (NaN); otherwise each axis is the unit offset times the strength |
| PhotonLifeEngine.PhotonLife.ResonateWith | frontend/src/engine/PhotonLife.ts:174-184 | this colour becomes the average; energies follow `Exchange` (unchanged for self-resonance); every other field of both lifeforms is kept |
| PhotonLifeEngine.PhotonLife.InteractWith | frontend/src/engine/PhotonLife.ts:158-165 | closer than 2 it resonates, with `ResonateWith`'s full contract; otherwise neither lifeform changes |
| Scene3D.InitialPositions | frontend/src/components/Scene3D.tsx:24-32 | every starting coordinate lies in [−10, 10) |
| Scene3D.InitialVelocities | frontend/src/components/Scene3D.tsx:44-52 | every starting velocity component lies in [−0.01, 0.01) |
| Scene3D.ParticleSystem.constructor | frontend/src/components/Scene3D.tsx:23-52 | fresh buffers holding the initial positions, velocities and the random colours |
| Scene3D.RadiusTestMatches | frontend/src/components/Scene3D.tsx:181-183 | `distance < radius` is the squared-distance test the model uses |
| Scene3D.NeighborsUpTo | frontend/src/components/Scene3D.tsx:168-189 | at most one neighbour per checked candidate, all valid indices |
| Scene3D.NeighborsExactly | frontend/src/components/Scene3D.tsx:175-186 | j is returned exactly when it is one of the first k candidates after the index and lies within the radius |
| Scene3D.CandidatesDistinct | frontend/src/components/Scene3D.tsx:177 | the candidates (index + i + 1) mod n are pairwise distinct |
| Scene3D.NoSelfNeighbor | frontend/src/components/Scene3D.tsx:175-177 | with more than 50 particles a particle is never its own neighbour |
| Scene3D.ParticleSystem.FindNearbyParticles | frontend/src/components/Scene3D.tsx:168-189 | the loop's list equals `NeighborsUpTo` over min(50, n) candidates |
| Scene3D.PairForce | frontend/src/components/Scene3D.tsx:109-116 | no force unless 0 < distance < 2 |
| Scene3D.PairForceMagnitude | frontend/src/components/Scene3D.tsx:109-115 | with a true square root, zero distance gives no force; for 0 < d < 2 the force has magnitude 0.001 (repulsion below 1) or 0.0005 (attraction from 1) |
| Scene3D.PairForceDirection | frontend/src/components/Scene3D.tsx:111-115 | each component points against the offset below distance 1 and along it from 1 to 2 |
| Scene3D.GateMatchesDistance | frontend/src/components/Scene3D.tsx:109-112 | the distance gates are equivalent to the squared-distance gates |
| Scene3D.FarPull | frontend/src/components/Scene3D.tsx:111 | a neighbour outside the gate contributes nothing |
| Scene3D.ForceSumStep | frontend/src/components/Scene3D.tsx:104-117 | the force sum over one more neighbour adds that neighbour's pull |
| Scene3D.ForceOfNeighbors | frontend/src/components/Scene3D.tsx:100-117 | the force over the found neighbours is the pull summed over the in-radius candidates |
| Scene3D.FarNeighborsNoForce | frontend/src/components/Scene3D.tsx:104-117 | neighbours all outside the gate give zero force |
| Scene3D.ParticleSystem.NeighborForce | frontend/src/components/Scene3D.tsx:99-117 | the loop's force equals `ForceSum` over the neighbours |
| Scene3D.AxisStep | frontend/src/components/Scene3D.tsx:124-151 | the velocity is updated and damped by 0.99; if the new position passes ±10 it is pinned to the wall and the velocity reversed at 0.8; the position always ends in [−10, 10] |
| Scene3D.Advance | frontend/src/components/Scene3D.tsx:119-161 | one particle's move keeps the buffers well formed |
| Scene3D.AdvanceFrame | frontend/src/components/Scene3D.tsx:119-161 | only the particle's three slots of each buffer change; its position and velocity on each axis are the `AxisStep` of the old ones with that axis's pull and music force, inside the walls; its colour becomes the frame colour |
| Scene3D.ParticleSystem.MoveParticle | frontend/src/components/Scene3D.tsx:119-161 | the buffers become `Advance` of the old ones |
| Scene3D.ParticleSystem.UpdateParticle | frontend/src/components/Scene3D.tsx:91-162 | the buffers become `Step` (neighbours, force, move) of the old ones |
| Scene3D.Steps | frontend/src/components/Scene3D.tsx:91-162 | k loop turns keep the buffers well formed |
| Scene3D.StepsSettle | frontend/src/components/Scene3D.tsx:91-162 | after k turns, the first k particles are inside the walls and carry the frame colour |
| Scene3D.StepsLeaveRest | frontend/src/components/Scene3D.tsx:91-162 | after k turns, the positions, velocities and colours of the particles from k onwards are those of the frame's start |
| Scene3D.AllSettled | frontend/src/components/Scene3D.tsx:91-162 | after a full pass every position lies in [−10, 10] and every colour slot is the frame colour |
| Scene3D.ParticleSystem.UpdateParticleSystem | frontend/src/components/Scene3D.tsx:78-166 | the buffers become `Steps` over all particles |
| Scene3D.RowPairsComplete | frontend/src/components/Scene3D.tsx:266-277 | every connected j in the row window is paired with i |
| Scene3D.RowPairsSound | frontend/src/components/Scene3D.tsx:266-277 | every pair of a row joins i to a later, connected j in the window |
| Scene3D.PairsBeforeSound | frontend/src/components/Scene3D.tsx:260-278 | every pair of the earlier rows is proper: i < j ≤ i + 5, both in range, connected |
| Scene3D.DrawnPairs | frontend/src/components/Scene3D.tsx:255-281 | at most 500 pairs, all proper |
| Scene3D.SegmentsConcat | frontend/src/components/Scene3D.tsx:274 | the segments of joined pair lists are the joined segments |
| Scene3D.DrawnLines | frontend/src/components/Scene3D.tsx:255-281 | the first 3000 coordinates of every row's lines are the segments of the drawn pairs |
| Scene3D.ColumnStep | frontend/src/components/Scene3D.tsx:267-276 | one inner turn appends the six endpoint coordinates exactly when the pair is within 1.5 |
| Scene3D.ConnectPair | frontend/src/components/Scene3D.tsx:266-277 | one inner turn extends the line buffer to the row's lines through j |
| Scene3D.ConnectRow | frontend/src/components/Scene3D.tsx:260-278 | the inner loop extends the buffer to the lines of rows up to i, or stops at the cap on a prefix of all lines |
| Scene3D.ConnectionLines | frontend/src/components/Scene3D.tsx:255-281 | the builder's buffer is exactly the segments of the drawn pairs: the first 500 connections in row order, 6 coordinates each |
| MusicPlayer.Track.constructor | frontend/src/components/MusicPlayer.tsx:30-32 | a track holds its id, title, url and duration, and no audio url yet |
| MusicPlayer.Player.constructor | frontend/src/components/MusicPlayer.tsx:24-49 | the demo playlist of three tracks (180, 240, 200 s), index 0, and every flag off |
| MusicPlayer.NextIndex | frontend/src/components/MusicPlayer.tsx:389 | (i + 1) mod n: index + 1, wrapping from the last track to 0, and NaN for an empty playlist |
| MusicPlayer.PrevIndex | frontend/src/components/MusicPlayer.tsx:401 | the previous index, wrapping from 0 to the last track |
| MusicPlayer.PrevAfterNext | frontend/src/components/MusicPlayer.tsx:382-404 | previous undoes next on any in-range index |
| MusicPlayer.NextAfterPrev | frontend/src/components/MusicPlayer.tsx:382-404 | next undoes previous on any in-range index |
| MusicPlayer.NextCycles | frontend/src/components/MusicPlayer.tsx:389 | s presses of next from track k reach track k + s, and track 0 exactly when k + s = n |
| MusicPlayer.ShuffleIndex | frontend/src/components/MusicPlayer.tsx:387 | floor(random · n) is an in-range index |
| MusicPlayer.Player.HandleNext | frontend/src/components/MusicPlayer.tsx:382-392 | without a playlist nothing moves; otherwise the index becomes the shuffle pick or `NextIndex`; an in-range index stays in range |
| MusicPlayer.Player.HandlePrevious | frontend/src/components/MusicPlayer.tsx:394-404 | without a playlist nothing moves; otherwise the index becomes the shuffle pick or `PrevIndex`; an in-range index stays in range |
| MusicPlayer.TrackEndLoops | frontend/src/components/MusicPlayer.tsx:409-418 | looping with a current track replays the same index |
| MusicPlayer.TrackEndIsNext | frontend/src/components/MusicPlayer.tsx:419-426 | with autoplay, no shuffle and more than one track, the track after the end is `NextIndex` and playback goes on |
| MusicPlayer.TrackEndStops | frontend/src/components/MusicPlayer.tsx:406-503 | playback stops exactly when the loop branch does not apply and there is no playlist, autoplay is off, or the last track ended in a playlist of at most one track |
| MusicPlayer.TrackEndInRange | frontend/src/components/MusicPlayer.tsx:406-503 | the index after a track end stays in range |
| MusicPlayer.Player.HandleTrackEnd | frontend/src/components/MusicPlayer.tsx:406-503 | the index follows the track-end decision, playing stops exactly when it says stop, and the adopted next track takes its cached audio url |
| MusicPlayer.ProxyUrl | frontend/src/components/MusicPlayer.tsx:197 | the proxy prefix followed by the encoded url |
| MusicPlayer.Player.PreloadNextTrack | frontend/src/components/MusicPlayer.tsx:173-211 | skips without a playlist, while preloading, past the end or when already cached; otherwise a fetched url is cached as its proxy url under the next track's id |
| MusicPlayer.Player.LoadTrackAudio | frontend/src/components/MusicPlayer.tsx:213-301 | a cached url is adopted and dropped from the cache; an existing url is kept; otherwise the response sets the proxy url or the error; loading ends |
| MusicPlayer.LoadError | frontend/src/components/MusicPlayer.tsx:260-268 | there is no error exactly when the response is ok and carries a truthy audio url |
| MusicPlayer.HashOf | frontend/src/components/MusicPlayer.tsx:785-793 | the hash is a 32-bit signed integer |
| MusicPlayer.HashIsPolynomial | frontend/src/components/MusicPlayer.tsx:785-793 | the shift-and-subtract loop computes the polynomial Σ 31^k · unit, wrapped to 32 bits |
| MusicPlayer.HashCode | frontend/src/components/MusicPlayer.tsx:785-793 | the loop over UTF-16 code units returns `HashOf`, the wrapped polynomial |
| MusicPlayer.ConvertYouTubeUrl | frontend/src/components/MusicPlayer.tsx:303-313 | the demo track at index abs(hash) rem 3 |
| MusicPlayer.MinutesAndSeconds | frontend/src/components/MusicPlayer.tsx:526-530 | minutes · 60 + seconds = floor(seconds), with seconds in [0, 60) |
| MusicPlayer.TwoDigits | frontend/src/components/MusicPlayer.tsx:529 | padding a value below 100 gives two digits that read back as that value |
| MusicPlayer.FormatTimeReadsBack | frontend/src/components/MusicPlayer.tsx:526-530 | `m:ss` splits into digits whose value gives back floor(seconds) |
| YouTubeService.ThumbnailUrl | backend/src/services/youtubeService.ts:186 | the `mqdefault.jpg` url of the id |
| YouTubeService.ThumbnailIdRecovered | backend/src/services/youtubeService.ts:186 | the id is recovered from between the url's fixed prefix and suffix |
| YouTubeService.ThumbnailUrlInjective | backend/src/services/youtubeService.ts:186 | different ids give different thumbnail urls |
| YouTubeService.IdStartFirst | backend/src/services/youtubeService.ts:279 | the id starts after the first prefix that matches at a position, and there is none when no prefix matches |
| YouTubeService.ScanLeftmost | backend/src/services/youtubeService.ts:278-282 | the scan finds the leftmost position where a prefix and an id character start |
| YouTubeService.RunLength | backend/src/services/youtubeService.ts:279 | the id is the longest run of characters other than `&`, newline, `?` and `#` |
| YouTubeService.ExtractLeftmost | backend/src/services/youtubeService.ts:278-288 | the regex match is absent exactly when no position matches, and otherwise is the leftmost one |
| YouTubeService.ExtractedIdChars | backend/src/services/youtubeService.ts:279 | an extracted id is non-empty and made of id characters |
| YouTubeService.NoPrefixNoVideoId | backend/src/services/youtubeService.ts:279-281 | a url without `youtube.com/watch?v=` or `youtu.be/` has no video id |
| YouTubeService.ListNeedsSeparator | backend/src/services/youtubeService.ts:285-287 | a url without `?list=` or `&list=` has no playlist id |
| YouTubeService.FirstMidSize | backend/src/services/youtubeService.ts:259 | `find` returns the first thumbnail of width 320 to 640, or none |
| YouTubeService.BestThumbnail | backend/src/services/youtubeService.ts:255-265 | the thumbnail field if truthy; else the first mid-size thumbnail or the middle one; else the default url of the page's id |
| YouTubeService.FallbackVideoInfo | backend/src/services/youtubeService.ts:267-276 | the id or `unknown`, the title `YouTube Video <id>`, 180 s and the default thumbnail |
| YouTubeService.DurationOr180 | backend/src/services/youtubeService.ts:71 | floor(duration), or 180 when that is 0 or absent |
| YouTubeService.GetVideoInfo | backend/src/services/youtubeService.ts:41-79 | an invalid url, a crash, blank stdout or bad JSON gives the fallback; otherwise the title is title, else fulltitle, else `Video <id>`, with duration and thumbnail as above |
| YouTubeService.EntryVideo | backend/src/services/youtubeService.ts:122-129 | a video entry keeps its id and title; the duration is parsed or 0; the thumbnail is the entry's or the default |
| YouTubeService.TitleIsFirst | backend/src/services/youtubeService.ts:108-119 | the loop's title is the first truthy title that is not `Unknown Playlist` |
| YouTubeService.FirstTitleAppend | backend/src/services/youtubeService.ts:117-119 | one more entry changes the title only while it is still `Unknown Playlist` |
| YouTubeService.FilterKeeps | backend/src/services/youtubeService.ts:105 | the filter keeps only accepted elements and, when all are accepted, everything |
| YouTubeService.ListingLines | backend/src/services/youtubeService.ts:105 | every listing line kept has non-blank text |
| YouTubeService.VideosAreKeptEntries | backend/src/services/youtubeService.ts:121-130 | the videos are exactly the video entries, in order, converted by `EntryVideo` |
| YouTubeService.ParseListing | backend/src/services/youtubeService.ts:112-134 | the loop returns the first-title rule and the video entries over the parsed lines |
| YouTubeService.Take | backend/src/services/youtubeService.ts:142 | `slice(0, 50)`: a prefix of at most 50 |
| YouTubeService.GetPlaylistInfo | backend/src/services/youtubeService.ts:81-156 | a listing gives id, first title and the first 50 videos; an invalid url, crash or blank stdout falls back, and if that fails too the error names the first failure |
| YouTubeService.PairVideosShape | backend/src/services/youtubeService.ts:173-190 | every fallback video has an 11-unit id, a non-empty title, 180 s and the default thumbnail; there is at most one per two lines |
| YouTubeService.PairAt | backend/src/services/youtubeService.ts:178-189 | one id/title pair yields a video exactly when both are non-empty and the id has 11 UTF-16 units |
| YouTubeService.FallbackVideos | backend/src/services/youtubeService.ts:173-190 | the stepping-by-two loop returns `PairVideos` of the lines |
| YouTubeService.FallbackPlaylistInfo | backend/src/services/youtubeService.ts:159-197 | an invalid url or a crash is an error; otherwise the title is `Playlist <id>` and every video has the fallback shape |
| YouTubeService.GetFallbackPlaylistInfo | backend/src/services/youtubeService.ts:159-197 | the method returns `FallbackPlaylistInfo` |
| YouTubeService.FirstLine | backend/src/services/youtubeService.ts:230 | the first line of the trimmed output holds no newline |
| YouTubeService.GetAudioStream | backend/src/services/youtubeService.ts:199-253 | an invalid url is an error; a fresh cache entry is returned unsaved; otherwise the first output line is accepted exactly when non-empty, free of `ERROR` and starting with `http`, and it is then saved |
| YouTubeService.CacheReuse | backend/src/services/youtubeService.ts:207-214 | a saved url is reused while under 15 minutes old; afterwards the request behaves as if nothing were cached |
| JsNumber.Floor | frontend/src/components/MusicPlayer.tsx:527 | `Math.floor`: the greatest integer not above x |
| JsNumber.Rem | frontend/src/components/MusicPlayer.tsx:528 | JavaScript `%`: the sign follows the dividend, the remainder is below the divisor, and the quotient truncates toward zero |
| JsNumber.IntRem | frontend/src/components/MusicPlayer.tsx:311 | integer `%`: Euclidean for non-negatives, within (−b, 0] for negatives, and always congruent to the dividend modulo b |
| JsNumber.Min | frontend/src/components/AudioAnalyzer.tsx:83 | `Math.min` is one of its arguments and below both |
| JsNumber.Max | frontend/src/components/AudioAnalyzer.tsx:83 | `Math.max` is one of its arguments and above both |
| JsNumber.Abs | frontend/src/components/Scene3D.tsx:140 | `Math.abs` is ±a and non-negative |
| JsNumber.Sign | frontend/src/components/Scene3D.tsx:142 | `Math.sign` is 1, −1 or 0 by the sign of a |
| JsNumber.ToInt32 | frontend/src/components/MusicPlayer.tsx:789-790 | ToInt32 is in the signed 32-bit range, congruent mod 2^32, and the identity on that range |
| JsNumber.ToInt32Congruent | frontend/src/components/MusicPlayer.tsx:789-790 | congruent inputs wrap to the same 32-bit value |
| JsText.CodeUnits | frontend/src/components/MusicPlayer.tsx:787-788 | the UTF-16 units of a string are at least as many as its characters, each below 2^16 |
| JsText.BmpLength | backend/src/services/youtubeService.ts:181 | for characters in the basic plane, `length` is the character count |
| JsText.TrimSlice | backend/src/services/youtubeService.ts:105 | `trim` returns a slice with only whitespace cut from both ends |
| JsText.TrimEnds | backend/src/services/youtubeService.ts:105 | a trimmed string is empty or starts and ends with non-whitespace |
| JsText.TrimIdempotent | backend/src/services/youtubeService.ts:105 | trimming twice equals trimming once |
| JsText.Includes | backend/src/services/youtubeService.ts:232 | `includes` holds exactly when the text occurs at some position |
| JsText.Split | backend/src/services/youtubeService.ts:105 | `split` gives at least one piece, none containing the separator |
| JsText.JoinSplit | backend/src/services/youtubeService.ts:105 | joining the pieces of a split gives back the string |
| JsText.SplitJoin | backend/src/services/youtubeService.ts:105 | splitting a join of separator-free pieces gives back the pieces |
| JsText.FirstPiece | backend/src/services/youtubeService.ts:230 | `split(...)[0]` is everything before the first separator |
| JsText.NatToString | frontend/src/components/EvolutionTree.tsx:128 | decimal digits without a leading zero, one digit exactly below 10 |
| JsText.ParseNatToString | frontend/src/components/EvolutionTree.tsx:128 | decimal rendering reads back as the number |
| JsText.IntToString | frontend/src/components/MusicPlayer.tsx:529 | a minus sign before the digits of negatives |
| JsText.IntToStringReadsBack | frontend/src/components/MusicPlayer.tsx:529 | the rendering starts with '-' exactly for negatives, and the digits after it read back as the magnitude |
| JsText.PadStart | frontend/src/components/MusicPlayer.tsx:529 | `padStart` keeps the string as a suffix and fills the front up to the width with the pad |

## Left out

- Every number is an exact `real`. The source keeps positions, velocities and colours in `Float32Array`s (frontend/src/components/Scene3D.tsx:25,35,45). So each `+=` and `*=` at lines 125-150 rounds to float32, and so does the line buffer (line 280). The model has no rounding, no NaN and no infinities.
- `addEvolution` copies the previous tree shallowly and then mutates its nested first child (frontend/src/components/EvolutionTree.tsx:141-146). The old state object therefore changes too. `WithEvolution` builds a new value and leaves the old tree intact.
- NewLifeform: `Date.now()` is read twice, for the id and the birth time (frontend/src/components/EvolutionTree.tsx:128,137). The model takes one `now` for both, so the two values are equal here, whereas in the source they may differ by a millisecond.
- InitialTree: the three `Date.now()` reads for the birth times of root, child1 and child2 (frontend/src/components/EvolutionTree.tsx:29,36,42) are one `now` here, so the children are born exactly 1000 and 2000 ms after the root, whereas in the source the reads may differ.
- Scene3D.PairForce: `Math.sqrt` is a parameter `sqrt`, unconstrained in the force definitions. Only `PairForceMagnitude` assumes it is a true square root. The radius tests are stated over squared distances and `RadiusTestMatches` relates the two.
- The trigonometric terms of PhotonLife movement and of the particle music force are parameters (`TrigSamples`, `Frame`). So are `Date.now()`, the three-js `Color.setHSL` conversion and every `Math.random` sample. Their values are not computed.
- `JSON.parse` and `parseInt` are a `parse` parameter returning an `Option`, with `Option` fields for absent JSON properties. Malformed JSON is `None`.
- YouTubeService.GetAudioStream: a corrupt cache file makes the `JSON.parse` at backend/src/services/youtubeService.ts:209 throw, leading to the "Audio stream unavailable" error. `cached: Option<CacheEntry>` has no such case. A failure to write the cache (lines 239-246) is not modelled either; the source only logs it.
- PhotonLifeEngine.InitialTraits: `...config.traits` copies an explicitly `undefined` field over the default (frontend/src/engine/PhotonLife.ts:46). The model's optional fields cannot hold `undefined`, so such a field keeps its default.
- MusicPlayer: the caches are plain objects used as maps. Prototype keys such as `constructor` are truthy there, whereas the Dafny `map` has no such keys.
- Scene3D.ConnectionLines: `useMemo` computes the lines once, when the component mounts. The model computes them from the positions passed in and does not model when React recomputes.
- MusicPlayer.Player.HandleTrackEnd: the `setTimeout` delays, the `play()` promises and their failures are left out. Only the decision and the index and cache updates are kept. The React effect that loads audio and sets `currentTrack` when the index changes is also left out.
- I/O is left out: `execAsync`, `fs`, `fetch`, `encodeURIComponent` (its result is the `encoded` parameter of `ProxyUrl`), the audio element, the Web Audio API, async scheduling and callbacks, logging, D3 rendering, and the React components' JSX.
- YouTubeService.BestThumbnail: `|| thumbnails[0]` (backend/src/services/youtubeService.ts:261) cannot be reached, because the middle element of a non-empty list always exists. The model has no such branch.
- PhotonLifeEngine.PhotonLife.ParticleInfluence: at distance 0 the source divides 0 by 0 and returns NaN components. The model returns `None`. The distance is taken as a parameter whose square is the squared distance.
- AudioAnalyzer.AnalyzeFrame: it requires at least one bin. The analyser's `frequencyBinCount` is always at least 16, so the source never meets an empty frame.
- LifeformManager.Manager.AddLifeform: the source tests `stats.count` from the render's closure and then updates the newest state. With two clicks in one render the bound can be passed. The model reads and updates the same current state.
- Common.SqDist: it promises only a non-negative result. It does not state that 0 means equal positions.
