# lflmonitor controller core, modelled in Dafny

lflmonitor is a Raspberry Pi home-automation controller. A door switch triggers a
"door routine" (door song, camera snapshots, a closing light cue), and a web front end
starts shows, playlists and LED animations. `app.py` is mostly Flask routes and hardware
glue. This project models its self-contained sequential logic and proves what that logic
promises:

- **Door guard** (`DoorGuard`): the cached `doorRunning` latch (`Door`, with `start`,
  `stop` and the check-and-set `canIRun`) and the skeleton of `doorRoutine`: acquire, the
  `doorLightsOn` frames of the monitoring loop, the closing light cue, and release, or no
  release when a snapshot raises.
- **Log-file keys** (`PathPattern`, `LogFiles`): the `rePath` search, with Python's
  leftmost-start and greedy-backtracking semantics, proved equal to a declarative
  definition of the match `re.search` reports. On top of it sit `XMLFile` construction
  with its two ways of raising, the comparison operators on (`shortDateOrder[unit]`,
  count), and the order `xmlFiles.sort()` produces.
- **Brightness** (`Brightness`, `Animation`): the 0..255 clamp of `led_setbrightness` and
  the quantised ramp of the animation loops, on integers. The `rainbow` and `colorrotate`
  loops are methods on an LED strip object. They consume a trace of elapsed-time
  readings and record every frame pushed to the driver.
- **`grouper`** (`Grouping`): chunking into padded n-tuples.
- **`allowed_musicfile`** (`MusicFiles`): the extension whitelist. The extension set is a
  parameter.
- **Playlist sequencer** (`Playlist`): `startShow`, `startPlayList`, `stopPlayList` and
  `playListNext` as a class. Its state is the `playListRunning` flag, the current song
  (as an index into the playlist), whether `playListNext` is registered as the running
  show's continuation, and the list of songs started so far.

All files are verified together: `dafny verify *.dfy`.

The code's wrap branch and its evident intent disagree. The comment at app.py:354 and
the callback passed at app.py:360 say the playlist should go round again. But the
module-level `startShow` ignores its callback, so the chain ends after one wrap, while
`playListRunning` stays True. The model follows the code, and records the difference
under "Findings".

## Model

| member | source | states |
|---|---|---|
| DoorGuard.Door.constructor | app.py:145-147 | a new guard has the flag cleared |
| DoorGuard.Door.Start | app.py:149-150 | start leaves the flag set |
| DoorGuard.Door.Stop | app.py:152-153 | stop leaves the flag cleared |
| DoorGuard.Door.CanIRun | app.py:155-160 | granted exactly when the flag was clear; afterwards the flag is set either way, so a refused call changes nothing |
| DoorGuard.DoorLightsOn | app.py:318-322 | with the door open, the strip goes to full brightness, lit, and pushes one frame; with it closed nothing changes |
| DoorGuard.LightsOnFrames | app.py:318-322 | every frame a series of `doorLightsOn` calls pushes is lit at 255; there are none exactly when no call saw the door open |
| DoorGuard.Monitor | app.py:301-307 | the `doorLightsOn` calls of the monitoring loop push exactly their frames; the strip ends lit at 255 if any call saw the door open, and is otherwise unchanged |
| DoorGuard.DoorRoutine | app.py:290-315 | the routine runs exactly when the guard was free, and starts the door song only if no show is running. An accepted routine pushes the monitoring loop's `doorLightsOn` frames. If no snapshot raises, it then pushes the two-second closing fade-out `colorrotate(2, True, True)`, leaves the strip dark at the fade's last level and releases the guard. If a snapshot raises, it stops after the monitoring frames and the guard stays set. A refused routine touches neither the strip nor the guard |
| DoorGuard.DoorRoutineReleasing | app.py:290-315 | the routine with its release in a `finally` clause: the same frames, and the guard ends as it began on every path |
| DoorGuard.LeakedGuard | app.py:301-315 | after a routine whose snapshot raised, the routine of the next door edge is refused (with the latch as a plain flag; the cache entry's expiry, left out below, would end the refusal) |
| DoorGuard.ReleasedGuard | app.py:290-315 | with the release in a `finally` clause, the next door edge runs its routine even after a raised snapshot |
| DoorGuard.SecondEdgeIgnored | app.py:285-292 | a second door edge while the first routine holds the guard is refused; after release, a new edge is granted |
| PathPattern.MatchAt | app.py:94 | the pattern tried at one start position alone: the longest digit-free run, then the longest digit run, when a unit letter follows; else an empty group 1 just before the last unit letter of the digit-free run; else no match. A reported match starts there and satisfies the pattern |
| PathPattern.SearchFrom | app.py:94 | the first start position at or after p where the pattern matches, with that position's match; a reported match starts at or after p and satisfies the pattern |
| PathPattern.Search | app.py:102 | `rePath.search(path)`: the search from position 0; a reported match satisfies the pattern |
| PathPattern.MatchAtCorrect | app.py:94 | at one start position, the backtracking result is the match with the longest `[^0-9]*` and then the longest `[0-9]*`; no result means the pattern cannot match there |
| PathPattern.SearchFromCorrect | app.py:94 | searching from p reports the leftmost matching start at or after p, with the preferred groups; no result means no start at or after p matches |
| PathPattern.SearchCorrect | app.py:102 | `rePath.search` reports exactly the leftmost, preferred match, and reports nothing exactly when the pattern matches nowhere |
| PathPattern.LeftmostMatchUnique | app.py:102 | the match `search` reports is unique |
| LogFiles.ParseLogFile | app.py:99-104 | construction succeeds exactly when the search finds a match whose group 1 is non-empty; a missing match is the `match.group` error |
| LogFiles.ParseLogFileCorrect | app.py:102-104 | fails with NoMatch exactly when the pattern matches nowhere; otherwise, for the leftmost preferred match, an empty digit group fails at `int("")` and a non-empty one gives the unit after it and the decimal value of the digits |
| LogFiles.DecimalValue | app.py:104 | `int(match.group(1))` on a run of decimal digits, most significant first; a run of k digits gives a value below 10^k |
| LogFiles.DecimalRoundTrip | app.py:104 | `int` of the decimal digits of a count is that count |
| LogFiles.ParseAfterDigitFreePrefix | app.py:94-104 | a path with a digit-free directory, then a count and a unit letter, parses to that unit and count, whatever follows |
| LogFiles.SearchOfRuns | app.py:94 | a digit-free run, a non-empty digit run and a unit letter at the start of a path: the search matches at 0 and takes both runs whole |
| LogFiles.StrayDigitsFail | app.py:94-104 | a digit-free part holding a unit letter, then digits, then a character that is neither, makes construction fail at `int("")`; this covers a digit in the log directory's name |
| LogFiles.NoUnitNoMatch | app.py:102-103 | a path without any of `smhdwMy` fails at `match.group` |
| LogFiles.Rank | app.py:72-80 | `shortDateOrder[unit]`, read from the `ShortDateOrder` map s:1, m:2, h:3, d:4, w:5, M:6, y:7; every rank is in 1..7 |
| LogFiles.Eq | app.py:110-113 | `__eq__`: the (rank, count) pairs are equal |
| LogFiles.Ge | app.py:115-118 | `__ge__` as written: componentwise, rank and count both no smaller |
| LogFiles.Gt | app.py:120-127 | `__gt__`: lexicographic on (rank, count) |
| LogFiles.Le | app.py:129-132 | `__le__` as written: componentwise, rank and count both no larger |
| LogFiles.Lt | app.py:134-141 | `__lt__`: lexicographic on (rank, count) |
| LogFiles.ShortDateOrderRanks | app.py:72-80 | the keys of `shortDateOrder` are exactly the unit letters; ranks run s < m < h < d < w < M < y, lie in 1..7, and no two units share one |
| LogFiles.EqIsKeyEquality | app.py:110-113 | `__eq__` holds exactly when the unit letters and counts are equal |
| LogFiles.Trichotomy | app.py:110-141 | exactly one of <, ==, > holds, and > is the converse of < |
| LogFiles.LtStrictOrder | app.py:134-141 | < is irreflexive and transitive |
| LogFiles.LeGeAsWritten | app.py:115-132 | the componentwise <= holds only where < or == does, >= only where > or == does, and x <= y is y >= x |
| LogFiles.LtDoesNotImplyLe | app.py:129-141 | a log keyed 1h is < one keyed 0d, yet <= between them is False |
| LogFiles.LeIntendedTotalPreorder | app.py:97 | "< or ==" is reflexive, total and transitive, and equals "not >", the relation sort relies on |
| LogFiles.SortedMeansKeyOrder | app.py:500 | in a list sorted with `__lt__`, units never go down the s..y scale, and within one unit the counts never decrease |
| Brightness.Clamp | app.py:200-206 | the stored brightness lies in 0..255 and equals the argument whenever that is in range |
| Brightness.ClampNearest | app.py:200-204 | the clamped value is the value in 0..255 nearest to the argument |
| Brightness.ClampMonotoneIdempotent | app.py:200-204 | clamping keeps order and clamping twice is clamping once |
| Brightness.RampStep | app.py:231 | step = ceil(10 t / T): the least step with step * T >= 10 t |
| Brightness.RampStepRange | app.py:223-231 | inside the loop (t < T) the step is in 0..10; it is 0 exactly at t = 0 and 10 exactly in the last tenth of the duration |
| Brightness.RampStepMonotone | app.py:231 | the step never decreases as elapsed time grows |
| Brightness.RampLevel | app.py:231-236 | the pushed value lies in 0..255; it is 0 exactly at the dark end of the ramp and 255 exactly at the bright end, inverted when decreasing |
| Brightness.RampLevelMonotone | app.py:233-236 | the rising ramp grows with the step; the inverted one shrinks and mirrors it |
| Brightness.FrameLevel | app.py:231-236 | the brightness of a frame at elapsed time t lies in 0..255 |
| Brightness.FrameLevelProperties | app.py:254-263 | a fade-in never decreases and starts at 0; a fade-out never increases and starts at 255; each reaches its far end exactly in the last tenth of the duration; `led_setbrightness`'s clamp leaves the value unchanged |
| Animation.LedStrip.PushToDriver | app.py:207 | `push_to_driver` appends the strip's current brightness and on/off state as one frame, and changes nothing else |
| Animation.LedStrip.SetBrightness | app.py:200-207 | `led_setbrightness` stores the clamped value and pushes one frame with it |
| Animation.LedStrip.Clear | app.py:210-212 | `led_clear` turns all pixels off and pushes one dark frame |
| Animation.FramesBefore | app.py:223 | the loop renders the readings before the first one at or past the duration |
| Animation.LevelsMonotone | app.py:231-241 | with a clock that never runs backwards, the frames of a fade-in never get darker and those of a fade-out never get brighter |
| Animation.Rainbow | app.py:215-244 | one lit frame per reading taken before `runSeconds` (readings in milliseconds, so before `runSeconds * 1000`), at the ramp's brightness, then the optional clear; with a non-positive duration only the optional clear happens |
| Animation.ShowColorFrame | app.py:263-267 | one `colorrotate` iteration: a frame from `led_setbrightness` at the ramp level while the pixels stay as they were, then a lit frame at that level after the fill |
| Animation.ColorRotate | app.py:247-273 | per reading before `runSeconds` seconds (`runSeconds * 1000` milliseconds), two frames at the ramp's brightness (one from `led_setbrightness`, one after the fill), then the optional clear; with a non-positive duration only the optional clear happens |
| Grouping.Grouper | app.py:179-181 | ceil(len(xs) / n) tuples, each of length n; none when n = 0 |
| Grouping.GrouperFlatten | app.py:179-181 | joined up, the tuples are the input followed by exactly n * ceil(len(xs) / n) - len(xs) copies of the fill value, fewer than n |
| Grouping.GrouperAt | app.py:179-181 | element j of tuple i is input element i*n + j, or the fill value past the end |
| MusicFiles.LastDot | app.py:370 | `rsplit('.', 1)` cuts at a '.' with no '.' after it; there is no cut exactly when the name has no '.' |
| MusicFiles.AllowedMusicFile | app.py:369-370 | `allowed_musicfile`: a '.' in the name, and the text after the last '.', lower-cased, in the extension set; an allowed name has a '.' followed by an allowed extension |
| MusicFiles.AllowedMusicFileIff | app.py:369-370 | a name is allowed exactly when it has a last '.' and the lower-cased text after that '.' is in the extension set |
| MusicFiles.AllowedByExtension | app.py:369-370 | `base + "." + ext`, with no '.' in ext, is allowed exactly when lower-cased ext is in the set, whatever the base |
| MusicFiles.NoDotNotAllowed | app.py:370 | a name without '.' is never allowed |
| Playlist.NextIndex | app.py:353 | `getNext` (in MusicInfo) gives a song of the playlist; here it is the index after the current one, when there is one |
| Playlist.Sequencer.constructor | app.py:91 | it starts with the playlist not running, no current song, no continuation and nothing started |
| Playlist.Sequencer.ShowStart | app.py:342 | `show.startShow(path, callback)`: records the song as current and started, and whether the continuation `playListNext` was passed |
| Playlist.Sequencer.StartShow | app.py:325-329 | the module-level `startShow` sets the current song and starts it with no continuation, whatever callback it is passed |
| Playlist.Sequencer.StartPlayList | app.py:337-342 | a no-op when running; otherwise it sets the flag and starts song 0 with `playListNext` as continuation; on an empty playlist the flag is set and `playList[0]` raises |
| Playlist.Sequencer.StopPlayList | app.py:345-347 | it clears the flag and leaves current song, continuation and started songs alone |
| Playlist.Sequencer.PlayListNext | app.py:350-360 | a no-op when not running; otherwise it starts the next song with the continuation; after the last song it starts song 0 with no continuation, and the flag stays set |
| Playlist.Sequencer.PlayListNextLooping | app.py:354-360 | the intended advance: the next song modulo the playlist length, always with the continuation |
| Playlist.TwoSongPlaylist | app.py:337-360 | playlist [song1, song2] as written plays song1, song2, song1; then no continuation is registered, while the playlist still counts as running |
| Playlist.TwoSongPlaylistLooping | app.py:354-360 | with the intended wrap the same playlist plays song1, song2, song1, song2 and stays chained |
| Playlist.StopThenNext | app.py:345-353 | once the playlist is stopped, the pending continuation starts nothing |

## Findings

| source | as written | input that shows it | evidently intended | confidence | as-written member | corrected member |
|---|---|---|---|---|---|---|
| app.py:115-118, app.py:129-132 | `__le__`/`__ge__` compare rank and count componentwise, although the class is `@total_ordering` and `__lt__`/`__gt__` are lexicographic | a log keyed 1h and one keyed 0d: 1h < 0d holds but 1h <= 0d is False | x <= y exactly when x < y or x == y | medium, not executed | LogFiles.LtDoesNotImplyLe | LogFiles.LeIntendedTotalPreorder |
| app.py:292-315 | `door.stop()` is the last statement of `doorRoutine`, with no `try`/`finally`, so an exception from a snapshot (`picamera.PiCamera()` when the camera is absent or in use by the picture route) ends the thread with the guard still set | a door edge whose routine's `takepicture` raises, then any later door edge: every later routine is refused until the `doorRunning` cache entry expires after `CACHE_DEFAULT_TIMEOUT` seconds (app.py:61; the value comes from app.cfg, which is not part of this model), and never if that timeout is 0 | the guard is released on every path out of the routine | medium, not executed | DoorGuard.LeakedGuard | DoorGuard.DoorRoutineReleasing |
| app.py:358-360 | the wrap branch restarts the first song through the module-level `startShow`, which drops the `playListNext` callback | playlist [song1, song2]: song1, song2, song1, then playback stops with `playListRunning` still True | the first song restarts with `playListNext` as continuation, and the playlist loops until stopped | medium, not executed | Playlist.TwoSongPlaylist | Playlist.Sequencer.PlayListNextLooping |

The sorted-order statement (`LogFiles.SortedMeansKeyOrder`) is phrased with the corrected
<= (`LogFiles.LeIntended`). `Playlist.TwoSongPlaylistLooping` runs the corrected advance.

## Left out

- Flask routes, authentication, user and role creation, upload handling, pagination and templates (app.py:166-176, 373-570): web plumbing. Only the `grouper` and `allowed_musicfile` helpers are kept.
- GPIO, the SPI LED driver, picamera, the I2C ADC, rrdtool and the `amixer` subprocess (`voltageLogger`, `takepicture`, the `GPIO.input` read of `doorLightsOn` (a `doorOpen` parameter here), `setVolume`, app.py:184-197, 276-282, 318-322, 363-366, 572-605): hardware and I/O.
- Threads: spawning routines and animations, `stopShow`'s `showThread._stop()`, and the race between the get and the set in `Door.canIRun` (app.py:285-287, 332-334, 535-538). The model is sequential.
- Flask-Caching expiry: the model keeps `doorRunning` as a plain boolean, so a cache entry that times out after `CACHE_DEFAULT_TIMEOUT` seconds (app.py:61) and reads back as None, which `canIRun` then grants, is not represented.
- The timing of the monitoring part of `doorRoutine` (app.py:298-313): the 300-second bound, the sleeps, the `GPIO.input` polls, the `show.isRunning()` test of each iteration and the snapshots themselves depend on time and I/O. So does the GPIO debounce (`bouncetime=1000`). The loop is modelled only through the door readings its `doorLightsOn` calls see, and a snapshot only through whether it raises.
- Show and MusicInfo are not part of this model. Their internals (`show.startShow`, `isRunning`, `setCurrentSong` by name, `getNext`, `updatePlayList`, `MUSIC_EXTENSIONS`) are reduced to the sequencer's fields, or to parameters.
- Pixel colours: per-pixel hues from `time.time()` with the 22.5 degree spacing, and `fillHSV`/`fillRGB` colours (app.py:224-229, 260-265). A frame records only brightness and whether the strip is dark.
- The `NotImplemented` result of the comparison operators for an operand without `shortDate` and `dateCount` (app.py:106-141): the model compares log files only.
- `urllib.parse.quote` for `quotepath` (app.py:101): a library call.
- `list.sort` itself (app.py:500): a library algorithm. The model states the order it relies on and what a sorted list then satisfies.
- Brightness.FrameLevel: uses exact integer arithmetic, not the source's floating point, which differs at some steps. For example, a fade-out at step 8 gives int((1 - 0.8) * 255) = 50 in floating point but 51 here, and (0.7 / 1) * 10 rounds up to step 8.
- Animation.Rainbow: the clock is a finite trace of non-negative elapsed times in whole milliseconds, where the source subtracts two readings of the naive local clock `datetime.datetime.now()` as float seconds. A clock set back (say at the end of daylight saving time) gives negative readings, which the model does not admit. The source's loop then runs past `runSeconds` of real time, and its ramp leaves 0..255: a fade-out at t = -runSeconds computes 1 - (-1) = 2, so 510. bibliopixel's `set_brightness` is taken to store its argument as it is, which matters only for such values, since every ramp value of a non-negative reading is in 0..255. Readings are the source's elapsed seconds times 1000 rounded up to a whole millisecond. That gives the source's ramp step at every reading, since ceil(ceil(x) / m) = ceil(x / m). But a reading within the last millisecond before `runSeconds` ends the model's loop, where the source pushes one more frame. If the trace ends before the duration passes, the loop stops there.
- Animation.ColorRotate: the clock is the same non-negative, rounded-up millisecond trace as for Rainbow. With a clock set back, the source's loop outlasts `runSeconds`, and `led_setbrightness`'s clamp pins its level at 0 or 255.
- DoorGuard.DoorRoutine: an exception from `colorrotate` or from `GPIO.input` partway through is not modelled. Only a raise before the closing cue is (`snapshotRaised`), which likewise leaves the guard set. Which iterations call `doorLightsOn` (those where `show.isRunning()` is false) is given as input rather than derived from the show.
- MusicFiles.AllowedMusicFileIff: `str.lower()` is modelled on ASCII letters only.
- Grouping.Grouper: `zip_longest` yields its tuples lazily. The model returns them all as one sequence.
