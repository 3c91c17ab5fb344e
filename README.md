# term-seq: a Dafny model of the sequencer core

term-seq is a terminal step sequencer. Each track holds a pattern of notes
and a cursor. Every time a track's beat comes due, the cursor moves one step,
wrapping at the end of the pattern. The note under the cursor is then played
through the track's note scale, which submits one sound to the audio player's
command channel.

This project models the note type, tracks and the sample bank, and proves
properties about each. It is split into these files:

- `note.dfy` (module `Notes`): the seven notes C, D, E, F, G, A, B. It covers
  their one-letter names, the parser with its `UnknownNote` error and that
  error's message, the canonical list `List`, and the two display forms.
- `track.dfy` (module `Tracks`): building a track from note names, and printing
  it back as names. Also the builder-style setters, `should_beat`, `beat` and
  `restart`. `Track` is a class because `beat` and `restart` update its fields
  in place. The clock is an integer `now` passed to the operations that read it.
- `filescale.dfy` (module `FileScales`): the sample bank. `FromFiles` builds
  the note-to-sound map by looping over `List` and stops at the first failure.
  `PlayNote` looks up a sound and submits it.
- `notescale.dfy` (module `NoteScales`): the note-scale interface a track plays
  through. It is a closed union of its two implementations. `Files` is a sample
  bank. `Synthesized` stands for the sine scale, as a total note-to-sound
  function.
- `player.dfy` (module `Player`): only the sending end of the player's channel.
  The channel accepts a command while its receiver is alive and fails otherwise.
- `wrappers.dfy` (module `Wrappers`): `Result` and `Outcome` in place of Rust's
  `Result`.

Sounds, opened files and load errors are type parameters (`S`, `F`, `E`). The
filename formatter, `File::open` and the decoder are function values gathered in
a `FileScales.Loader`.

Two behaviours of the code worth stating:

- An empty list of tokens builds a track, because `try_from` accepts an empty
  slice (src/track.rs:24-29). `Beat` therefore requires a non-empty pattern,
  since the source computes `% 0` on an empty one.
- `restart` assigns only the cursor (src/track.rs:67-69). It leaves the tempo,
  the scale and the last-beat time alone.

Two facts the source relies on without checking become explicit here:

- `Track`'s invariant keeps the cursor inside the pattern. Hence `current + 1`
  in `beat` can never overflow `usize`, and integers are unbounded here.
- A scale bound to a track is valid. For a sample bank, valid means it was
  built by `FromFiles`, so it has a sound for every note. The Rust type has a
  private map, so no other bank can exist.

## Model

| member | source | states |
|---|---|---|
| `Notes.ToStr` | src/note.rs:40-52 | every note's name is exactly one character and is one of the seven accepted letters |
| `Notes.Parse` | src/note.rs:54-68 | parsing succeeds exactly on the seven letters. A success prints back to the input. Any other string, "" and "H" included, fails with `UnknownNote` carrying exactly the input, and no note prints as it |
| `Notes.ParseToStr` | src/note.rs:40-67 | parsing a note's name gives back that note |
| `Notes.ToStrInjective` | src/note.rs:42-50 | two notes with the same name are the same note |
| `Notes.Display` | src/note.rs:70-74 | `Display` writes a string that parses back to the note, so it is exactly the note's name |
| `Notes.DisplayStr` | src/note.rs:76-80 | the template formatter's rendering of a note also parses back to the note, so it too is exactly the note's name |
| `Notes.Message` | src/note.rs:9-13 | the error message is the fixed prefix `The provided string '`, then the rejected input, then the suffix `' is unknown` |
| `Notes.MessageInjective` | src/note.rs:9-13 | two errors with the same message carry the same input |
| `Notes.IndexOf` | src/note.rs:29-37 | every note occurs in `LIST`, at a position below its length |
| `Notes.ListDistinct` | src/note.rs:29-37 | no note occurs twice in `LIST` |
| `Notes.ListEnumeratesNotes` | src/note.rs:29-37 | `LIST` has seven entries and each note occurs in it exactly once |
| `Notes.AllNotesCount` | src/note.rs:17-37 | the enumeration has exactly seven values, as many as `LIST` has entries |
| `Player.AudioPlayerInterface.constructor` | src/player.rs:39-46 | a new sender has an empty channel and a live receiver |
| `Player.AudioPlayerInterface.PlaySound` | src/player.rs:74-76 | a send succeeds exactly when the receiver is alive. It then appends one `Play` command with the given sound; otherwise the channel is unchanged |
| `FileScales.TemplateVars` | src/filescale.rs:24 | the template is formatted with the single key `note`, bound to a string that parses back to the note being loaded |
| `FileScales.Loader.Load` | src/filescale.rs:24-33 | loading one note succeeds exactly when formatting the template, opening the file and decoding it all succeed, and the sound is the decoded one. Otherwise the error is that of the first step that fails: the formatter's, the opener's or the decoder's |
| `FileScales.FromFiles` | src/filescale.rs:18-40 | the build succeeds exactly when all seven notes load. The bank then holds seven entries, one for every note, each being the sound loaded from that note's file name. Notes are attempted in `LIST` order. On failure, the error is that of the first note that fails and no later note is attempted |
| `FileScales.LoadedBankIsComplete` | src/filescale.rs:23-39 | loading every entry of `LIST` leaves a map with a key for each of the seven notes, and no others |
| `FileScales.FileScale.PlayNote` | src/filescale.rs:43-51 | in a bank built by `FromFiles` the lookup always succeeds (the `unreachable!` branch is dead). It submits exactly one `Play` of the stored sound and passes on a send failure unchanged |
| `NoteScales.NoteScale.PlayNote` | src/notescale.rs:4-6 | playing a note through either implementation submits exactly one `Play` of that note's sound. It fails only when the player's receiver is gone |
| `Tracks.ParseAll` | src/track.rs:24-29 | collecting the parsed tokens succeeds exactly when every token parses. It then yields one note per token, in order. Otherwise the error is the `UnknownNote` of the first unparseable token |
| `Tracks.ToStrs` | src/track.rs:16-20 | the conversion to strings yields one name per note, and each name parses back to its note |
| `Tracks.ParseAllToStrs` | src/track.rs:16-29 | printing a pattern and parsing the result gives back the same pattern |
| `Tracks.ToStrsParseAll` | src/track.rs:16-29 | parsing valid tokens and printing the pattern gives back the same tokens |
| `Tracks.NextCursor` | src/track.rs:57-58 | after one step, the cursor is a valid index into the pattern |
| `Tracks.CursorAfter` | src/track.rs:57-58 | after any number of steps from the start, the cursor is a valid index into the pattern |
| `Tracks.CursorAfterIsModulo` | src/track.rs:57-58 | after N beats starting from cursor 0, the cursor is N modulo the pattern length |
| `Tracks.BeatDue` | src/track.rs:52 | a beat is due exactly when the elapsed time multiplied by the tempo exceeds the base interval, which is the strict comparison of the elapsed time with the interval divided by the tempo |
| `Tracks.TempoMonotone` | src/track.rs:51-53 | if a beat is due at some tempo, it is also due at any higher tempo |
| `Tracks.DoubleTempoHalvesWait` | src/track.rs:51-53 | at doubled tempo a beat is due after half the elapsed time it needs at the original tempo |
| `Tracks.Track.constructor` | src/track.rs:25-34 | a new track holds the given pattern with cursor 0 and no scale. Its tempo is 0, its last beat is now, and nothing has been played |
| `Tracks.Track.TryFrom` | src/track.rs:22-36 | succeeds exactly when every token parses, failing with the first bad token's error. On success, the fresh track's pattern is the parsed tokens and its length is the token count. Its cursor is 0, its tempo 0, it has no scale, and its last beat is now |
| `Tracks.Track.Strings` | src/track.rs:16-20 | the strings of a track parse back to exactly its pattern |
| `Tracks.Track.Length` | src/track.rs:39-41 | the length is the number of names the track prints as |
| `Tracks.Track.SetTempo` | src/track.rs:43-45 | sets the tempo and may change no other field |
| `Tracks.Track.SetNoteScale` | src/track.rs:47-49 | binds the given scale, or none, and may change no other field |
| `Tracks.Track.ShouldBeat` | src/track.rs:51-53 | a beat is due exactly when the time elapsed since the last beat, multiplied by the tempo, exceeds the base interval |
| `Tracks.Track.Beat` | src/track.rs:55-65 | needs a non-empty pattern. The last beat becomes `now`, and the cursor advances by one modulo the length, so it stays a valid index. If a scale is bound, exactly the note under the new cursor is played once; otherwise nothing is played. The call fails only when the scale's send fails. The pattern, tempo and scale are not changed |
| `Tracks.Track.Restart` | src/track.rs:67-69 | sets the cursor to 0 and may change no other field |
| `Tracks.RestartScenario` | src/main.rs:211-215 | on a track `["C", "D", "E"]` with a scale, five beats leave the cursor on step 2. Restarting keeps the last beat time, which follows from `Restart`'s frame alone. The next beat plays D, and the last command the player received is `Play` of D's sound |

## Left out

- The player thread (`AudioPlayer::lookup`, src/player.rs:48-67) is not part of this model: it is concurrency plus a foreign audio backend. Its `Pause` and `Resume` arms are empty in the source, so they have no behaviour to model.
- Creating the player can fail in the source, because `awedio::start()` can return an error (src/player.rs:40). `Player.AudioPlayerInterface.constructor` cannot fail; it models only the channel half of `create_audio_player`.
- The source as written does not type-check. src/filescale.rs:46 and src/sinescale.rs:21 pass kira's `StaticSoundData` to `play_sound`, which takes `Box<dyn awedio::Sound + Send + Sync>` (src/player.rs:74). src/main.rs:93 calls `spawn_deamon`, which does not exist. The model uses one sound type `S` for banks and the channel alike, so it does not show the first mismatch.
- The `pause`, `resume` and `stop` senders of `AudioPlayerInterface` are not modelled. They behave like `PlaySound` with a different command, and only the terminal UI calls them.
- The terminal UI, key handling, logging and the polling loop in src/main.rs are not part of this model. Its restart key and space key call `Track::restart`, the unmodelled `stop`/`pause`/`resume` senders, or assign `last_beat` directly.
- The sine scale's synthesis (src/sinescale.rs) is floating-point numerics and is not part of this model. `NoteScales.NoteScale.Synthesized` keeps only its interface: one sound per note, submitted once. Its wave is a total function of the note. So the `unreachable!` that `SineScale::play_note` reaches for a note missing from its frequency map (src/sinescale.rs:20-28) cannot be expressed, although `SineScale::new` accepts any map (src/sinescale.rs:36-38).
- Opening files, decoding audio and `strfmt`'s brace and escape rules are parameters of `FromFiles` (`FileScales.Loader`), not modelled functions. The `info!` log lines are left out.
- Tracks.Track.ShouldBeat: computed over exact reals rather than with `f64` and `Duration::mul_f64`, so rounding to nanoseconds is not modelled. It requires a positive tempo: `mul_f64` panics on the infinite or negative factor that a zero or negative tempo gives. It also does not model `mul_f64`'s panic on a result too large for a `Duration`.
- Scales are shared between tracks through `Rc` in the source. Here a track holds the scale as an immutable value, which behaves the same because `play_note` only reads the scale.
- `Instant` is an integer clock. `elapsed()` saturates at zero when `now` is before the last beat, and the model does the same.
- src/pianoscale.rs and src/modname.rs are not declared as modules of the program, so they are not part of this model.
