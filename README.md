# whishpy core, modelled in Dafny

whishpy is a menu-bar dictation tool. It records the microphone, sends the clip to a speech-to-text
service and types the text at the cursor. Three small sequential components hold its state, and this
project models them:

- `circular_logger.dfy` (module `CircularLog`) models the size-bounded in-memory log. Each entry is
  formatted as `[timestamp] [LEVEL] message` plus a newline, and its UTF-8 size is computed per code
  point. The oldest entries are dropped until the new one fits under `max_size`. The entry is then
  appended, the running size is kept in step, and the entry is handed to the file writer's queue.
  The class keeps the invariant `currentSize == TotalSize(buffer)`. `Log` is proved against the
  specification function `Evict`, and lemmas show that eviction drops the shortest prefix that makes
  room, that the buffer then fits, and that an oversized entry ends up alone.
- `audio_recorder.dfy` (module `Recorder`) models the recording session. It has the fields
  `is_recording`, `frames` and `start_time`, and the fixed capture parameters (44100 Hz, 1024-sample
  chunks, mono, 16-bit). The audio library appears as ghost state: a live-handle flag, an open-stream
  flag and a trace of the calls made on the library and the file system. The trace shows that every
  stop releases the stream and the handle before the WAV file is written. The written file is a
  `WavFile` record: channels, sample width, rate and the in-order concatenation of the chunks. The
  one-second guard is proved equal to "fewer than 44 chunks".
- `settings_manager.dfy` (module `Settings`) models settings persistence. The config file is an
  optional JSON object, and a missing file loads as the empty object. Each save re-reads the object,
  changes its own keys and writes the object back. Lemmas give the save/load round trips, the
  defaults (`None`, `"groq"`), "other keys untouched" and idempotence.

Inputs that come from outside the program are parameters:

- the timestamp text of a log entry (`datetime.now()`);
- the wall-clock time (`time.time()`) for start and duration;
- whether the audio device accepts the stream (`audio.open` succeeding or raising);
- the name of the temporary WAV file (`tempfile`);
- the existing contents of the config file.

The recorder's code behaves as follows, and the model follows it:

- Stopping does not clear `frames`. The chunks stay until the next start clears them.
- Starting has no typed "device unavailable" result. The library's exception propagates. By then
  `frames` is already cleared and the new library handle is left live. The model's outcome
  `DeviceUnavailable` stands for that exception.
- Ingestion is not limited to the Recording state. The callback appends whatever the driver
  delivers.
- There is no auto-stop timer, and the maximum recording time is only persisted.

## Model

| member | source | states |
|---|---|---|
| `CircularLog.CharUtf8Size` | src/circular_logger.py:32 | one character costs 1 to 4 UTF-8 bytes, and exactly 1 when it is ASCII |
| `CircularLog.Utf8SizeConcat` | src/circular_logger.py:32 | the encoded size of a concatenation is the sum of the encoded sizes |
| `CircularLog.Utf8Size` | src/circular_logger.py:32 | defines `len(s.encode('utf-8'))` as the sum of the per-character sizes; it lies between the string's length and four times its length |
| `CircularLog.Utf8SizeAscii` | src/circular_logger.py:32 | ASCII text takes exactly one byte per character |
| `CircularLog.FormatEntry` | src/circular_logger.py:31 | defines the entry text `[timestamp] [level] message` plus newline; it is 7 characters longer than its fields, opens with `[` and ends with a newline |
| `CircularLog.EntrySize` | src/circular_logger.py:31-32 | an entry's size is the sizes of timestamp, level and message plus 7 framing bytes |
| `CircularLog.ParseFormatRoundTrip` | src/circular_logger.py:31 | an entry splits back into its timestamp, level and message when neither the timestamp nor the level contains `]` |
| `CircularLog.TotalSize` | src/circular_logger.py:36-43 | defines the total UTF-8 size of the buffered entries, the value `current_size` tracks; 0 for an empty buffer and at least the size of the oldest entry |
| `CircularLog.Join` | src/circular_logger.py:60 | defines `''.join(buffer)`; empty for an empty buffer and at least as long as each entry |
| `CircularLog.TotalSizeAppend` | src/circular_logger.py:42-43 | appending an entry adds exactly its size to the buffer's total, which is why `current_size += entry_size` keeps the invariant |
| `CircularLog.JoinSize` | src/circular_logger.py:58-60 | the joined log text has the UTF-8 size of the sum of its entries, so `get_logs` is `current_size` bytes long |
| `CircularLog.JoinAppend` | src/circular_logger.py:42 | joining a buffer with an entry appended yields the old text followed by that entry |
| `CircularLog.Evict` | src/circular_logger.py:36-40 | defines the entries the eviction loop keeps: a suffix of the buffer, and the whole buffer when the new entry already fits |
| `CircularLog.EvictDropsShortestPrefix` | src/circular_logger.py:36-40 | eviction keeps a suffix of the old buffer, every shorter drop still overflows, and a non-empty remainder fits with the new entry |
| `CircularLog.EvictFits` | src/circular_logger.py:36-43 | when the new entry alone fits, the kept entries and the new entry fit under `max_size` together |
| `CircularLog.EvictOversized` | src/circular_logger.py:36-40 | an entry larger than `max_size` empties the buffer |
| `CircularLog.CircularLogger.constructor` | src/circular_logger.py:11-27 | empty buffer, size 0, empty write queue, the given `max_size` (default 90 KiB); the invariant holds |
| `CircularLog.CircularLogger.Log` | src/circular_logger.py:29-44 | new buffer is `Evict(old buffer) + [entry]`; one entry is queued for the writer; nothing is evicted when the entry fits; `current_size <= max_size` when the entry alone fits; otherwise the buffer is just the entry; the size invariant is kept |
| `CircularLog.CircularLogger.LogDebug` | src/circular_logger.py:46-47 | `Log` with level `DEBUG` |
| `CircularLog.CircularLogger.LogInfo` | src/circular_logger.py:49-50 | `Log` with level `INFO` |
| `CircularLog.CircularLogger.LogWarning` | src/circular_logger.py:52-53 | `Log` with level `WARNING` |
| `CircularLog.CircularLogger.LogError` | src/circular_logger.py:55-56 | `Log` with level `ERROR` |
| `CircularLog.CircularLogger.GetLogs` | src/circular_logger.py:58-60 | returns the in-order concatenation of the buffer, whose size is `current_size`, and changes nothing |
| `CircularLog.CircularLogger.ClearLogs` | src/circular_logger.py:62-65 | empty buffer and size 0; the write queue is untouched; the invariant holds |
| `Recorder.ClipSeconds` | src/audio_recorder.py:43 | defines the duration `len(frames) * chunk / sample_rate`; it is non-negative and times 44100 gives the sample count |
| `Recorder.TooShortClip` | src/audio_recorder.py:43-44 | the guard "no frames or duration under 1.0 s" holds exactly when `frames * 1024 < 44100`, that is, with fewer than 44 chunks |
| `Recorder.JoinFrames` | src/audio_recorder.py:64 | defines `b''.join(frames)`; empty for no chunks and at least as long as each chunk |
| `Recorder.JoinFramesAppend` | src/audio_recorder.py:71 | appending a chunk extends the WAV payload by exactly that chunk |
| `Recorder.JoinFramesLength` | src/audio_recorder.py:64 | chunks of equal size join into a payload of the chunk count times that size |
| `Recorder.ClipWav` | src/audio_recorder.py:60-64 | defines the written WAV: 1 channel, 2-byte samples, 44100 Hz, the joined chunks as data, holding every chunk's bytes |
| `Recorder.ClipOfFullChunks` | src/audio_recorder.py:60-64 | the WAV of full 2048-byte chunks is mono at 44100 Hz, holds 1024 sample frames per chunk, and is as long as the guard's duration |
| `Recorder.AudioRecorder.constructor` | src/audio_recorder.py:7-16 | idle, no frames, start time 0, no stream, no library handle, no calls made |
| `Recorder.AudioRecorder.StartRecording` | src/audio_recorder.py:18-35 | while recording: returns `AlreadyRecording` (the source's `False`) and changes nothing; otherwise clears frames and creates the handle, then opens the stream with int16/mono/44100/1024, sets recording and the start time; a device failure leaves it idle with frames cleared |
| `Recorder.AudioRecorder.StopRecording` | src/audio_recorder.py:37-67 | when idle: returns `None` and changes nothing; otherwise always stop, close, terminate, then idle; the error exactly when the clip is too short; else the WAV of the concatenated frames is written after the release and its path is returned |
| `Recorder.AudioRecorder.ReleaseStream` | src/audio_recorder.py:51-53 | stop the stream, close it, terminate the handle, in that order |
| `Recorder.AudioRecorder.AudioCallback` | src/audio_recorder.py:69-72 | appends exactly the delivered chunk at the end of `frames` and returns it unchanged with "continue" |
| `Recorder.AudioRecorder.RecordingDuration` | src/audio_recorder.py:74-78 | 0 when not recording, else the time since start |
| `Settings.Get` | src/settings_manager.py:30 | `dict.get`: the stored value when the key is present, the default otherwise |
| `Settings.LoadConfig` | src/settings_manager.py:43-49 | `_load_config`: the stored object, or the empty object when the file is missing |
| `Settings.ApiKeyOf` | src/settings_manager.py:30 | the stored key or `None`, and the stored provider or `groq` |
| `Settings.MaxRecordingTimeOf` | src/settings_manager.py:41 | the stored limit or `None` |
| `Settings.Update` | src/settings_manager.py:21-24 | `dict.update`: the changed keys take their new values and every other key keeps its old one |
| `Settings.WithApiKey` | src/settings_manager.py:20-25 | after saving, loading yields the saved key and provider; only `api_key` and `provider` can change |
| `Settings.WithMaxRecordingTime` | src/settings_manager.py:34-35 | after saving, loading yields the saved limit, `None` included; only `max_recording_time` can change |
| `Settings.MissingFileDefaults` | src/settings_manager.py:43-49 | a missing file loads as an empty object: no key, provider `groq`, no limit |
| `Settings.SavesAreIndependent` | src/settings_manager.py:18-41 | saving the key keeps the limit, and saving the limit keeps the key and provider |
| `Settings.SavesAreIdempotent` | src/settings_manager.py:18-36 | saving the same values twice leaves the same file as saving them once |
| `Settings.SettingsManager.constructor` | src/settings_manager.py:9-12 | the manager sees the config file as it is on disk |
| `Settings.SettingsManager.SaveConfig` | src/settings_manager.py:51-54 | the file holds exactly the given object |
| `Settings.SettingsManager.SaveApiKey` | src/settings_manager.py:18-25 | file becomes the loaded object with key and provider set (provider defaults to `groq`); a following load returns them; the limit and every other key are untouched |
| `Settings.SettingsManager.LoadApiKey` | src/settings_manager.py:27-30 | key is `None` when absent, provider is `groq` when absent; reading changes nothing |
| `Settings.SettingsManager.SaveMaxRecordingTime` | src/settings_manager.py:32-36 | file becomes the loaded object with the limit set; a following load returns it; key, provider and every other key are untouched |
| `Settings.SettingsManager.LoadMaxRecordingTime` | src/settings_manager.py:38-41 | `None` when absent; reading changes nothing |

## Left out

- The logger's background `_file_writer` thread, the blocking `Queue`, the lock and `_rotate_log`
  (file rename and rewrite) are concurrency and file I/O. The queue is a ghost append-only sequence
  of entries, and the lock is absent in this sequential model.
- The `CircularLogHandler` adapter and `setup_logging` wire the standard `logging` module to the
  logger. They are not part of this model.
- `CircularLog.Utf8Size` models the sizes of Unicode scalar values only. A Python string with a lone
  surrogate makes `encode('utf-8')` raise, and Dafny characters cannot hold one.
- The choice of default log-file path (frozen bundle or development) is a file path with no effect
  on the buffer.
- PyAudio device handling and the `wave` container encoding are foreign libraries. The stream and
  the handle are ghost flags, and the WAV file is a record of its header fields and payload. The
  sample width 2 is the library's size of a 16-bit sample.
- The callback's `frame_count`, `time_info` and `status` arguments are unused by the source and are
  not parameters of `AudioCallback`.
- A failure while creating the temporary file or writing the WAV data is not modelled. In the source
  such an exception leaves `is_recording` true with the stream already closed.
- `Recorder.AudioRecorder.StopRecording`, `Recorder.AudioRecorder.AudioCallback`: the callback is
  assumed not to run while stop runs. In the source the driver calls it on its own thread, so chunks
  can arrive after the length check and before `stop_stream()`. The written payload can then hold
  more chunks than the check counted; the model uses one snapshot of `frames` for both.
- `Recorder.AudioRecorder.StartRecording`: a failure of `pyaudio.PyAudio()` itself is not modelled.
  It would raise before `frames` is cleared; the model's only start failure is the stream open.
- `Recorder.ClipSeconds` divides in exact reals. Python's true division of two integers is
  correctly rounded, so its comparison with 1.0 comes out the same for every chunk count.
- `Recorder.AudioRecorder.RecordingDuration` uses real arithmetic for the clock. Float rounding of
  `time.time()` is not modelled.
- The JSON encoding itself, a malformed file, and a file whose top-level value is not an object are
  not modelled. The first is a library; the other two make the source raise. The model assumes
  `json.load` returns the object `json.dump` wrote. Floating-point numbers and key order are not
  represented.
- Creating the config directory in `SettingsManager.__init__` is filesystem work with no effect on
  the stored values.
- `src/config.py` only delegates to one shared `SettingsManager`, so it adds nothing beyond what is
  modelled here.
- `main.py` (menu-bar UI, alerts, the per-recording thread), `src/transcription_service.py` and
  `src/llm.py` (network calls and dialogs), `src/text_inserter.py` (keystroke simulation) and
  `setup.py` (app bundling) are UI, network and OS glue. They are not part of this model.
