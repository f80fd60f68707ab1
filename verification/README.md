# Audio playback in the AI sales-assistant chat widget, in Dafny

This project models the state machines of a small browser chat widget: an
assistant window that opens and closes and counts unread replies, an input
area with a text tab and a press-to-record audio tab, chat messages that can
carry a playable audio clip, and two stand-alone audio players that share a
base class: a simulated one driven by an interval timer and one driven by a
media element.

The browser is an environment in the model. Clocks (`performance.now()` and
`Date.now()`) are parameters. Each firing of an interval timer is an explicit
`Tick` or `TimerTick` call. Each media-engine event is a method. What the
page asks of the engine (`load()`, `play()`, `pause()`) goes into a ghost
request log. DOM writes are kept as the values they show: waveform progress,
the time label, the play/pause icon, the microphone button, the placeholder
text, the unread counter and its badge.

Modules, one per source file plus three shared ones:

- `Wrappers`: the `Option` type used for JavaScript's `null`.
- `Browser`: the JavaScript numbers the formatting helpers see (`null`, NaN,
  infinities, finite numbers), `Math.round`, `%` with its truncating
  remainder, `cur / total * 100` with division by zero, clamping, interval
  timers and media requests.
- `TimeFormat`: `formatDuration` and `formatTime`, with a parser for `MM:SS`
  strings. What a clock string says about its inputs is proved as a round
  trip.
- `AudioPlayerBase`: the shared player state and its two UI setters.
- `MockAudioPlayer`: the simulated player. Its invariant is that it plays
  exactly when it holds a timer, and that this timer is the only one live.
- `HTMLMediaAudioPlayer`: the media-element player. Its playing flag follows
  the engine's events only.
- `ChatMessage`: the player built into a chat message. This is the one the
  widget uses. It has a real path (a media element with a known positive
  duration) and a simulated path.
- `InputArea`: the send-button rule, sending, suggestion chips, tabs and the
  recording machine.
- `ChatWidget`: opening and closing, the unread counter, the reply choice and
  the keyword classifier behind the assistant's text replies.

Behaviour the proofs bring out, kept as the code has it:

- `formatDuration` rounds after taking the remainder, so 59.6 seconds shows
  as `00:60`.
- Seeking in a playing simulated chat message pauses it. The seek clears the
  timer and then toggles, and the toggle flips the playing flag to false.
- Replies do not alternate between text and audio. Audio replies carry no
  text, so they leave the count that decides the choice unchanged. Once the
  count is odd, every reply to a text message is audio until the user sends
  an audio message: its text reply makes the count even again.
- The assistant answers every audio message from the user with its reply
  for a request it did not understand. The fixed text it classifies in that
  case contains none of the keywords.
- A recorded message has a real URL and a preset 15-second duration. With
  the constructor as written it holds no media element, so it always plays
  on the simulated path. With the element kept
  (`ChatMessage.ChatMessage.Corrected`), it still plays on the simulated
  path until its element's metadata loads.
- An engine error on the media-element player only changes the label. Later
  play and seek calls still reach the engine (`SeekAfterError`).
- The simulated player's `play()` starts a timer even for a zero duration.

## Model

| member | source | states |
|---|---|---|
| Browser.Round | js/components/audio/AudioPlayerBase.js:19 | `Math.round`: the result is within one half of its argument, and halves round up |
| Browser.Trunc | js/components/audio/AudioPlayerBase.js:19 | truncation toward zero, which is what the remainder in `seconds % 60` is taken against |
| Browser.Rem60 | js/components/audio/AudioPlayerBase.js:19 | `seconds % 60` keeps the sign of `seconds` and has magnitude below 60 |
| Browser.Percent | js/components/audio/MockAudioPlayer.js:31 | `current / total * 100` is NaN for 0/0, lies in [0, 100] inside a positive track, stays below 100 before the end and is exactly 100 at the end |
| Browser.Clamp | js/components/audio/MockAudioPlayer.js:46 | `min(max(0, t), total)` lies in [0, total], keeps a `t` that is already inside, and maps below-range to 0 and above-range to `total` |
| Browser.TickPosition | js/components/audio/MockAudioPlayer.js:24-25 | a tick's position is the anchor position when no time has passed, and never less than the anchor afterwards |
| Browser.Live | js/components/audio/MockAudioPlayer.js:23 | the timers a stored handle accounts for: none for `null`, exactly the held one otherwise |
| TimeFormat.NatToString | js/components/audio/AudioPlayerBase.js:20 | `toString()` of a non-negative integer is a non-empty string of decimal digits, one digit long exactly below 10 |
| TimeFormat.NatToStringRoundTrip | js/components/audio/AudioPlayerBase.js:20 | the digits `toString()` produces read back as the number |
| TimeFormat.Pad2RoundTrip | js/components/audio/AudioPlayerBase.js:20 | `padStart(2, '0')` on a non-negative number reads back as that number, and is two characters below 100 |
| TimeFormat.SplitAtFirstColon | js/components/audio/AudioPlayerBase.js:20 | a digits-only field followed by a colon is split off at that colon |
| TimeFormat.ClockRoundTrip | js/components/audio/AudioPlayerBase.js:20 | two padded non-negative fields joined by a colon read back as the two numbers |
| TimeFormat.FormatDuration | js/components/audio/AudioPlayerBase.js:16-21 | anything that is not a finite number formats as `00:00`; every result has at least five characters (padding on finite non-negative input: `FormatDurationPadded`) |
| TimeFormat.FormatDurationFields | js/components/audio/AudioPlayerBase.js:18-20 | for finite `s >= 0`, the string reads back as `floor(s / 60)` and `round(s mod 60)`, and the seconds field lies in [0, 60] |
| TimeFormat.ClockShape | js/components/audio/AudioPlayerBase.js:20 | two padded fields joined by a colon, the right one below 100: at least five characters, the colon third from the end, digits on both sides, exactly two after the colon |
| TimeFormat.FormatDurationIsClock | js/components/audio/AudioPlayerBase.js:18-20 | a finite number formats as the clock of `floor(s / 60)` and `round(s mod 60)` |
| TimeFormat.FormatDurationReadsBack | js/components/audio/AudioPlayerBase.js:18-20 | a finite number's formatted string reads back as its minutes and rounded seconds |
| TimeFormat.Rem60OfNonNegative | js/components/audio/AudioPlayerBase.js:19 | for `s >= 0` the minutes are non-negative and `s % 60` equals `s - 60 * floor(s / 60)` |
| TimeFormat.FormatDurationPadded | js/components/audio/AudioPlayerBase.js:18-20 | for finite `s >= 0` both fields are zero-padded: at least two digits of minutes, a colon, exactly two digits of seconds |
| TimeFormat.FormatDurationSixtyFive | js/components/audio/AudioPlayerBase.js:18-20 | 65 seconds formats as `01:05` |
| TimeFormat.FormatDurationSixtySeconds | js/components/audio/AudioPlayerBase.js:19 | 59.6 seconds formats as `00:60`: the seconds field can reach 60 |
| TimeFormat.FormatTime | js/components/ChatMessage.js:112-116 | an hour and a minute of the day format as five characters with a colon in the middle, and read back as that hour and minute |
| AudioPlayerBase.AudioPlayerBase.constructor | js/components/audio/AudioPlayerBase.js:3-7 | a new player is not playing |
| AudioPlayerBase.AudioPlayerBase.UpdateWaveformProgress | js/components/audio/AudioPlayerBase.js:24-26 | progress becomes the given percentage and nothing else changes |
| AudioPlayerBase.AudioPlayerBase.UpdateCurrentTimeDisplay | js/components/audio/AudioPlayerBase.js:28-30 | the label becomes exactly `formatDuration(t)` and nothing else changes |
| MockAudioPlayer.MockAudioPlayer.constructor | js/components/audio/MockAudioPlayer.js:4-13 | position 0, no timer, not playing, progress 0 and label `formatDuration(totalDuration)`, with the invariant established |
| MockAudioPlayer.MockAudioPlayer.Play | js/components/audio/MockAudioPlayer.js:15-35 | a no-op while playing; otherwise playing with a single new timer anchored at the current position and instant; position, progress and label unchanged |
| MockAudioPlayer.MockAudioPlayer.Tick | js/components/audio/MockAudioPlayer.js:23-34 | the position becomes anchor plus elapsed seconds. At or past the end the player completes: stopped, no timer, position 0, progress 0, label the whole duration. Before the end, progress is `current / total * 100` in [0, 100), the label shows the position, and the same timer stays live |
| MockAudioPlayer.MockAudioPlayer.Pause | js/components/audio/MockAudioPlayer.js:37-43 | a no-op when not playing; afterwards never playing and no timer live; position, progress and label kept |
| MockAudioPlayer.MockAudioPlayer.Seek | js/components/audio/MockAudioPlayer.js:45-56 | the position becomes the target clamped to the track, progress and label follow at once, the playing flag is kept, and a playing player holds a single new timer anchored at the new position, with the pause icon; an idle player holds none and keeps its icon |
| MockAudioPlayer.MockAudioPlayer.TogglePlay | js/components/audio/MockAudioPlayer.js:58-64 | the playing flag flips and the icon shows pause exactly when playing; a start holds a single new timer anchored at the current position, a stop holds none; position, progress and label kept |
| MockAudioPlayer.MockAudioPlayer.StopMockPlayback | js/components/audio/MockAudioPlayer.js:66-77 | stopped with no timer live; on completion position 0, progress 0 and label the whole duration, otherwise position, progress and label kept |
| MockAudioPlayer.MockAudioPlayer.GetCurrentTime | js/components/audio/MockAudioPlayer.js:80-82 | the position, which lies within the track |
| MockAudioPlayer.MockAudioPlayer.GetTotalDuration | js/components/audio/MockAudioPlayer.js:84-86 | the duration given at construction, non-negative |
| MockAudioPlayer.AtMostOneDriver | js/components/audio/MockAudioPlayer.js:15-43 | a valid player has at most one live timer, and has one exactly when playing |
| MockAudioPlayer.FiveSecondPlaythrough | js/components/audio/MockAudioPlayer.js:15-77 | a five-second track played from the start and ticked after 5.05 s ends idle at position 0 with label `00:05` |
| HTMLMediaAudioPlayer.HTMLMediaAudioPlayer.constructor | js/components/audio/HTMLMediaAudioPlayer.js:4-11 | not playing, duration 0 until metadata arrives, nothing asked of the engine |
| HTMLMediaAudioPlayer.HTMLMediaAudioPlayer.OnLoadedMetadata | js/components/audio/HTMLMediaAudioPlayer.js:14-18 | the duration becomes the engine's, the label shows it, progress becomes 0, and the playing flag and position are kept |
| HTMLMediaAudioPlayer.HTMLMediaAudioPlayer.OnTimeUpdate | js/components/audio/HTMLMediaAudioPlayer.js:20-26 | with a known duration, progress becomes `time / total * 100`, within [0, 100], and the label shows the time; with duration 0 neither changes |
| HTMLMediaAudioPlayer.HTMLMediaAudioPlayer.OnEnded | js/components/audio/HTMLMediaAudioPlayer.js:28-34 | stopped, engine position 0, progress 0, label the whole duration |
| HTMLMediaAudioPlayer.HTMLMediaAudioPlayer.OnPlay | js/components/audio/HTMLMediaAudioPlayer.js:36-39 | the engine's `play` event sets the playing flag and the pause icon and nothing else |
| HTMLMediaAudioPlayer.HTMLMediaAudioPlayer.OnPause | js/components/audio/HTMLMediaAudioPlayer.js:41-44 | the engine's `pause` event clears the playing flag and shows the play icon, and nothing else |
| HTMLMediaAudioPlayer.HTMLMediaAudioPlayer.OnError | js/components/audio/HTMLMediaAudioPlayer.js:46-50 | the label becomes `Ошибка`; it may change only the shared player state, and keeps the playing flag and progress |
| HTMLMediaAudioPlayer.HTMLMediaAudioPlayer.Play | js/components/audio/HTMLMediaAudioPlayer.js:53-58 | asks for `load` then `play` exactly when the duration is 0, and only `play` otherwise; the playing flag is left to the engine's events |
| HTMLMediaAudioPlayer.HTMLMediaAudioPlayer.Pause | js/components/audio/HTMLMediaAudioPlayer.js:60-62 | asks for `pause` and changes nothing else |
| HTMLMediaAudioPlayer.HTMLMediaAudioPlayer.Seek | js/components/audio/HTMLMediaAudioPlayer.js:64-68 | a no-op while the duration is 0; otherwise the engine position becomes the target clamped to the track |
| HTMLMediaAudioPlayer.HTMLMediaAudioPlayer.TogglePlay | js/components/audio/HTMLMediaAudioPlayer.js:70-76 | asks for a pause while playing, and otherwise for playback (with a load first while the duration is 0) |
| HTMLMediaAudioPlayer.HTMLMediaAudioPlayer.GetCurrentTime | js/components/audio/HTMLMediaAudioPlayer.js:79-81 | the engine's position, non-negative |
| HTMLMediaAudioPlayer.HTMLMediaAudioPlayer.GetTotalDuration | js/components/audio/HTMLMediaAudioPlayer.js:83-85 | the known duration, 0 before metadata |
| HTMLMediaAudioPlayer.SeekAfterError | js/components/audio/HTMLMediaAudioPlayer.js:46-76 | after an engine error a seek still moves the position and a toggle still asks for playback; the label keeps the error text |
| ChatMessage.DurationValue | js/components/ChatMessage.js:49 | `audioDuration` as handed to `formatDuration`: `null` exactly when there is no duration, and the finite number itself otherwise |
| ChatMessage.EffectiveDuration | js/components/ChatMessage.js:216-218 | a seek works against the element's duration, the one `updateAudioProgress` divides by, when the real path is ready; it has a positive duration exactly when `toggleAudioPlay` would act (real path ready, or a positive `audioDuration`) |
| ChatMessage.SeekTime | js/components/ChatMessage.js:225-229 | the seek target is the clamped click fraction of the duration: `total * ratio` for a click inside the waveform, 0 left of it, `total` right of it, and always within [0, total] |
| ChatMessage.ChatMessage.AsWritten | js/components/ChatMessage.js:4-18 | the constructor as written: fields as given, not playing, no timer, position 0, label `formatDuration(audioDuration)` for a message with audio, and no media element |
| ChatMessage.ChatMessage.Corrected | js/components/ChatMessage.js:14-15 | the same, except that a message with a real audio URL keeps the element `render()` created, with no duration yet |
| ChatMessage.ChatMessage.ToggleAudioPlay | js/components/ChatMessage.js:126-181 | real path: the flag flips and pause or play is asked of the engine. Otherwise a no-op without a positive `audioDuration`; with one the flag flips, a start holds a single new timer anchored at the current position and a stop holds none |
| ChatMessage.ChatMessage.StartTimer | js/components/ChatMessage.js:155-164 | any held timer is cleared before the new one starts, so exactly one timer is live, anchored at the current position |
| ChatMessage.ChatMessage.ClearTimer | js/components/ChatMessage.js:177-180 | no timer is held or live afterwards, and nothing else changes |
| ChatMessage.ChatMessage.Tick | js/components/ChatMessage.js:164-176 | the position becomes anchor plus elapsed seconds. Reaching `audioDuration` resets the player, rewinding any element to 0. Before it, progress is in [0, 100), the label shows the position, and the same timer stays live |
| ChatMessage.ChatMessage.UpdateAudioProgress | js/components/ChatMessage.js:183-191 | changes nothing unless there is an element with a known duration; then progress and label follow the element's position |
| ChatMessage.ChatMessage.OnTimeUpdate | js/components/ChatMessage.js:183-191 | the element's position is updated; with a known duration progress is `time / duration * 100` and the label shows the time, and with a positive one progress lies in [0, 100]; playing flag, timers, icon, mock position and engine requests are kept |
| ChatMessage.ChatMessage.OnLoadedMetadata | js/components/ChatMessage.js:67-73 | with an element: `audioDuration` becomes its duration, the label shows it and progress is 0, while the playing flag, timers, icon and mock position are kept. Without one nothing changes |
| ChatMessage.ChatMessage.ResetAudioPlayer | js/components/ChatMessage.js:193-212 | stopped, no timer, element and mock position rewound to 0, progress 0, label `formatDuration(audioDuration)` |
| ChatMessage.ChatMessage.SeekAudio | js/components/ChatMessage.js:214-253 | a no-op without a positive effective duration. Otherwise an element moves to the clamped target and nothing else changes. A message without one sets its position, progress and label, and ends paused with no timer; the icon becomes play when it was playing and is kept otherwise |
| ChatMessage.SeekWhilePlayingPauses | js/components/ChatMessage.js:242-249 | a playing 15-second simulated message seeked to the middle ends at 7.5 s, paused, with no live timer |
| InputArea.Trim | js/components/InputArea.js:88 | `trim()` returns a slice of the text with only white space before and after it, and the slice neither starts nor ends with white space |
| InputArea.TrimIsMiddle | js/components/InputArea.js:88 | what `trim()` keeps is the text between a white-space prefix and a white-space suffix |
| InputArea.TrimStartDrops | js/components/InputArea.js:88 | removing leading white space drops a prefix that is all white space |
| InputArea.TrimEndKeeps | js/components/InputArea.js:88 | removing trailing white space keeps a prefix and drops a rest that is all white space |
| InputArea.TrimStartShape | js/components/InputArea.js:88 | removing leading white space leaves nothing exactly for an all-white-space text, and otherwise starts at a non-white-space character |
| InputArea.TrimEndShape | js/components/InputArea.js:88 | removing trailing white space ends at a non-white-space character and keeps a non-white-space first character |
| InputArea.TrimEmptyIffBlank | js/components/InputArea.js:88 | the trimmed text is empty exactly when the text is all white space |
| InputArea.SendDisabled | js/components/InputArea.js:86-92 | the send button is disabled exactly when the text tab is not active or the text is all white space |
| InputArea.RecordedSeconds | js/components/InputArea.js:182-183 | the recorded length is at least one second, within half a second of the measured time from 500 ms on, and one second below 1.5 s |
| InputArea.RecordingLabel | js/components/InputArea.js:160-167 | after `n` timer ticks the prompt is `Идет запись... ` followed by a clock that reads back as `n / 60` minutes and `n % 60` seconds |
| InputArea.RecordingLabelAtStart | js/components/InputArea.js:160-167 | the prompt shown when recording starts is the timer's prompt for zero ticks |
| InputArea.InputArea.constructor | js/components/InputArea.js:8-40 | the text tab is active, the text is empty, sending is disabled, nothing is recorded or sent |
| InputArea.InputArea.UpdateSendButtonState | js/components/InputArea.js:86-92 | the button is disabled exactly when the tab is not the text tab or the trimmed text is empty |
| InputArea.InputArea.OnInput | js/components/InputArea.js:43-46 | the text is taken and the send button follows the send rule; the tab, what was sent and the recording state, prompt and microphone are kept |
| InputArea.InputArea.SendMessage | js/components/InputArea.js:94-102 | exactly when sending is enabled, the trimmed non-empty text is handed on and the textarea is cleared, with the tab and the recording state, prompt and microphone kept; otherwise nothing changes |
| InputArea.InputArea.ClickSuggestion | js/components/InputArea.js:109-115 | the textarea holds the chosen suggestion, and sending is enabled exactly on the text tab; the tab, what was sent and the recording state, prompt and microphone are kept |
| InputArea.InputArea.HandleTabClick | js/components/InputArea.js:120-140 | the tab becomes active and the button follows; switching to audio while recording stops without sending; switching to text resets the microphone and prompt but leaves a recording running with its start time and counter |
| InputArea.InputArea.StartRecording | js/components/InputArea.js:154-171 | a no-op while recording; otherwise recording from `now` with one live timer, counter 0, the stop icon and the `00:00` prompt |
| InputArea.InputArea.TimerTick | js/components/InputArea.js:163-168 | the counter goes up by one and the prompt shows it as minutes and seconds; text, tab, button, microphone, start time and timer are kept |
| InputArea.InputArea.StopRecording | js/components/InputArea.js:173-197 | a no-op unless recording; otherwise no timer and the microphone icon; a non-cancelled stop sends the recorded file with duration 15, and a cancelled one sends nothing; text, tab and send button are kept |
| ChatWidget.LowerChar | js/components/ChatWidget.js:158 | one character of `toLowerCase()`: the result is never a capital, a non-capital is kept, and a capital moves to its small letter (0x20 or 0x50 code points up) |
| ChatWidget.Lower | js/components/ChatWidget.js:158 | `toLowerCase()` keeps the length, leaves no Latin or Cyrillic capital in the result, and keeps every character that is not one |
| ChatWidget.LowerIdempotent | js/components/ChatWidget.js:158 | lower-casing an already lower-cased text changes nothing |
| ChatWidget.ContainsIffOccurs | js/components/ChatWidget.js:159 | `includes(sub)` holds exactly when `sub` occurs in the text at some index |
| ChatWidget.GenerateAiResponse | js/components/ChatWidget.js:157-175 | the reply is one of the seven canned texts; any message containing `привет` in any case gets the greeting; the listening reply only answers messages of one to four characters |
| ChatWidget.GenerateAiResponseIsFirstMatch | js/components/ChatWidget.js:157-175 | the reply is the first keyword group, in the fixed order, with a keyword in the lower-cased message; otherwise it depends on the length |
| ChatWidget.FirstMatchOfFive | js/components/ChatWidget.js:159-171 | the first-match search over five rules is the chain of five tests in order |
| ChatWidget.LackingCharNotContained | js/components/ChatWidget.js:159 | `includes` fails for a keyword with a character the message does not have |
| ChatWidget.NoKeywordMeansDefault | js/components/ChatWidget.js:157-175 | a message of five or more characters whose lower-cased form contains no keyword gets the default reply |
| ChatWidget.AudioMessageGetsDefaultReply | js/components/ChatWidget.js:110-112 | the text classified after a user audio message gets the default reply |
| ChatWidget.GenerateAiResponseIgnoresCase | js/components/ChatWidget.js:158 | a message and its lower-cased form get the same reply |
| ChatWidget.AiTextCount | js/components/ChatWidget.js:114 | the number of assistant messages with content: 0 exactly when no message is one, and the whole length exactly when every message is one |
| ChatWidget.AiTextCountAppend | js/components/ChatWidget.js:114 | appending a message raises the count by one exactly when it is an assistant message with content |
| ChatWidget.ChooseReply | js/components/ChatWidget.js:110-122 | a text reply exactly after a user audio message or when the count is even; after audio the text is the default reply, otherwise the reply to the user's text |
| ChatWidget.AudioReplyKeepsChoice | js/components/ChatWidget.js:114-121 | an audio reply does not change the choice for the next text message |
| ChatWidget.ChatWidget.constructor | js/components/ChatWidget.js:11-30 | closed, no messages, counter 0, no badge, and the counter text shows 0 |
| ChatWidget.ChatWidget.UpdateNewMessagesCount | js/components/ChatWidget.js:181-188 | the counter text shows the counter, and the badge is there exactly when the counter is positive and the chat closed |
| ChatWidget.ChatWidget.ToggleChat | js/components/ChatWidget.js:42-60 | the chat flips between open and closed; opening resets the counter to 0 |
| ChatWidget.ChatWidget.OpenChat | js/components/ChatWidget.js:62-66 | the chat is open afterwards; an open chat is left unchanged |
| ChatWidget.ChatWidget.CloseChat | js/components/ChatWidget.js:68-72 | the chat is closed afterwards; a closed chat is left unchanged |
| ChatWidget.ChatWidget.AddMessage | js/components/ChatWidget.js:74-90 | exactly one new message is appended with the given type, content, URL and duration, not playing and with no timer, and the counter goes up by one exactly when the chat is closed and the message is the assistant's |
| ChatWidget.ChatWidget.HandleSendMessage | js/components/ChatWidget.js:92-105 | a text becomes a user message with that content and no audio; an audio message with a URL becomes a user message with no content, that URL and its duration (15 s for a recording); the new message is fresh, stopped and holds no timer; the pending reply remembers whether the user sent audio |
| ChatWidget.ChatWidget.DeliverReply | js/components/ChatWidget.js:106-124 | the reply is the one `ChooseReply` picks from the messages so far; it is appended as a fresh, stopped assistant message with no timer: a text reply with that content and no audio, an audio reply with no content, the test clip and a `null` duration; the chat stays open or closed and the counter goes up exactly when it is closed |
| ChatWidget.AsWrittenAudioReplyNeverPlays | js/components/ChatMessage.js:14-15 | as written, an assistant audio reply still has no duration and does not play after its metadata loads and play is clicked |
| ChatWidget.CorrectedAudioReplyPlays | js/components/ChatMessage.js:132-141 | with the element kept, the same reply plays on the real path and asks the engine to play |
| ChatWidget.RecordedMessageSimulatesUntilMetadata | js/components/ChatMessage.js:132-164 | with the element kept (`Corrected` constructor), a recorded message with a real URL and a preset duration starts simulated playback before its metadata loads, asking nothing of the engine |
| ChatWidget.RepliesStayAudio | js/components/ChatWidget.js:110-122 | three text messages in a row get a text reply and then two audio replies |

## Left out

- Rendering, avatars, feedback buttons, the typing indicator, scrolling, focus, textarea height and all `innerHTML`, `classList` and style writes. Only the values they show are kept.
- The application bootstrap and the DOM query helpers: js/main.js and js/utils/dom.js are not part of this model.
- The base class's abstract `play`/`pause`/`seek`/`togglePlay`, which only throw. Each player has its own methods, and the shared state is a composed `AudioPlayerBase` object rather than a superclass.
- The random 3-5 second reply delay and the timers themselves. `HandleSendMessage` returns the pending reply and `DeliverReply` is the delayed callback. Timer firings and clock readings are explicit calls and parameters.
- Event wiring: the Escape key and close button calling `closeChat`, Enter and the send button calling `sendMessage`, mouse and touch events on the microphone, and the `onSendMessage` callback from the input area to the widget (`InputArea.InputArea.sent` collects what it would receive).
- Console logging, and the `error` listener of a chat message's element, which only replaces the player markup with an error text.
- IEEE-754 arithmetic. Durations and positions are exact reals, so rounding of `elapsed / 1000`, negative zero and very large numbers are not modelled. `formatDuration` still has its `00:00` guard for `null`, NaN and the infinities.
- `toLowerCase` beyond Latin and basic Cyrillic capitals. Lengths count code points rather than UTF-16 code units, which differ only for characters outside the basic plane.
- `formatTime` takes the hour and minute of the timestamp, not a `Date`.
- ChatWidget.ChatWidget.HandleSendMessage: a `null` message or an object without a URL is represented by an audio message with an empty URL. Both add nothing and leave a text-style reply pending.
- InputArea.InputArea.HandleTabClick: only the two tabs the page has are modelled, not an arbitrary `data-tab` value.
- MockAudioPlayer.MockAudioPlayer.constructor: requires a non-negative duration. A NaN, negative or infinite duration passed by a caller is not modelled.
- HTMLMediaAudioPlayer.HTMLMediaAudioPlayer.OnLoadedMetadata: the engine's duration is a finite non-negative number. The infinite duration of a live stream is not modelled.
- HTMLMediaAudioPlayer.HTMLMediaAudioPlayer.OnTimeUpdate: requires that the engine never reports a position outside [0, duration]. The stated progress bounds rely on this.
- ChatMessage.ChatMessage.OnTimeUpdate: requires a media element, because the listener exists only on messages that have one. It also requires that the engine never reports a position outside [0, duration] once the duration is known; the stated progress bounds rely on this.
- ChatMessage.ChatMessage.OnLoadedMetadata: the engine's duration is a finite non-negative number. A NaN or infinite duration, which the code's `isFinite` guards are there for, is not modelled.
- ChatMessage.ChatMessage.ToggleAudioPlay: promises the full invariant only when it held before the call. `SeekAudio` calls it midway with only the timer part of the invariant holding.
- ChatMessage.ChatMessage.Tick: the momentary `currentMockPlaybackTime = audioDuration` before the reset is not kept, because the reset overwrites it at once.
- ChatWidget.ChatWidget.AddMessage: builds each message with the media element kept (`ChatMessage.ChatMessage.Corrected`), the corrected half of the finding below. The code as written drops the element, so an assistant audio reply never plays; `ChatMessage.ChatMessage.AsWritten` and `ChatWidget.AsWrittenAudioReplyNeverPlays` model that behaviour.
- InputArea.InputArea.ClickSuggestion: requires an index among the six suggestions, the only chips rendered.

## Findings

| source | as written | input that shows it | evidently intended | confidence | as-written member | corrected member |
|---|---|---|---|---|---|---|
| js/components/ChatMessage.js:14-15 | `render()` stores a new media element in `audioElement`. The next statement sets the field back to `null`, so no message keeps its element. Every message takes the simulated path, and a message without a preset duration can never play. | the assistant's audio reply (`audioUrl` 'assets/audio/ai-sample.mp3', `audioDuration` null): after its metadata loads, a click on play changes nothing | keep the element `render()` creates. Its `loadedmetadata` listener then sets the duration, and play uses the real path (`ChatMessage.ChatMessage.Corrected`, which the widget's `AddMessage` uses) | high, not executed | ChatWidget.AsWrittenAudioReplyNeverPlays | ChatWidget.CorrectedAudioReplyPlays |
