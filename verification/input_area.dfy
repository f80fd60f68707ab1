/**
 * The input area under the chat (InputArea.js): a text tab with a send
 * button and suggestion chips, and an audio tab with a press-to-record
 * microphone. What it hands to the widget's `onSendMessage` callback is
 * appended to `sent`; the clock (`Date.now()`, milliseconds) is a parameter
 * and each firing of the one-second recording timer is a call of `TimerTick`.
 */
module InputArea {
  import opened Wrappers
  import opened TimeFormat

  const UserRecordedAudioFile := "assets/audio/user-recorded.mp3"
  /** Seconds; a non-zero number, so it always wins over the measured length. */
  const UserRecordedMockDuration := 15

  const Suggestions: seq<string> := [
    "помоги со звонком",
    "дай возражения",
    "дай аргументы",
    "дай техники",
    "напиши текст письма",
    "создай отчёт"
  ]

  const RecordingPrefix := "Идет запись... "
  /** The prompt shown when a recording starts. */
  const RecordingStartPrompt := RecordingPrefix + "00:00"
  const IdlePrompt := "Нажмите и отпустите, чтобы начать запись"
  const SentPrompt := "Аудио отправлено. Нажмите, чтобы начать новую запись."

  datatype Tab = TextTab | AudioTab

  /** What the input area hands to the widget: a text, or a recorded audio message. */
  datatype MessageData = TextData(text: string) | AudioData(audioUrl: string, audioDuration: Option<real>)

  /** The microphone button: idle (`mic` icon) or recording (`stop` icon, `recording` class). */
  datatype MicButton = Mic | Stop

  /** The characters `String.prototype.trim` removes: white space and line terminators. */
  predicate IsWhitespace(c: char) {
    || c as int in {0x09, 0x0A, 0x0B, 0x0C, 0x0D, 0x20, 0xA0, 0x1680}
    || 0x2000 <= c as int <= 0x200A
    || c as int in {0x2028, 0x2029, 0x202F, 0x205F, 0x3000, 0xFEFF}
  }

  predicate Blank(s: string) {
    forall i :: 0 <= i < |s| ==> IsWhitespace(s[i])
  }

  function TrimStart(s: string): string {
    if s != [] && IsWhitespace(s[0]) then TrimStart(s[1..]) else s
  }

  function TrimEnd(s: string): string {
    if s != [] && IsWhitespace(s[|s| - 1]) then TrimEnd(s[..|s| - 1]) else s
  }

  /** `r` is `s[i..j]`, and what lies before `i` and from `j` on is white space. */
  predicate MiddleBetweenBlanks(s: string, r: string, i: int, j: int) {
    && 0 <= i <= j <= |s| && r == s[i..j]
    && (forall k :: 0 <= k < i ==> IsWhitespace(s[k]))
    && (forall k :: j <= k < |s| ==> IsWhitespace(s[k]))
  }

  /** `s.trim()` */
  function Trim(s: string): (r: string)
    ensures r != [] ==> !IsWhitespace(r[0]) && !IsWhitespace(r[|r| - 1])
    ensures exists i, j :: MiddleBetweenBlanks(s, r, i, j)
  {
    TrimEndShape(TrimStart(s));
    TrimStartShape(s);
    TrimIsMiddle(s);
    TrimEnd(TrimStart(s))
  }

  lemma TrimIsMiddle(s: string)
    ensures exists i, j :: MiddleBetweenBlanks(s, TrimEnd(TrimStart(s)), i, j)
  {
    var i := TrimStartDrops(s);
    var j := TrimEndKeeps(s[i..]);
    assert s[i..][..j] == s[i..i + j];
    assert forall k :: i + j <= k < |s| ==> s[k] == s[i..][j..][k - i - j];
    assert MiddleBetweenBlanks(s, TrimEnd(TrimStart(s)), i, i + j);
  }

  /** Removing leading white space drops a blank prefix. */
  lemma {:induction false} TrimStartDrops(s: string) returns (i: nat)
    ensures i <= |s| && TrimStart(s) == s[i..] && Blank(s[..i])
  {
    if s != [] && IsWhitespace(s[0]) {
      var k := TrimStartDrops(s[1..]);
      i := k + 1;
      assert s[1..][k..] == s[i..];
      assert forall n :: 0 < n < i ==> s[..i][n] == s[1..][..k][n - 1];
    } else {
      i := 0;
    }
  }

  /** Removing trailing white space keeps a prefix followed by a blank rest. */
  lemma {:induction false} TrimEndKeeps(s: string) returns (j: nat)
    ensures j <= |s| && TrimEnd(s) == s[..j] && Blank(s[j..])
  {
    if s != [] && IsWhitespace(s[|s| - 1]) {
      var u := s[..|s| - 1];
      j := TrimEndKeeps(u);
      assert u[..j] == s[..j];
      assert forall n :: 0 <= n < |s| - 1 - j ==> s[j..][n] == u[j..][n];
    } else {
      j := |s|;
    }
  }

  lemma {:induction false} TrimStartShape(s: string)
    ensures TrimStart(s) == [] <==> Blank(s)
    ensures TrimStart(s) != [] ==> !IsWhitespace(TrimStart(s)[0])
  {
    if s != [] && IsWhitespace(s[0]) {
      TrimStartShape(s[1..]);
      assert Blank(s) <==> Blank(s[1..]) by {
        assert forall i :: 0 < i < |s| ==> s[i] == s[1..][i - 1];
      }
    }
  }

  lemma {:induction false} TrimEndShape(s: string)
    ensures TrimEnd(s) != [] ==> !IsWhitespace(TrimEnd(s)[|TrimEnd(s)| - 1])
    ensures s != [] && !IsWhitespace(s[0]) ==> TrimEnd(s) != [] && TrimEnd(s)[0] == s[0]
  {
    if s != [] && IsWhitespace(s[|s| - 1]) {
      TrimEndShape(s[..|s| - 1]);
    }
  }

  /** The trimmed text is empty exactly when the text is nothing but white space. */
  lemma TrimEmptyIffBlank(s: string)
    ensures Trim(s) == [] <==> Blank(s)
  {
    TrimStartShape(s);
    TrimEndShape(TrimStart(s));
  }

  /** The send button's rule: disabled off the text tab, and on it while the trimmed text is empty. */
  function SendDisabled(tab: Tab, value: string): (disabled: bool)
    ensures disabled <==> tab != TextTab || Blank(value)
  {
    TrimEmptyIffBlank(value);
    tab != TextTab || Trim(value) == ""
  }

  /**
   * The length of a recording of `ms` milliseconds in whole seconds:
   * `Math.max(1, Math.round(ms / 1000))`, never below one second.
   */
  function RecordedSeconds(ms: int): (secs: int)
    ensures 1 <= secs
    ensures ms >= 500 ==> secs * 1000 - 500 <= ms < secs * 1000 + 500
    ensures ms < 1500 ==> secs == 1
  {
    var rounded := (ms + 500) / 1000;
    if rounded < 1 then 1 else rounded
  }

  /** The placeholder text after `n` ticks of the recording timer. */
  function RecordingLabel(n: nat): (r: string)
    ensures |RecordingPrefix| <= |r| && r[..|RecordingPrefix|] == RecordingPrefix
    ensures ParseClock(r[|RecordingPrefix|..]) == Some((n / 60, n % 60))
  {
    var r := RecordingPrefix + Clock(n / 60, n % 60);
    assert r[|RecordingPrefix|..] == Clock(n / 60, n % 60);
    ClockRoundTrip(n / 60, n % 60);
    r
  }

  /** The prompt `startRecording` shows is the one for zero ticks. */
  lemma RecordingLabelAtStart()
    ensures RecordingLabel(0) == RecordingStartPrompt
  {
    assert Pad2(0) == "00";
  }

  class InputArea {
    var activeTab: Tab
    var textareaValue: string
    var sendDisabled: bool
    var isRecording: bool
    /** `Date.now()` when the current recording started, in milliseconds. */
    var recordingStartTime: Option<int>
    var recordingTimerInterval: Option<nat>
    /** The recording timers started and not yet cleared: they keep firing. */
    var timers: set<nat>
    var nextTimerId: nat
    /** The `seconds` counter the current recording timer closes over. */
    var elapsedSeconds: nat
    var placeholder: string
    var micButton: MicButton
    /** Every value handed to `onSendMessage`, oldest first. */
    var sent: seq<MessageData>

    /**
     * The send button always follows the send rule, and the area is
     * recording exactly when it holds the one live recording timer.
     */
    ghost predicate Valid()
      reads this
    {
      && sendDisabled == SendDisabled(activeTab, textareaValue)
      && (isRecording <==> recordingTimerInterval.Some?)
      && timers == (if recordingTimerInterval.Some? then {recordingTimerInterval.value} else {})
      && (recordingTimerInterval.Some? ==> recordingTimerInterval.value < nextTimerId)
      && (isRecording ==> recordingStartTime.Some?)
    }

    /** The recording machine and what it shows are as they were before the call. */
    twostate predicate RecorderUnchanged()
      reads this
    {
      && isRecording == old(isRecording) && recordingStartTime == old(recordingStartTime)
      && recordingTimerInterval == old(recordingTimerInterval) && timers == old(timers)
      && nextTimerId == old(nextTimerId) && elapsedSeconds == old(elapsedSeconds)
      && placeholder == old(placeholder) && micButton == old(micButton)
    }

    constructor ()
      ensures Valid()
      ensures activeTab == TextTab && textareaValue == "" && sendDisabled
      ensures !isRecording && timers == {} && sent == []
    {
      activeTab := TextTab;
      textareaValue := "";
      isRecording := false;
      recordingStartTime := None;
      recordingTimerInterval := None;
      timers := {};
      nextTimerId := 0;
      elapsedSeconds := 0;
      sent := [];
      new;
      UpdateSendButtonState();
    }

    /** `updateSendButtonState()` */
    method UpdateSendButtonState()
      modifies this`sendDisabled
      ensures sendDisabled <==> activeTab != TextTab || Trim(textareaValue) == ""
    {
      sendDisabled := activeTab != TextTab || Trim(textareaValue) == "";
    }

    /** The textarea's `input` event: the user edited the text. */
    method OnInput(value: string)
      requires Valid()
      modifies this
      ensures Valid()
      ensures textareaValue == value && sendDisabled == SendDisabled(activeTab, value)
      ensures activeTab == old(activeTab) && sent == old(sent)
      ensures RecorderUnchanged()
    {
      textareaValue := value;
      UpdateSendButtonState();
    }

    /**
     * `sendMessage()` (Enter or the send button): the trimmed text is handed
     * on and the textarea cleared when it is non-empty and the text tab is
     * active, which is exactly when the send button is enabled; otherwise
     * nothing changes.
     */
    method SendMessage()
      requires Valid()
      modifies this
      ensures Valid()
      ensures old(sendDisabled) ==> unchanged(this)
      ensures !old(sendDisabled) ==>
                && sent == old(sent) + [TextData(Trim(old(textareaValue)))]
                && Trim(old(textareaValue)) != ""
                && textareaValue == "" && sendDisabled
                && activeTab == old(activeTab) && RecorderUnchanged()
    {
      var message := Trim(textareaValue);
      if message != "" && activeTab == TextTab {
        sent := sent + [TextData(message)];
        textareaValue := "";
        UpdateSendButtonState();
      }
    }

    /** A click on suggestion chip `i`: the textarea holds that suggestion. */
    method ClickSuggestion(i: nat)
      requires Valid() && i < |Suggestions|
      modifies this
      ensures Valid()
      ensures textareaValue == Suggestions[i]
      ensures sendDisabled <==> activeTab != TextTab
      ensures activeTab == old(activeTab) && sent == old(sent)
      ensures RecorderUnchanged()
    {
      textareaValue := Suggestions[i];
      UpdateSendButtonState();
      assert textareaValue[0] != ' ' && !IsWhitespace(textareaValue[0]);
      TrimEmptyIffBlank(textareaValue);
    }

    /**
     * `handleTabClick`: the tab becomes active and the send button follows.
     * Switching to the audio tab while recording stops the recording without
     * sending; switching to the text tab resets the microphone's look and
     * prompt but does not stop a recording.
     */
    method HandleTabClick(tab: Tab, now: int)
      requires Valid()
      modifies this
      ensures Valid()
      ensures activeTab == tab && textareaValue == old(textareaValue) && sendDisabled == SendDisabled(tab, textareaValue)
      ensures sent == old(sent) && nextTimerId == old(nextTimerId)
      ensures recordingStartTime == old(recordingStartTime) && elapsedSeconds == old(elapsedSeconds)
      ensures tab == AudioTab ==> !isRecording && timers == {}
      ensures tab == AudioTab && !old(isRecording) ==> placeholder == old(placeholder) && micButton == old(micButton)
      ensures tab == AudioTab && old(isRecording) ==> placeholder == IdlePrompt && micButton == Mic
      ensures tab == TextTab ==>
                && isRecording == old(isRecording) && timers == old(timers)
                && recordingTimerInterval == old(recordingTimerInterval)
                && placeholder == IdlePrompt && micButton == Mic
    {
      activeTab := tab;
      UpdateSendButtonState();
      if activeTab == AudioTab {
        if isRecording {
          StopRecording(true, now);
        }
      } else {
        micButton := Mic;
        placeholder := IdlePrompt;
      }
    }

    /**
     * `startRecording()`: a no-op while recording; otherwise notes the start
     * instant, shows the `00:00` prompt and starts the one-second timer with
     * its counter at zero.
     */
    method StartRecording(now: int)
      requires Valid()
      modifies this
      ensures Valid()
      ensures old(isRecording) ==> unchanged(this)
      ensures !old(isRecording) ==>
                && isRecording && recordingStartTime == Some(now)
                && recordingTimerInterval == Some(old(nextTimerId)) && timers == {old(nextTimerId)}
                && elapsedSeconds == 0 && micButton == Stop
                && placeholder == RecordingStartPrompt
      ensures sent == old(sent) && activeTab == old(activeTab) && textareaValue == old(textareaValue)
      ensures sendDisabled == old(sendDisabled)
    {
      if !isRecording {
        isRecording := true;
        recordingStartTime := Some(now);
        micButton := Stop;
        placeholder := RecordingStartPrompt;
        elapsedSeconds := 0;
        recordingTimerInterval := Some(nextTimerId);
        timers := {nextTimerId};
        nextTimerId := nextTimerId + 1;
      }
    }

    /** One firing of the recording timer: the counter goes up and the prompt shows it as `MM:SS`. */
    method TimerTick()
      requires Valid() && isRecording
      modifies this
      ensures Valid()
      ensures elapsedSeconds == old(elapsedSeconds) + 1
      ensures placeholder == RecordingLabel(elapsedSeconds)
      ensures isRecording && timers == old(timers) && recordingTimerInterval == old(recordingTimerInterval)
      ensures nextTimerId == old(nextTimerId) && recordingStartTime == old(recordingStartTime)
      ensures textareaValue == old(textareaValue) && activeTab == old(activeTab) && sendDisabled == old(sendDisabled)
      ensures micButton == old(micButton) && sent == old(sent)
    {
      elapsedSeconds := elapsedSeconds + 1;
      var minutes := elapsedSeconds / 60;
      var remainingSeconds := elapsedSeconds % 60;
      placeholder := RecordingPrefix + Clock(minutes, remainingSeconds);
    }

    /**
     * `stopRecording(cancel)`: a no-op unless recording; otherwise clears the
     * timer and, unless cancelled, hands on the recorded file with the fixed
     * 15-second duration (the constant wins over the measured length).
     */
    method StopRecording(cancel: bool, now: int)
      requires Valid()
      modifies this
      ensures Valid()
      ensures !old(isRecording) ==> unchanged(this)
      ensures old(isRecording) ==> !isRecording && recordingTimerInterval == None && timers == {} && micButton == Mic
      ensures old(isRecording) && !cancel ==>
                sent == old(sent) + [AudioData(UserRecordedAudioFile, Some(15.0))] && placeholder == SentPrompt
      ensures old(isRecording) && cancel ==> sent == old(sent) && placeholder == IdlePrompt
      ensures activeTab == old(activeTab) && textareaValue == old(textareaValue) && sendDisabled == old(sendDisabled)
      ensures nextTimerId == old(nextTimerId) && recordingStartTime == old(recordingStartTime)
      ensures elapsedSeconds == old(elapsedSeconds)
    {
      if isRecording {
        isRecording := false;
        timers := {};
        recordingTimerInterval := None;
        micButton := Mic;
        var recordingDurationSeconds := RecordedSeconds(now - recordingStartTime.value);
        if !cancel && recordingDurationSeconds > 0 {
          placeholder := SentPrompt;
          var duration := if UserRecordedMockDuration != 0 then UserRecordedMockDuration else recordingDurationSeconds;
          sent := sent + [AudioData(UserRecordedAudioFile, Some(duration as real))];
        } else {
          placeholder := IdlePrompt;
        }
      }
    }
  }
}
