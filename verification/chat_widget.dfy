/**
 * The widget itself (ChatWidget.js): the open/closed window, the unread
 * counter and its badge, the list of messages, and the assistant's simulated
 * replies. The 3-5 second reply delay is not modelled: `HandleSendMessage`
 * adds the user's message and returns the pending reply, and
 * `DeliverReply` is the delayed callback.
 */
module ChatWidget {
  import opened Wrappers
  import opened Browser
  import opened TimeFormat
  import opened ChatMessage
  import opened InputArea

  const AiTestAudioUrl := "assets/audio/ai-sample.mp3"
  /** The text the assistant answers to when the user sent audio. */
  const AudioPrompt := "На ваше аудиосообщение"

  const GreetingReply := "Привет! Я ваш AI-помощник по продажам. Готов помочь! 🚀"
  const CallReply := "Конечно, я могу помочь с советами по проведению звонков. Что конкретно вам нужно уточнить?"
  const LetterReply := "Да, могу сгенерировать текст письма. Укажите, пожалуйста, тему, получателя и ключевые пункты."
  const ReportReply := "Для какого типа отчета вам нужна помощь? По продажам, аналитике, или что-то другое?"
  const ThanksReply := "Всегда к вашим услугам! Обращайтесь, если что-то еще понадобится."
  const ListeningReply := "Я тут, слушаю внимательно! Что еще могу для вас сделать?"
  const DefaultReply := "К сожалению, я не совсем понял ваш запрос. Можете переформулировать или выбрать подсказку?"

  // ---- generateAiResponse ----

  /** The capitals `LowerChar` maps: Latin A-Z and Cyrillic U+0400-U+042F. */
  predicate IsCapital(c: char) {
    'A' <= c <= 'Z' || 0x400 <= c as int <= 0x42F
  }

  /**
   * `toLowerCase` on one character, for the Latin and Cyrillic capitals;
   * other characters are kept.
   */
  function LowerChar(c: char): (r: char)
    ensures !IsCapital(r)
    ensures !IsCapital(c) ==> r == c
    ensures IsCapital(c) ==> r as int - c as int in {0x20, 0x50}
  {
    if 'A' <= c <= 'Z' then (c as int + 32) as char
    else if 0x410 <= c as int <= 0x42F then (c as int + 0x20) as char
    else if 0x400 <= c as int <= 0x40F then (c as int + 0x50) as char
    else c
  }

  /**
   * `s.toLowerCase()`: the same length, no capital left, every other
   * character kept.
   */
  function Lower(s: string): (r: string)
    ensures |r| == |s| && forall i :: 0 <= i < |s| ==> r[i] == LowerChar(s[i])
    ensures forall i :: 0 <= i < |r| ==> !IsCapital(r[i])
    ensures forall i :: 0 <= i < |s| && !IsCapital(s[i]) ==> r[i] == s[i]
  {
    seq(|s|, i requires 0 <= i < |s| => LowerChar(s[i]))
  }

  /** Lower-casing twice is lower-casing once. */
  lemma LowerIdempotent(s: string)
    ensures Lower(Lower(s)) == Lower(s)
  {
  }

  /** `s.includes(sub)` */
  predicate Contains(s: string, sub: string) {
    sub <= s || (s != [] && Contains(s[1..], sub))
  }

  /** `sub` occurs in `s` starting at index `i`. */
  predicate OccursAt(s: string, sub: string, i: int) {
    0 <= i <= |s| - |sub| && s[i..i + |sub|] == sub
  }

  /** `includes` holds exactly when `sub` occurs in `s` at some index. */
  lemma {:induction false} ContainsIffOccurs(s: string, sub: string)
    ensures Contains(s, sub) <==> exists i :: OccursAt(s, sub, i)
  {
    if sub <= s {
      assert OccursAt(s, sub, 0);
    } else if s == [] {
      assert forall i :: !OccursAt(s, sub, i);
    } else {
      ContainsIffOccurs(s[1..], sub);
      if Contains(s[1..], sub) {
        var i :| OccursAt(s[1..], sub, i);
        assert s[1..][i..i + |sub|] == s[i + 1..i + 1 + |sub|];
        assert OccursAt(s, sub, i + 1);
      }
      if exists i :: OccursAt(s, sub, i) {
        var i :| OccursAt(s, sub, i);
        assert i != 0;
        assert s[1..][i - 1..i - 1 + |sub|] == s[i..i + |sub|];
        assert OccursAt(s[1..], sub, i - 1);
      }
    }
  }

  /**
   * `generateAiResponse`: the lower-cased message is checked against the
   * greeting, call, letter, report and thanks keywords in that order and the
   * first group that matches answers; failing all of them, a message of one
   * to four characters gets the listening reply and any other the default.
   */
  function GenerateAiResponse(userMessage: string): (r: string)
    ensures r in {GreetingReply, CallReply, LetterReply, ReportReply, ThanksReply, ListeningReply, DefaultReply}
    ensures Contains(Lower(userMessage), "привет") ==> r == GreetingReply
    ensures r == ListeningReply ==> 0 < |userMessage| < 5
  {
    var m := Lower(userMessage);
    if Contains(m, "привет") || Contains(m, "здравствуй") then GreetingReply
    else if Contains(m, "звонок") || Contains(m, "позвонить") then CallReply
    else if Contains(m, "письмо") || Contains(m, "написать") then LetterReply
    else if Contains(m, "отчёт") || Contains(m, "отчет") then ReportReply
    else if Contains(m, "спасибо") then ThanksReply
    else if |m| < 5 && |m| > 0 then ListeningReply
    else DefaultReply
  }

  /** The keyword groups and their replies, in the order they are tried. */
  const Rules: seq<(seq<string>, string)> := [
    (["привет", "здравствуй"], GreetingReply),
    (["звонок", "позвонить"], CallReply),
    (["письмо", "написать"], LetterReply),
    (["отчёт", "отчет"], ReportReply),
    (["спасибо"], ThanksReply)
  ]

  predicate ContainsAny(m: string, keywords: seq<string>) {
    exists k :: k in keywords && Contains(m, k)
  }

  /** The reply of the first rule with a keyword in `m`, if any. */
  function FirstMatch(rules: seq<(seq<string>, string)>, m: string): Option<string> {
    if rules == [] then None
    else if ContainsAny(m, rules[0].0) then Some(rules[0].1)
    else FirstMatch(rules[1..], m)
  }

  lemma ContainsAnyOfTwo(m: string, a: string, b: string)
    ensures ContainsAny(m, [a, b]) <==> Contains(m, a) || Contains(m, b)
  {
  }

  lemma ContainsAnyOfOne(m: string, a: string)
    ensures ContainsAny(m, [a]) <==> Contains(m, a)
  {
  }

  /** The first-match search over five rules, unrolled. */
  lemma FirstMatchOfFive(rules: seq<(seq<string>, string)>, m: string)
    requires |rules| == 5
    ensures FirstMatch(rules, m) ==
              if ContainsAny(m, rules[0].0) then Some(rules[0].1)
              else if ContainsAny(m, rules[1].0) then Some(rules[1].1)
              else if ContainsAny(m, rules[2].0) then Some(rules[2].1)
              else if ContainsAny(m, rules[3].0) then Some(rules[3].1)
              else if ContainsAny(m, rules[4].0) then Some(rules[4].1)
              else None
  {
    var r1, r2, r3, r4 := rules[1..], rules[2..], rules[3..], rules[4..];
    assert r1[1..] == r2 && r2[1..] == r3 && r3[1..] == r4 && r4[1..] == [];
    assert r1[0] == rules[1] && r2[0] == rules[2] && r3[0] == rules[3] && r4[0] == rules[4];
    assert FirstMatch(r4, m) == if ContainsAny(m, rules[4].0) then Some(rules[4].1) else None;
    assert FirstMatch(r3, m) == if ContainsAny(m, rules[3].0) then Some(rules[3].1) else FirstMatch(r4, m);
    assert FirstMatch(r2, m) == if ContainsAny(m, rules[2].0) then Some(rules[2].1) else FirstMatch(r3, m);
    assert FirstMatch(r1, m) == if ContainsAny(m, rules[1].0) then Some(rules[1].1) else FirstMatch(r2, m);
  }

  /** The chain of tests in `generateAiResponse` is the first-match search over the rule table. */
  lemma GenerateAiResponseIsFirstMatch(userMessage: string)
    ensures GenerateAiResponse(userMessage) ==
              match FirstMatch(Rules, Lower(userMessage))
              case Some(reply) => reply
              case None => if 0 < |userMessage| < 5 then ListeningReply else DefaultReply
  {
    var m := Lower(userMessage);
    FirstMatchOfFive(Rules, m);
    ContainsAnyOfTwo(m, "привет", "здравствуй");
    ContainsAnyOfTwo(m, "звонок", "позвонить");
    ContainsAnyOfTwo(m, "письмо", "написать");
    ContainsAnyOfTwo(m, "отчёт", "отчет");
    ContainsAnyOfOne(m, "спасибо");
  }

  /** Case does not matter: the reply to a message is the reply to its lower-cased form. */
  lemma GenerateAiResponseIgnoresCase(userMessage: string)
    ensures GenerateAiResponse(Lower(userMessage)) == GenerateAiResponse(userMessage)
  {
    LowerIdempotent(userMessage);
  }

  /** A keyword with a character the message lacks is not contained in it. */
  lemma {:induction false} LackingCharNotContained(s: string, keyword: string, c: char)
    requires c in keyword && c !in s
    ensures !Contains(s, keyword)
  {
    if s != [] {
      LackingCharNotContained(s[1..], keyword, c);
    }
  }

  /** Failing every keyword group, a message of five or more characters gets the default reply. */
  lemma NoKeywordMeansDefault(userMessage: string)
    requires 5 <= |userMessage|
    requires !Contains(Lower(userMessage), "привет") && !Contains(Lower(userMessage), "здравствуй")
    requires !Contains(Lower(userMessage), "звонок") && !Contains(Lower(userMessage), "позвонить")
    requires !Contains(Lower(userMessage), "письмо") && !Contains(Lower(userMessage), "написать")
    requires !Contains(Lower(userMessage), "отчёт") && !Contains(Lower(userMessage), "отчет")
    requires !Contains(Lower(userMessage), "спасибо")
    ensures GenerateAiResponse(userMessage) == DefaultReply
  {
  }

  lemma AudioPromptLowered()
    ensures Lower(AudioPrompt) == "на ваше аудиосообщение"
  {
  }

  lemma AudioPromptLetters(m: string)
    requires m == "на ваше аудиосообщение"
    ensures 'п' !in m && 'з' !in m && 'т' !in m
  {
  }

  /**
   * The text the widget classifies after a user audio message matches no
   * keyword, so the assistant answers every audio message with the reply
   * for a request it did not understand.
   */
  lemma AudioMessageGetsDefaultReply()
    ensures GenerateAiResponse(AudioPrompt) == DefaultReply
  {
    AudioPromptLowered();
    var m := Lower(AudioPrompt);
    AudioPromptLetters(m);
    LackingCharNotContained(m, "привет", 'п');
    LackingCharNotContained(m, "здравствуй", 'з');
    LackingCharNotContained(m, "звонок", 'з');
    LackingCharNotContained(m, "позвонить", 'п');
    LackingCharNotContained(m, "письмо", 'п');
    LackingCharNotContained(m, "написать", 'п');
    LackingCharNotContained(m, "отчёт", 'т');
    LackingCharNotContained(m, "отчет", 'т');
    LackingCharNotContained(m, "спасибо", 'п');
    NoKeywordMeansDefault(AudioPrompt);
  }

  // ---- The reply choice ----

  /** An assistant message with (truthy) text content. */
  predicate IsAiText(m: ChatMessage) {
    m.msgType == Ai && m.content.Some? && m.content.value != ""
  }

  /** `messages.filter(msg => msg.type === 'ai' && msg.content).length` */
  function AiTextCount(messages: seq<ChatMessage>): (n: nat)
    ensures n <= |messages|
    ensures n == 0 <==> forall i :: 0 <= i < |messages| ==> !IsAiText(messages[i])
    ensures n == |messages| <==> forall i :: 0 <= i < |messages| ==> IsAiText(messages[i])
  {
    if messages == [] then 0
    else (if IsAiText(messages[0]) then 1 else 0) + AiTextCount(messages[1..])
  }

  lemma {:induction false} AiTextCountAppend(messages: seq<ChatMessage>, m: ChatMessage)
    ensures AiTextCount(messages + [m]) == AiTextCount(messages) + (if IsAiText(m) then 1 else 0)
  {
    if messages != [] {
      assert (messages + [m])[1..] == messages[1..] + [m];
      AiTextCountAppend(messages[1..], m);
    }
  }

  /** `AiTextCountAppend` for a list known only by its prefix and length. */
  lemma AiTextCountExtend(before: seq<ChatMessage>, after: seq<ChatMessage>)
    requires |after| == |before| + 1 && after[..|before|] == before
    ensures AiTextCount(after) == AiTextCount(before) + (if IsAiText(after[|before|]) then 1 else 0)
  {
  }

  /** The assistant's reply still to be delivered: whether the user sent audio, and the text they sent. */
  datatype PendingReply = PendingReply(isUserAudioMessage: bool, userText: string)

  datatype Reply = TextReply(text: string) | AudioReply

  /**
   * The reply to deliver: text after a user audio message (the reply to the
   * fixed audio prompt, which is always the default one); otherwise text
   * when the number of assistant messages with text is even, audio when it
   * is odd.
   */
  function ChooseReply(messages: seq<ChatMessage>, pending: PendingReply): (r: Reply)
    ensures r.TextReply? <==> pending.isUserAudioMessage || AiTextCount(messages) % 2 == 0
    ensures pending.isUserAudioMessage ==> r == TextReply(DefaultReply)
    ensures !pending.isUserAudioMessage && r.TextReply? ==> r.text == GenerateAiResponse(pending.userText)
  {
    AudioMessageGetsDefaultReply();
    if pending.isUserAudioMessage then TextReply(GenerateAiResponse(AudioPrompt))
    else if AiTextCount(messages) % 2 == 0 then TextReply(GenerateAiResponse(pending.userText))
    else AudioReply
  }

  /**
   * Audio replies carry no text, so they do not change the count the choice
   * depends on: once the count is odd, every reply to a text message is
   * audio until a reply to an audio message adds text.
   */
  lemma AudioReplyKeepsChoice(messages: seq<ChatMessage>, reply: ChatMessage, pending: PendingReply)
    requires reply.content.None?
    requires !pending.isUserAudioMessage
    ensures ChooseReply(messages + [reply], pending) == ChooseReply(messages, pending)
  {
    AiTextCountAppend(messages, reply);
  }

  // ---- The widget ----

  class ChatWidget {
    var messages: seq<ChatMessage>
    var isChatOpen: bool
    var newMessageCounter: nat
    /** Whether the toggle button carries the `has-new-messages` class. */
    var hasNewMessagesBadge: bool
    /** The counter's text. */
    var counterText: string

    /**
     * The counter is zero while the chat is open, its text shows it, and the
     * badge is there exactly when the counter is positive and the chat closed.
     */
    ghost predicate Valid()
      reads this
    {
      && (isChatOpen ==> newMessageCounter == 0)
      && counterText == NatToString(newMessageCounter)
      && (hasNewMessagesBadge <==> newMessageCounter > 0 && !isChatOpen)
    }

    constructor ()
      ensures Valid()
      ensures messages == [] && !isChatOpen && newMessageCounter == 0 && !hasNewMessagesBadge
    {
      messages := [];
      isChatOpen := false;
      newMessageCounter := 0;
      new;
      UpdateNewMessagesCount();
    }

    /** `updateNewMessagesCount()`: the counter text and the badge follow the counter. */
    method UpdateNewMessagesCount()
      modifies this`counterText, this`hasNewMessagesBadge
      ensures counterText == NatToString(newMessageCounter)
      ensures hasNewMessagesBadge <==> newMessageCounter > 0 && !isChatOpen
    {
      counterText := NatToString(newMessageCounter);
      hasNewMessagesBadge := newMessageCounter > 0 && !isChatOpen;
    }

    /** `toggleChat()`: opens a closed chat, resetting the counter, and closes an open one. */
    method ToggleChat()
      requires Valid()
      modifies this
      ensures Valid()
      ensures isChatOpen == !old(isChatOpen)
      ensures isChatOpen ==> newMessageCounter == 0 && !hasNewMessagesBadge
      ensures !isChatOpen ==> newMessageCounter == old(newMessageCounter) && hasNewMessagesBadge == old(hasNewMessagesBadge)
      ensures messages == old(messages)
    {
      isChatOpen := !isChatOpen;
      if isChatOpen {
        newMessageCounter := 0;
        UpdateNewMessagesCount();
      }
    }

    /** `openChat()`: opens the chat; a no-op when it is open already. */
    method OpenChat()
      requires Valid()
      modifies this
      ensures Valid()
      ensures isChatOpen && newMessageCounter == 0 && messages == old(messages)
      ensures old(isChatOpen) ==> unchanged(this)
    {
      if !isChatOpen {
        ToggleChat();
      }
    }

    /** `closeChat()` (close button or Escape): closes the chat; a no-op when it is closed already. */
    method CloseChat()
      requires Valid()
      modifies this
      ensures Valid()
      ensures !isChatOpen && newMessageCounter == old(newMessageCounter) && messages == old(messages)
      ensures !old(isChatOpen) ==> unchanged(this)
    {
      if isChatOpen {
        ToggleChat();
      }
    }

    /**
     * `addMessage`: appends exactly one new message, and counts it as unread
     * exactly when it is the assistant's and the chat is closed.
     */
    method AddMessage(msgType: MessageType, content: Option<string>, audioUrl: Option<string>, audioDuration: Option<real>)
      requires Valid()
      modifies this
      ensures Valid()
      ensures |messages| == |old(messages)| + 1 && messages[..|old(messages)|] == old(messages)
      ensures fresh(messages[|old(messages)|])
      ensures messages[|old(messages)|].msgType == msgType && messages[|old(messages)|].content == content
      ensures messages[|old(messages)|].audioUrl == audioUrl && messages[|old(messages)|].audioDuration == audioDuration
      ensures !messages[|old(messages)|].audioPlaying && messages[|old(messages)|].timers == {}
      ensures newMessageCounter == old(newMessageCounter) + (if !isChatOpen && msgType == Ai then 1 else 0)
      ensures isChatOpen == old(isChatOpen)
    {
      var message := new ChatMessage.Corrected(msgType, content, audioUrl, audioDuration);
      messages := messages + [message];
      if !isChatOpen && msgType == Ai {
        newMessageCounter := newMessageCounter + 1;
        UpdateNewMessagesCount();
      }
    }

    /**
     * `handleSendMessage`: a text, or an audio message with a URL, becomes
     * the user's message; either way a reply is pending, and it remembers
     * whether the user sent audio.
     */
    method HandleSendMessage(data: MessageData) returns (pending: PendingReply)
      requires Valid()
      modifies this
      ensures Valid()
      ensures data.TextData? ==>
                && |messages| == |old(messages)| + 1
                && messages[|old(messages)|].msgType == User
                && messages[|old(messages)|].content == Some(data.text)
                && messages[|old(messages)|].audioUrl == None && messages[|old(messages)|].audioDuration == None
                && pending == PendingReply(false, data.text)
      ensures data.AudioData? && data.audioUrl != "" ==>
                && |messages| == |old(messages)| + 1
                && messages[|old(messages)|].msgType == User
                && messages[|old(messages)|].content == None
                && messages[|old(messages)|].audioUrl == Some(data.audioUrl)
                && messages[|old(messages)|].audioDuration == data.audioDuration
                && pending == PendingReply(true, "")
      ensures data.AudioData? && data.audioUrl == "" ==> messages == old(messages) && pending == PendingReply(false, "")
      ensures messages[..|old(messages)|] == old(messages)
      ensures |messages| > |old(messages)| ==>
                && fresh(messages[|old(messages)|])
                && !messages[|old(messages)|].audioPlaying && messages[|old(messages)|].timers == {}
      ensures newMessageCounter == old(newMessageCounter) && isChatOpen == old(isChatOpen)
    {
      match data
      case TextData(text) =>
        AddMessage(User, Some(text), None, None);
        pending := PendingReply(false, text);
      case AudioData(url, duration) =>
        if url != "" {
          AddMessage(User, None, Some(url), duration);
          pending := PendingReply(true, "");
        } else {
          pending := PendingReply(false, "");
        }
    }

    /**
     * The delayed reply: one assistant message, with text or with the test
     * audio as `ChooseReply` decides from the messages present at that time.
     */
    method DeliverReply(pending: PendingReply) returns (reply: Reply)
      requires Valid()
      modifies this
      ensures Valid()
      ensures reply == ChooseReply(old(messages), pending)
      ensures |messages| == |old(messages)| + 1 && messages[..|old(messages)|] == old(messages)
      ensures messages[|old(messages)|].msgType == Ai && fresh(messages[|old(messages)|])
      ensures !messages[|old(messages)|].audioPlaying && messages[|old(messages)|].timers == {}
      ensures reply.TextReply? ==>
                && messages[|old(messages)|].content == Some(reply.text)
                && messages[|old(messages)|].audioUrl == None && messages[|old(messages)|].audioDuration == None
      ensures reply.AudioReply? ==>
                && messages[|old(messages)|].content == None && messages[|old(messages)|].audioUrl == Some(AiTestAudioUrl)
                && messages[|old(messages)|].audioDuration == None
      ensures newMessageCounter == old(newMessageCounter) + (if isChatOpen then 0 else 1)
      ensures isChatOpen == old(isChatOpen)
    {
      reply := ChooseReply(messages, pending);
      match reply
      case TextReply(text) =>
        AddMessage(Ai, Some(text), None, None);
      case AudioReply =>
        AddMessage(Ai, None, Some(AiTestAudioUrl), None);
    }
  }

  // ---- Consequences shown on concrete runs ----

  /**
   * As written, an audio reply never plays: its message holds no media
   * element, so its metadata listener changes nothing, and a toggle finds no
   * duration to simulate.
   */
  method AsWrittenAudioReplyNeverPlays() returns (playing: bool, duration: Option<real>)
    ensures !playing && duration == None
  {
    var m := new ChatMessage.AsWritten(Ai, None, Some(AiTestAudioUrl), None);
    m.OnLoadedMetadata(3.0);
    m.ToggleAudioPlay(0.0);
    playing, duration := m.audioPlaying, m.audioDuration;
  }

  /**
   * With the element kept, an audio reply plays on the real path once its
   * metadata is loaded: the toggle asks the engine to play.
   */
  method CorrectedAudioReplyPlays() returns (playing: bool, ghost asked: seq<MediaRequest>)
    ensures playing && asked == [PlayRequest]
  {
    var m := new ChatMessage.Corrected(Ai, None, Some(AiTestAudioUrl), None);
    m.OnLoadedMetadata(3.0);
    m.ToggleAudioPlay(0.0);
    playing := m.audioPlaying;
    asked := m.requests;
  }

  /**
   * A recorded message has a real URL and a preset duration; until its
   * element's metadata is loaded, a toggle takes the simulated path and
   * starts a timer instead of asking the engine to play.
   */
  method RecordedMessageSimulatesUntilMetadata() returns (playing: bool, simulated: bool, ghost asked: seq<MediaRequest>)
    ensures playing && simulated && asked == []
  {
    var m := new ChatMessage.Corrected(User, None, Some(UserRecordedAudioFile), Some(15.0));
    m.ToggleAudioPlay(0.0);
    playing, simulated := m.audioPlaying, m.progressBarInterval.Some?;
    asked := m.requests;
  }

  /**
   * The comment at the reply choice speaks of alternating text and audio,
   * but audio replies carry no text: three text messages in a row get a
   * text reply and then two audio replies, whatever they say.
   */
  method RepliesStayAudio(a: string, b: string, c: string) returns (first: Reply, second: Reply, third: Reply)
    ensures first.TextReply? && second == AudioReply && third == AudioReply
  {
    var w := new ChatWidget();
    var p := w.HandleSendMessage(TextData(a));
    AiTextCountExtend([], w.messages);
    assert AiTextCount(w.messages) == 0;
    var before := w.messages;
    first := w.DeliverReply(p);
    assert first.text in {GreetingReply, CallReply, LetterReply, ReportReply, ThanksReply, ListeningReply, DefaultReply};
    assert IsAiText(w.messages[|before|]);
    AiTextCountExtend(before, w.messages);
    assert AiTextCount(w.messages) == 1;
    before := w.messages;
    p := w.HandleSendMessage(TextData(b));
    AiTextCountExtend(before, w.messages);
    assert AiTextCount(w.messages) == 1;
    before := w.messages;
    second := w.DeliverReply(p);
    AiTextCountExtend(before, w.messages);
    assert AiTextCount(w.messages) == 1;
    before := w.messages;
    p := w.HandleSendMessage(TextData(c));
    AiTextCountExtend(before, w.messages);
    assert AiTextCount(w.messages) == 1;
    third := w.DeliverReply(p);
  }
}
