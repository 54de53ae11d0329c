/**
 * The chat page: the keyword mood score of a user message, the canned reply
 * chosen from it, the message list the page appends to, and the mood the
 * "save mood" button reports.
 */
module Chat {
  import opened Wrappers
  import opened Seqs
  import opened Numbers
  import opened Text
  import opened Language

  const PositiveWords: seq<string> := ["happy", "good", "great", "wonderful", "excited", "ดี", "สุข", "ดีใจ", "มีความสุข"]
  const NegativeWords: seq<string> := ["sad", "bad", "terrible", "depressed", "angry", "เศร้า", "แย่", "โกรธ", "หงุดหงิด"]

  /** `text.toLowerCase().split(' ')`. */
  function Words(text: string): seq<string> {
    Split(ToLower(text), ' ')
  }

  /** How one word moves the score: +1 if listed as positive, -1 if listed as negative. */
  function WordEffect(word: string): int {
    (if word in PositiveWords then 1 else 0) - (if word in NegativeWords then 1 else 0)
  }

  /** The combined effect of the words, taken in order. */
  function Effect(words: seq<string>): int
    decreases |words|
  {
    if words == [] then 0 else Effect(words[..|words| - 1]) + WordEffect(words[|words| - 1])
  }

  /** `Math.max(1, Math.min(10, score))`. */
  function Clamp(score: int): (r: int)
    ensures 1 <= r <= 10
    ensures 1 <= score <= 10 ==> r == score
    ensures score < 1 ==> r == 1
    ensures score > 10 ==> r == 10
  {
    if score < 1 then 1 else if score > 10 then 10 else score
  }

  /** `analyzeMood`: 5 moved by every listed word, clamped to [1, 10]. */
  function MoodScore(text: string): (r: int)
    ensures 1 <= r <= 10
  {
    Clamp(5 + Effect(Words(text)))
  }

  /** `analyzeMood` as written: a loop over the words updating `score`, clamped at the end. */
  method AnalyzeMood(text: string) returns (score: int)
    ensures score == MoodScore(text)
    ensures 1 <= score <= 10
  {
    var words := Words(text);
    score := 5;
    var i := 0;
    while i < |words|
      invariant 0 <= i <= |words|
      invariant score == 5 + Effect(words[..i])
    {
      var word := words[i];
      assert Effect(words[..i + 1]) == Effect(words[..i]) + WordEffect(word) by {
        assert words[..i + 1][..i] == words[..i];
      }
      if word in PositiveWords {
        score := score + 1;
      }
      if word in NegativeWords {
        score := score - 1;
      }
      i := i + 1;
    }
    assert words[..i] == words;
    score := Clamp(score);
  }

  /** No word is on both lists. */
  lemma KeywordListsDisjoint()
    ensures forall w :: w in PositiveWords ==> w !in NegativeWords
  {
  }

  /** So a positive word adds exactly one, a negative word takes exactly one, and any other word nothing. */
  lemma WordEffectCases(word: string)
    ensures word in PositiveWords ==> WordEffect(word) == 1
    ensures word in NegativeWords ==> WordEffect(word) == -1
    ensures word !in PositiveWords && word !in NegativeWords ==> WordEffect(word) == 0
  {
    KeywordListsDisjoint();
  }

  /** Before clamping, the score moves by at most one per word. */
  lemma {:induction false} EffectBounded(words: seq<string>)
    ensures -|words| <= Effect(words) <= |words|
    decreases |words|
  {
    if words != [] {
      EffectBounded(words[..|words| - 1]);
      WordEffectCases(words[|words| - 1]);
    }
  }

  /** Text without any listed word scores exactly 5. */
  lemma {:induction false} NoKeywordsNeutral(words: seq<string>)
    requires forall i :: 0 <= i < |words| ==> words[i] !in PositiveWords && words[i] !in NegativeWords
    ensures Effect(words) == 0
    decreases |words|
  {
    if words != [] {
      NoKeywordsNeutral(words[..|words| - 1]);
    }
  }

  lemma NoKeywordsScoresFive(text: string)
    requires forall w :: w in Words(text) ==> w !in PositiveWords && w !in NegativeWords
    ensures MoodScore(text) == 5
  {
    NoKeywordsNeutral(Words(text));
  }

  /** The effect of a message is the effect of its parts added up. */
  lemma {:induction false} EffectAppend(a: seq<string>, b: seq<string>)
    ensures Effect(a + b) == Effect(a) + Effect(b)
    decreases |b|
  {
    if b == [] {
      assert a + b == a;
    } else {
      var ab := a + b;
      assert ab[..|ab| - 1] == a + b[..|b| - 1];
      EffectAppend(a, b[..|b| - 1]);
    }
  }

  /** "happy" alone scores 6. */
  lemma HappyScoresSix()
    ensures MoodScore("happy") == 6
  {
    var lowered := ToLower("happy");
    assert lowered == "happy";
    SplitFree("happy", ' ');
    assert Words("happy") == ["happy"];
    assert Effect(["happy"]) == Effect([]) + WordEffect("happy");
  }

  /** The three bands the reply is chosen by. */
  datatype MoodBand = Upbeat | Middling | Low

  function Band(score: int): (b: MoodBand)
    ensures b == Upbeat <==> score >= 7
    ensures b == Low <==> score <= 3
  {
    if score >= 7 then Upbeat else if score >= 4 then Middling else Low
  }

  /** The six canned replies. */
  const ThaiUpbeatReply := "ดีใจที่ได้ยินว่าคุณรู้สึกดี! คุณต้องการทำสมาธิสั้นๆ เพื่อรักษาอารมณ์ดีนี้ไว้ไหมคะ?"
  const ThaiMiddlingReply := "เข้าใจความรู้สึกของคุณค่ะ บางทีการหายใจลึกๆ 5 นาที อาจจะช่วยให้คุณรู้สึกดีขึ้น ลองไหมคะ?"
  const ThaiLowReply := "ฉันเข้าใจว่าคุณรู้สึกหนักใจ อยากลองทำกิจกรรมผ่อนคลายหรือพูดคุยกับนักจิตวิทยาไหมคะ?"
  const EnglishUpbeatReply := "I'm glad to hear you're feeling good! Would you like to do a short meditation to maintain this positive mood?"
  const EnglishMiddlingReply := "I understand how you're feeling. Perhaps a 5-minute breathing exercise could help you feel better. Would you like to try?"
  const EnglishLowReply := "I can see you're going through a tough time. Would you like to try a relaxation activity or speak with a therapist?"

  /** `generateAIResponse`: one fixed reply per band and language. */
  function AIResponse(language: Language, score: int): (r: string)
    ensures language == Th ==> r in {ThaiUpbeatReply, ThaiMiddlingReply, ThaiLowReply}
    ensures language == En ==> r in {EnglishUpbeatReply, EnglishMiddlingReply, EnglishLowReply}
    ensures score >= 7 ==> r in {ThaiUpbeatReply, EnglishUpbeatReply}
    ensures 4 <= score < 7 ==> r in {ThaiMiddlingReply, EnglishMiddlingReply}
    ensures score <= 3 ==> r in {ThaiLowReply, EnglishLowReply}
  {
    match (language, Band(score))
    case (Th, Upbeat) => ThaiUpbeatReply
    case (Th, Middling) => ThaiMiddlingReply
    case (Th, Low) => ThaiLowReply
    case (En, Upbeat) => EnglishUpbeatReply
    case (En, Middling) => EnglishMiddlingReply
    case (En, Low) => EnglishLowReply
  }

  /** The three replies of each language are different texts. */
  lemma RepliesDistinct()
    ensures ThaiUpbeatReply != ThaiMiddlingReply && ThaiUpbeatReply != ThaiLowReply &&
            ThaiMiddlingReply != ThaiLowReply
    ensures EnglishUpbeatReply != EnglishMiddlingReply && EnglishUpbeatReply != EnglishLowReply &&
            EnglishMiddlingReply != EnglishLowReply
  {
    assert |ThaiUpbeatReply| == 82 && |ThaiMiddlingReply| == 88 && |ThaiLowReply| == 82;
    assert ThaiUpbeatReply[75] != ThaiLowReply[75];
    assert |EnglishUpbeatReply| == 109 && |EnglishMiddlingReply| == 121 && |EnglishLowReply| == 115;
  }

  /**
   * Both languages split scores at the same thresholds: two scores get the
   * same Thai reply exactly when they get the same English reply, exactly
   * when they fall in the same band.
   */
  lemma ResponsesFollowBands(s1: int, s2: int)
    ensures AIResponse(Th, s1) == AIResponse(Th, s2) <==> Band(s1) == Band(s2)
    ensures AIResponse(En, s1) == AIResponse(En, s2) <==> Band(s1) == Band(s2)
  {
    RepliesDistinct();
  }

  /** `Message`; `timestamp` is the clock reading, `id` the clock reading in decimal. */
  datatype Message = Message(id: string, text: string, isUser: bool, timestamp: nat, moodScore: Option<int>)

  /** A reply whose mood score is present and non-zero (a truthy `moodScore`). */
  predicate IsScored(m: Message) {
    !m.isUser && m.moodScore.Some? && m.moodScore.value != 0
  }

  /** `handleSaveMood`: the score of the last scored reply, when there is one. */
  function SavedMood(messages: seq<Message>): (r: Option<int>)
    ensures r.Some? ==> r.value != 0
    ensures r.Some? ==> exists m :: m in messages && IsScored(m) && m.moodScore.value == r.value
  {
    var scored := Filter(IsScored, messages);
    if scored == [] then None else Some(scored[|scored| - 1].moodScore.value)
  }

  /** Appending a message: a scored reply becomes the saved mood, anything else leaves it. */
  lemma SavedMoodSnoc(messages: seq<Message>, m: Message)
    ensures SavedMood(messages + [m]) == if IsScored(m) then Some(m.moodScore.value) else SavedMood(messages)
  {
    FilterAppend(IsScored, messages, [m]);
    assert [m][1..] == [];
  }

  /** Nothing is saved exactly when no reply is scored. */
  lemma {:induction false} SavedMoodNone(messages: seq<Message>)
    ensures SavedMood(messages).None? <==> forall i :: 0 <= i < |messages| ==> !IsScored(messages[i])
    decreases |messages|
  {
    if messages != [] {
      var n := |messages| - 1;
      assert messages == messages[..n] + [messages[n]];
      SavedMoodSnoc(messages[..n], messages[n]);
      SavedMoodNone(messages[..n]);
      assert forall i :: 0 <= i < n ==> messages[i] == messages[..n][i];
    }
  }

  /** When reply `i` is the last scored one, its score is the one saved. */
  lemma {:induction false} SavedMoodIsLast(messages: seq<Message>, i: nat)
    requires i < |messages| && IsScored(messages[i])
    requires forall j :: i < j < |messages| ==> !IsScored(messages[j])
    ensures SavedMood(messages) == Some(messages[i].moodScore.value)
    decreases |messages|
  {
    var n := |messages| - 1;
    var init := messages[..n];
    assert messages == init + [messages[n]];
    SavedMoodSnoc(init, messages[n]);
    if i < n {
      assert forall j :: i < j < n ==> init[j] == messages[j];
      SavedMoodIsLast(init, i);
    }
  }

  /** The greeting the page opens with. */
  const ThaiGreeting := "สวัสดีค่ะ! ฉันพร้อมจะรับฟังและช่วยเหลือคุณ วันนี้คุณรู้สึกอย่างไรบ้างคะ?"
  const EnglishGreeting := "Hello! I'm here to listen and help. How are you feeling today?"

  function Greeting(language: Language): string {
    match language
    case Th => ThaiGreeting
    case En => EnglishGreeting
  }

  /**
   * The page's state; `language` is the context's current language. The
   * reply that `setTimeout` delivers is a separate step, given the text and
   * the language its closure captured when the message was sent.
   */
  class ChatPage {
    var language: Language
    var messages: seq<Message>
    var inputText: string
    var isTyping: bool

    constructor (language: Language, now: nat)
      ensures this.language == language
      ensures messages == [Message("1", Greeting(language), false, now, None)]
      ensures inputText == "" && !isTyping
    {
      this.language := language;
      messages := [Message("1", Greeting(language), false, now, None)];
      inputText := "";
      isTyping := false;
    }

    method SetInputText(text: string)
      modifies this
      ensures inputText == text && messages == old(messages) && isTyping == old(isTyping)
      ensures language == old(language)
    {
      inputText := text;
    }

    /** The language context changes while the page is open; the greeting already shown stays. */
    method SetLanguage(l: Language)
      modifies this
      ensures language == l
      ensures messages == old(messages) && inputText == old(inputText) && isTyping == old(isTyping)
    {
      language := l;
    }

    /**
     * `handleSendMessage`: blank input is ignored; otherwise the text is
     * appended as one user message, the input cleared and typing shown.
     * `sent` is what the delayed reply captures: the text it will analyse
     * and the language of the render that sent it.
     */
    method HandleSendMessage(now: nat) returns (sent: Option<(string, Language)>)
      modifies this
      ensures IsBlank(old(inputText)) ==>
                sent.None? && messages == old(messages) && inputText == old(inputText) && isTyping == old(isTyping)
      ensures !IsBlank(old(inputText)) ==>
                sent == Some((old(inputText), language)) &&
                messages == old(messages) + [Message(NatToString(now), old(inputText), true, now, None)] &&
                inputText == "" && isTyping
      ensures language == old(language)
    {
      if IsBlank(inputText) {
        return None;
      }
      sent := Some((inputText, language));
      messages := messages + [Message(NatToString(now), inputText, true, now, None)];
      inputText := "";
      isTyping := true;
    }

    /**
     * The delayed part of `handleSendMessage`: the reply, in the language
     * captured at sending even if the context has changed since, is appended
     * with its score, and typing ends.
     */
    method DeliverAIResponse(userText: string, sentLanguage: Language, now: nat)
      modifies this
      ensures var score := MoodScore(userText);
              messages == old(messages) +
                [Message(NatToString(now + 1), AIResponse(sentLanguage, score), false, now, Some(score))]
      ensures inputText == old(inputText) && !isTyping && language == old(language)
    {
      var score := AnalyzeMood(userText);
      var reply := AIResponse(sentLanguage, score);
      messages := messages + [Message(NatToString(now + 1), reply, false, now, Some(score))];
      isTyping := false;
    }

    /** `handleSaveMood`: the mood reported, if any; nothing changes. */
    method HandleSaveMood() returns (saved: Option<int>)
      ensures saved == SavedMood(messages)
    {
      saved := SavedMood(messages);
    }
  }

  /** A reply keeps the language of the moment the message was sent, even after the context switches. */
  method ReplyKeepsSendLanguage() returns (reply: string)
    ensures reply == ThaiMiddlingReply
  {
    var page := new ChatPage(Th, 0);
    page.SetInputText("happy");
    assert !IsBlank("happy") by { assert "happy"[0] != ' '; }
    var sent := page.HandleSendMessage(1);
    page.SetLanguage(En);
    assert sent == Some(("happy", Th));
    page.DeliverAIResponse(sent.value.0, sent.value.1, 2);
    HappyScoresSix();
    reply := page.messages[|page.messages| - 1].text;
  }
}
