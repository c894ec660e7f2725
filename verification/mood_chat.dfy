/**
 * The supportive chat page: the keyword mood classifier, the canned reply
 * chosen for a mood, and the send guard that turns the input box into a user
 * message followed (after a simulated delay) by a reply tagged with the mood.
 */
module MoodChat {
  import opened Wrappers
  import Text
  import LanguageContext
  import Meditation

  // ---------------------------------------------------------------------------
  // Mood classifier
  // ---------------------------------------------------------------------------

  datatype Mood = Happy | Neutral | Sad | Stressed

  const HappyWords: seq<string> :=
    ["happy", "good", "great", "excellent", "wonderful", "amazing", "ดีใจ", "มีความสุข", "ดี", "เยี่ยม"]
  const SadWords: seq<string> :=
    ["sad", "depressed", "down", "awful", "terrible", "เศร้า", "หดหู่", "แย่", "ไม่ดี"]
  const StressWords: seq<string> :=
    ["stressed", "anxious", "worried", "overwhelmed", "เครียด", "วิตกกังวล", "กังวล", "ท้อ"]

  /** Some word of the list occurs somewhere in the text. */
  ghost predicate MentionsAny(text: string, words: seq<string>) {
    exists i :: 0 <= i < |words| && Text.Contains(text, words[i])
  }

  /** `words.some(word => text.includes(word))`, scanning the list front to back. */
  predicate SomeIncluded(text: string, words: seq<string>)
    decreases |words|
  {
    |words| > 0 && (Text.Contains(text, words[0]) || SomeIncluded(text, words[1..]))
  }

  lemma {:induction false} SomeIncludedIff(text: string, words: seq<string>)
    ensures SomeIncluded(text, words) <==> MentionsAny(text, words)
    decreases |words|
  {
    if |words| > 0 {
      SomeIncludedIff(text, words[1..]);
      if MentionsAny(text, words[1..]) {
        var i :| 0 <= i < |words[1..]| && Text.Contains(text, words[1..][i]);
        assert Text.Contains(text, words[i + 1]);
      }
      if MentionsAny(text, words) && !Text.Contains(text, words[0]) {
        var i :| 0 <= i < |words| && Text.Contains(text, words[i]);
        assert i > 0 && words[1..][i - 1] == words[i];
      }
    }
  }

  /** `analyzeMood`: the lower-cased message is checked against the stress,
      sad and happy lists in that order, and the first list with a hit wins. */
  function AnalyzeMood(message: string): (r: Mood)
    ensures var m := Text.Lower(message);
      r == Stressed <==> MentionsAny(m, StressWords)
    ensures var m := Text.Lower(message);
      r == Sad <==> !MentionsAny(m, StressWords) && MentionsAny(m, SadWords)
    ensures var m := Text.Lower(message);
      r == Happy <==> !MentionsAny(m, StressWords) && !MentionsAny(m, SadWords) && MentionsAny(m, HappyWords)
    ensures var m := Text.Lower(message);
      r == Neutral <==> !MentionsAny(m, StressWords) && !MentionsAny(m, SadWords) && !MentionsAny(m, HappyWords)
  {
    var m := Text.Lower(message);
    SomeIncludedIff(m, StressWords);
    SomeIncludedIff(m, SadWords);
    SomeIncludedIff(m, HappyWords);
    if SomeIncluded(m, StressWords) then Stressed
    else if SomeIncluded(m, SadWords) then Sad
    else if SomeIncluded(m, HappyWords) then Happy
    else Neutral
  }

  /** A stress word decides the mood whatever else the message says. */
  lemma StressWins(message: string, i: nat)
    requires i < |StressWords| && Text.Contains(Text.Lower(message), StressWords[i])
    ensures AnalyzeMood(message) == Stressed
  {
  }

  /** Classification ignores letter case: lower-casing first changes nothing. */
  lemma AnalyzeMoodCaseInsensitive(message: string)
    ensures AnalyzeMood(Text.Lower(message)) == AnalyzeMood(message)
  {
    Text.LowerIdempotent(message);
  }

  /** No stress word occurs in "ไม่ดี". */
  lemma NotGoodIsCalm()
    ensures !MentionsAny("ไม่ดี", StressWords)
  {
    var m := "ไม่ดี";
    Text.NotContainsByHead(m, StressWords[6]);
    Text.NotContainsByHead(m, StressWords[7]);
    assert !SomeIncluded(m, StressWords);
    SomeIncludedIff(m, StressWords);
  }

  /** "ไม่ดี" ("not good") contains the happy word "ดี" but is read as sad,
      because the sad list is consulted before the happy one. */
  lemma NotGoodIsSad()
    ensures Text.Contains("ไม่ดี", "ดี")
    ensures AnalyzeMood("ไม่ดี") == Sad
  {
    var m := "ไม่ดี";
    Text.LowerFixesLowercase(m);
    NotGoodIsCalm();
    assert Text.IsPrefix(SadWords[8], m);
    assert Text.Contains(m, SadWords[8]);
    assert Text.IsPrefix("ดี", m[3..]);
    assert Text.Contains(m[3..], "ดี");
  }

  // ---------------------------------------------------------------------------
  // Reply selection
  // ---------------------------------------------------------------------------

  /** The key a mood has in the reply tables. */
  function MoodKey(m: Mood): string {
    match m
    case Happy => "happy"
    case Neutral => "neutral"
    case Sad => "sad"
    case Stressed => "stressed"
  }

  const EnHappy1: string := "That's wonderful to hear! 😊 Your positive energy is beautiful. Would you like to do a gratitude meditation to amplify these good feelings?"
  const EnHappy2: string := "I'm so glad you're feeling good! ✨ Happiness looks great on you. How about we do some breathing exercises to maintain this positive state?"
  const EnNeutral1: string := "Thank you for sharing with me. Sometimes neutral is exactly where we need to be. Would you like to explore what's on your mind?"
  const EnNeutral2: string := "I appreciate your honesty. Neutral feelings are valid too. Shall we try a mindfulness exercise together?"
  const EnSad1: string := "I hear you, and I want you to know that it's okay to feel this way. 💙 You're not alone. Would you like to try a gentle breathing exercise?"
  const EnSad2: string := "Your feelings are valid, and I'm here with you. Sometimes sadness needs to be felt. Shall we do a compassionate meditation together?"
  const EnStressed1: string := "You seem stressed. That sounds really challenging. 💚 Would you like to try a 5-minute breathing exercise to help calm your mind?"
  const EnStressed2: string := "I can sense the stress in your words. Let's take this one breath at a time. Shall we do a quick stress-relief meditation?"
  const ThHappy1: string := "ดีใจด้วยค่ะ! 😊 พลังงานบวกของคุณช่างงดงาม อยากลองทำสมาธิแห่งความกตัญญูเพื่อเพิ่มความรู้สึกดีๆ นี้ไหมคะ?"
  const ThHappy2: string := "ยินดีมากที่คุณรู้สึกดี! ✨ ความสุขเข้ากับคุณมาก ลองทำกิจกรรมหายใจเพื่อรักษาสภาวะบวกนี้ไว้ไหมคะ?"
  const ThNeutral1: string := "ขอบคุณที่แบ่งปันกับฉันค่ะ บางครั้งความรู้สึกเป็นกลางก็คือสิ่งที่เราต้องการ อยากสำรวจว่าอะไรอยู่ในใจคุณไหมคะ?"
  const ThNeutral2: string := "ขอบคุณสำหรับความจริงใจ ความรู้สึกเป็นกลางก็มีค่าเช่นกัน ลองทำกิจกรรมสติด้วยกันไหมคะ?"
  const ThSad1: string := "ฉันเข้าใจคุณ และอยากให้คุณรู้ว่าการรู้สึกแบบนี้เป็นเรื่องปกติ 💙 คุณไม่ได้อยู่คนเดียว อยากลองทำกิจกรรมหายใจเบาๆ ไหมคะ?"
  const ThSad2: string := "ความรู้สึกของคุณมีค่า และฉันอยู่ที่นี่กับคุณ บางครั้งความเศร้าต้องให้มันผ่านไป ลองทำสมาธิเมตตาด้วยกันไหมคะ?"
  const ThStressed1: string := "คุณดูเครียดนะคะ ฟังดูท้าทายมาก 💚 อยากลองกิจกรรมหายใจ 5 นาทีเพื่อช่วยทำใจให้สงบไหมคะ?"
  const ThStressed2: string := "ฉันรู้สึกได้ถึงความเครียดจากคำพูดของคุณ มาทำทีละลมหายใจกันเถอะ ลองทำสมาธิบรรเทาความเครียดไหมคะ?"

  /** The English replies for a mood. */
  function EnglishReplies(m: Mood): (r: seq<string>)
    ensures |r| == 2 && r[0] != "" && r[1] != ""
  {
    match m
    case Happy => [EnHappy1, EnHappy2]
    case Neutral => [EnNeutral1, EnNeutral2]
    case Sad => [EnSad1, EnSad2]
    case Stressed => [EnStressed1, EnStressed2]
  }

  /** The Thai replies for a mood. */
  function ThaiReplies(m: Mood): (r: seq<string>)
    ensures |r| == 2 && r[0] != "" && r[1] != ""
  {
    match m
    case Happy => [ThHappy1, ThHappy2]
    case Neutral => [ThNeutral1, ThNeutral2]
    case Sad => [ThSad1, ThSad2]
    case Stressed => [ThStressed1, ThStressed2]
  }

  /** The two canned replies for a mood in a language. */
  function Replies(lang: LanguageContext.Lang, m: Mood): (r: seq<string>)
    ensures |r| == 2 && r[0] != "" && r[1] != ""
  {
    if lang.Th? then ThaiReplies(m) else EnglishReplies(m)
  }

  /** `responses[language][mood] || responses[language].neutral`: a mood key
      the table does not know falls back to the neutral replies. */
  function ReplyList(lang: LanguageContext.Lang, key: string): (r: seq<string>)
    ensures |r| == 2
    ensures key !in {"happy", "sad", "stressed"} ==> r == Replies(lang, Neutral)
  {
    if key == "happy" then Replies(lang, Happy)
    else if key == "sad" then Replies(lang, Sad)
    else if key == "stressed" then Replies(lang, Stressed)
    else Replies(lang, Neutral)
  }

  /** The classifier only produces keys the table knows, so the fallback never
      replaces a detected mood. */
  lemma {:induction false} ReplyListOfMood(lang: LanguageContext.Lang, m: Mood)
    ensures ReplyList(lang, MoodKey(m)) == Replies(lang, m)
  {
    match m
    case Happy =>
    case Neutral =>
    case Sad =>
    case Stressed =>
  }

  /** `generateAIResponse`: `draw` stands for `Math.floor(Math.random() * n)`,
      which always lies in `[0, n)` for the `n` replies available. */
  function GenerateReply(lang: LanguageContext.Lang, key: string, draw: nat): (r: string)
    requires draw < |ReplyList(lang, key)|
    ensures r in ReplyList(lang, key)
    ensures r != ""
  {
    ReplyList(lang, key)[draw]
  }

  /** Every reply drawn for a detected mood is one of that mood's replies. */
  lemma ReplyFitsMood(lang: LanguageContext.Lang, m: Mood, draw: nat)
    requires draw < 2
    ensures draw < |ReplyList(lang, MoodKey(m))|
    ensures GenerateReply(lang, MoodKey(m), draw) in Replies(lang, m)
  {
    ReplyListOfMood(lang, m);
  }

  // ---------------------------------------------------------------------------
  // Mood badge and suggested action
  // ---------------------------------------------------------------------------

  /** `getMoodIcon`: anything but the three named moods shows the neutral face. */
  function MoodIcon(m: Option<Mood>): (r: string)
    ensures m == Some(Happy) <==> r == "😊"
    ensures m == Some(Sad) <==> r == "😢"
    ensures m == Some(Stressed) <==> r == "😰"
    ensures m.None? || m == Some(Neutral) <==> r == "😐"
  {
    match m
    case Some(Happy) => "😊"
    case Some(Sad) => "😢"
    case Some(Stressed) => "😰"
    case _ => "😐"
  }

  /** `getSuggestedAction`: the page a reply's button opens, if any. */
  function SuggestedRoute(m: Option<Mood>): (r: Option<string>)
    ensures r.None? <==> m.None? || m == Some(Neutral)
  {
    match m
    case Some(Stressed) => Some("/meditation/breathing")
    case Some(Sad) => Some("/content")
    case Some(Happy) => Some("/meditation/gratitude")
    case _ => None
  }

  /** The path of the player page for a session id. */
  function MeditationRoute(id: string): string {
    "/meditation/" + id
  }

  /** The breathing and gratitude buttons open `/meditation/:type` with a type
      the player does not know, so the player page as written crashes. */
  lemma SuggestedSessionsCrash()
    ensures SuggestedRoute(Some(Stressed)) == Some(MeditationRoute("breathing"))
    ensures SuggestedRoute(Some(Happy)) == Some(MeditationRoute("gratitude"))
    ensures Meditation.OpenAsWritten("breathing") == Meditation.Crashed
    ensures Meditation.OpenAsWritten("gratitude") == Meditation.Crashed
  {
    assert MeditationRoute("breathing") == "/meditation/breathing";
    assert MeditationRoute("gratitude") == "/meditation/gratitude";
  }

  // ---------------------------------------------------------------------------
  // Conversation
  // ---------------------------------------------------------------------------

  datatype Sender = User | Ai
  datatype Message = Message(sender: Sender, content: string, mood: Option<Mood>)
  datatype Chat = Chat(messages: seq<Message>, input: string, isTyping: bool)

  /** The reply the delayed callback will post: the text it was asked about,
      the mood computed at send time and the language captured at send time. */
  datatype PendingReply = PendingReply(text: string, mood: Mood, lang: LanguageContext.Lang)
  datatype Sent = Sent(chat: Chat, pending: Option<PendingReply>)

  const GreetingEn: string := "Hello! I'm here to listen and support you today 💚"
  const GreetingTh: string := "สวัสดีค่ะ! ฉันพร้อมรับฟังความรู้สึกของคุณวันนี้ 💚"

  /** The page opens with one greeting from the assistant, without a mood. */
  function InitialChat(lang: LanguageContext.Lang): (c: Chat)
    ensures |c.messages| == 1 && c.messages[0].sender == Ai && c.messages[0].mood.None?
    ensures c.input == "" && !c.isTyping
  {
    Chat([Message(Ai, if lang.Th? then GreetingTh else GreetingEn, None)], "", false)
  }

  /** The send button's `disabled` expression. */
  predicate SendDisabled(input: string) {
    Text.Trim(input) == ""
  }

  /** `handleSendMessage`: a blank input (empty once trimmed) does nothing;
      otherwise the untrimmed input becomes one user message, the box is
      cleared, the typing indicator comes on and a reply is scheduled. */
  function SendMessage(c: Chat, lang: LanguageContext.Lang): (r: Sent)
    ensures Text.AllWhitespace(c.input) <==> r.pending.None?
    ensures Text.AllWhitespace(c.input) ==> r.chat == c
    ensures !Text.AllWhitespace(c.input) ==>
      && r.chat.messages == c.messages + [Message(User, c.input, None)]
      && r.chat.input == ""
      && r.chat.isTyping
      && r.pending == Some(PendingReply(c.input, AnalyzeMood(c.input), lang))
  {
    Text.TrimEmptyIffBlank(c.input);
    if Text.Trim(c.input) == "" then Sent(c, None)
    else
      var user := Message(User, c.input, None);
      Sent(Chat(c.messages + [user], "", true), Some(PendingReply(c.input, AnalyzeMood(c.input), lang)))
  }

  /** The button is disabled exactly when sending would be ignored. */
  lemma SendDisabledIffIgnored(c: Chat, lang: LanguageContext.Lang)
    ensures SendDisabled(c.input) <==> SendMessage(c, lang).pending.None?
  {
    Text.TrimEmptyIffBlank(c.input);
  }

  /** The delayed callback: append the assistant's reply, tagged with the
      mood, after whatever is in the list by then; the typing indicator goes
      off and the input box is left alone. */
  function DeliverReply(c: Chat, p: PendingReply, draw: nat): (r: Chat)
    requires draw < 2
    ensures |r.messages| == |c.messages| + 1 && r.messages[..|c.messages|] == c.messages
    ensures var last := r.messages[|c.messages|];
      last.sender == Ai && last.mood == Some(p.mood) && last.content in Replies(p.lang, p.mood)
    ensures r.input == c.input && !r.isTyping
  {
    ReplyFitsMood(p.lang, p.mood, draw);
    var reply := Message(Ai, GenerateReply(p.lang, MoodKey(p.mood), draw), Some(p.mood));
    Chat(c.messages + [reply], c.input, false)
  }

  /** A full exchange: a non-blank message adds exactly the user's message
      and then one reply whose mood is the classification of that message. */
  lemma ExchangeTagsReplyWithInputMood(c: Chat, lang: LanguageContext.Lang, draw: nat)
    requires !Text.AllWhitespace(c.input) && draw < 2
    ensures var s := SendMessage(c, lang);
      && s.pending.Some?
      && var d := DeliverReply(s.chat, s.pending.value, draw);
      && |d.messages| == |c.messages| + 2
      && d.messages[..|c.messages|] == c.messages
      && d.messages[|c.messages|] == Message(User, c.input, None)
      && d.messages[|c.messages| + 1].sender == Ai
      && d.messages[|c.messages| + 1].mood == Some(AnalyzeMood(c.input))
      && d.messages[|c.messages| + 1].content in Replies(lang, AnalyzeMood(c.input))
  {
    var s := SendMessage(c, lang);
    var d := DeliverReply(s.chat, s.pending.value, draw);
    assert d.messages[..|s.chat.messages|] == s.chat.messages;
    assert d.messages[..|c.messages|] == s.chat.messages[..|c.messages|];
  }
}
