/**
 * The language provider: the English and Thai string tables, the `t` lookup
 * with its fall-back to the key itself, and the current language persisted
 * in browser storage under `app_language`.
 */
module LanguageContext {
  import opened Wrappers

  datatype Lang = En | Th

  /** Browser storage, reduced to a map from keys to stored strings. */
  type Storage = map<string, string>

  const StorageKey: string := "app_language"

  // ---------------------------------------------------------------------------
  // String tables, one function per group of keys: the commented sections
  // of each table, with the privacy keys of the onboarding section split off
  // ---------------------------------------------------------------------------

  function EnglishNavigation(key: string): (r: Option<string>)
    ensures r.Some? ==> r.value != ""
  {
    match key
    case "nav.home" => Some("Home")
    case "nav.chat" => Some("AI Chat")
    case "nav.content" => Some("Content")
    case "nav.therapist" => Some("Therapist")
    case "nav.profile" => Some("Profile")
    case _ => None
  }

  function EnglishHome(key: string): (r: Option<string>)
    ensures r.Some? ==> r.value != ""
  {
    match key
    case "home.welcome" => Some("Welcome back")
    case "home.mood_summary" => Some("Today's Mood")
    case "home.start_meditation" => Some("Start Meditation")
    case "home.check_mood" => Some("Check Your Mood")
    case "home.quick_tips" => Some("Quick Tips for Wellbeing")
    case "home.tip_breathing" => Some(EnHomeTipBreathing)
    case "home.tip_nature" => Some(EnHomeTipNature)
    case "home.tip_gratitude" => Some(EnHomeTipGratitude)
    case _ => None
  }

  function EnglishChat(key: string): (r: Option<string>)
    ensures r.Some? ==> r.value != ""
  {
    match key
    case "chat.title" => Some("AI Mood Support")
    case "chat.placeholder" => Some(EnChatPlaceholder)
    case "chat.save_mood" => Some("Save Mood")
    case "chat.feeling_stressed" => Some(EnChatFeelingStressed)
    case "chat.try_breathing" => Some("Try Breathing Exercise")
    case _ => None
  }

  function EnglishContent(key: string): (r: Option<string>)
    ensures r.Some? ==> r.value != ""
  {
    match key
    case "content.meditation" => Some("Guided Meditation")
    case "content.breathing" => Some("Breathing Exercises")
    case "content.articles" => Some("Mental Health Articles")
    case "content.5min" => Some("5 Minutes")
    case "content.10min" => Some("10 Minutes")
    case "content.15min" => Some("15 Minutes")
    case "content.sleep" => Some("Sleep")
    case "content.stress" => Some("Stress Relief")
    case "content.anxiety" => Some("Anxiety")
    case _ => None
  }

  function EnglishTherapist(key: string): (r: Option<string>)
    ensures r.Some? ==> r.value != ""
  {
    match key
    case "therapist.title" => Some("Find a Therapist")
    case "therapist.filter" => Some("Filter by")
    case "therapist.price" => Some("Price Range")
    case "therapist.expertise" => Some("Expertise")
    case "therapist.book" => Some("Book Session")
    case "therapist.rate" => Some("per hour")
    case _ => None
  }

  function EnglishProfile(key: string): (r: Option<string>)
    ensures r.Some? ==> r.value != ""
  {
    match key
    case "profile.title" => Some("Your Profile")
    case "profile.progress" => Some("Your Progress")
    case "profile.meditation_minutes" => Some("Meditation Minutes")
    case "profile.mood_streak" => Some("Mood Tracking Streak")
    case "profile.achievements" => Some("Achievements")
    case "profile.settings" => Some("Settings")
    case "profile.language" => Some("Language")
    case "profile.notifications" => Some("Notifications")
    case "profile.upgrade" => Some("Upgrade to Premium")
    case _ => None
  }

  function EnglishOnboarding(key: string): (r: Option<string>)
    ensures r.Some? ==> r.value != ""
  {
    match key
    case "onboarding.welcome" => Some("Welcome to MindSpace")
    case "onboarding.subtitle" => Some(EnOnboardingSubtitle)
    case "onboarding.get_started" => Some("Get Started")
    case _ => None
  }

  function EnglishPrivacy(key: string): (r: Option<string>)
    ensures r.Some? ==> r.value != ""
  {
    match key
    case "onboarding.privacy_title" => Some("Your Privacy Matters")
    case "onboarding.privacy_text" => Some(EnOnboardingPrivacyText)
    case "onboarding.accept_privacy" => Some(EnOnboardingAcceptPrivacy)
    case _ => None
  }

  function EnglishGeneral(key: string): (r: Option<string>)
    ensures r.Some? ==> r.value != ""
  {
    match key
    case "button.continue" => Some("Continue")
    case "button.back" => Some("Back")
    case "button.save" => Some("Save")
    case "button.cancel" => Some("Cancel")
    case "premium.unlock" => Some("Unlock Premium Content")
    case "premium.upgrade" => Some("Upgrade Now")
    case _ => None
  }

  function ThaiNavigation(key: string): (r: Option<string>)
    ensures r.Some? ==> r.value != ""
  {
    match key
    case "nav.home" => Some("หน้าแรก")
    case "nav.chat" => Some("แชท AI")
    case "nav.content" => Some("เนื้อหา")
    case "nav.therapist" => Some("นักจิตวิทยา")
    case "nav.profile" => Some("โปรไฟล์")
    case _ => None
  }

  function ThaiHome(key: string): (r: Option<string>)
    ensures r.Some? ==> r.value != ""
  {
    match key
    case "home.welcome" => Some("ยินดีต้อนรับกลับมา")
    case "home.mood_summary" => Some("อารมณ์วันนี้")
    case "home.start_meditation" => Some("เริ่มการทำสมาธิ")
    case "home.check_mood" => Some("ตรวจสอบอารมณ์")
    case "home.quick_tips" => Some("เคล็ดลับเพื่อสุขภาพจิต")
    case "home.tip_breathing" => Some(ThHomeTipBreathing)
    case "home.tip_nature" => Some(ThHomeTipNature)
    case "home.tip_gratitude" => Some(ThHomeTipGratitude)
    case _ => None
  }

  function ThaiChat(key: string): (r: Option<string>)
    ensures r.Some? ==> r.value != ""
  {
    match key
    case "chat.title" => Some("AI ช่วยเหลือจิตใจ")
    case "chat.placeholder" => Some("วันนี้คุณรู้สึกอย่างไร?")
    case "chat.save_mood" => Some("บันทึกอารมณ์")
    case "chat.feeling_stressed" => Some(ThChatFeelingStressed)
    case "chat.try_breathing" => Some("ลองออกกำลังกายหายใจ")
    case _ => None
  }

  function ThaiContent(key: string): (r: Option<string>)
    ensures r.Some? ==> r.value != ""
  {
    match key
    case "content.meditation" => Some("การทำสมาธิแบบมีคำแนะนำ")
    case "content.breathing" => Some("การออกกำลังกายหายใจ")
    case "content.articles" => Some("บทความสุขภาพจิต")
    case "content.5min" => Some("5 นาที")
    case "content.10min" => Some("10 นาที")
    case "content.15min" => Some("15 นาที")
    case "content.sleep" => Some("การนอนหลับ")
    case "content.stress" => Some("บรรเทาความเครียด")
    case "content.anxiety" => Some("ความวิตกกังวล")
    case _ => None
  }

  function ThaiTherapist(key: string): (r: Option<string>)
    ensures r.Some? ==> r.value != ""
  {
    match key
    case "therapist.title" => Some("ค้นหานักจิตวิทยา")
    case "therapist.filter" => Some("กรองตาม")
    case "therapist.price" => Some("ช่วงราคา")
    case "therapist.expertise" => Some("ความเชี่ยวชาญ")
    case "therapist.book" => Some("จองเซสชัน")
    case "therapist.rate" => Some("ต่อชั่วโมง")
    case _ => None
  }

  function ThaiProfile(key: string): (r: Option<string>)
    ensures r.Some? ==> r.value != ""
  {
    match key
    case "profile.title" => Some("โปรไฟล์ของคุณ")
    case "profile.progress" => Some("ความก้าวหน้า")
    case "profile.meditation_minutes" => Some("นาทีการทำสมาธิ")
    case "profile.mood_streak" => Some("ติดตามอารมณ์ต่อเนื่อง")
    case "profile.achievements" => Some("ความสำเร็จ")
    case "profile.settings" => Some("การตั้งค่า")
    case "profile.language" => Some("ภาษา")
    case "profile.notifications" => Some("การแจ้งเตือน")
    case "profile.upgrade" => Some("อัพเกรดเป็นพรีเมียม")
    case _ => None
  }

  function ThaiOnboarding(key: string): (r: Option<string>)
    ensures r.Some? ==> r.value != ""
  {
    match key
    case "onboarding.welcome" => Some("ยินดีต้อนรับสู่ MindSpace")
    case "onboarding.subtitle" => Some(ThOnboardingSubtitle)
    case "onboarding.get_started" => Some("เริ่มต้น")
    case _ => None
  }

  function ThaiPrivacy(key: string): (r: Option<string>)
    ensures r.Some? ==> r.value != ""
  {
    match key
    case "onboarding.privacy_title" => Some(ThOnboardingPrivacyTitle)
    case "onboarding.privacy_text" => Some(ThOnboardingPrivacyText)
    case "onboarding.accept_privacy" => Some(ThOnboardingAcceptPrivacy)
    case _ => None
  }

  function ThaiGeneral(key: string): (r: Option<string>)
    ensures r.Some? ==> r.value != ""
  {
    match key
    case "button.continue" => Some("ดำเนินการต่อ")
    case "button.back" => Some("กลับ")
    case "button.save" => Some("บันทึก")
    case "button.cancel" => Some("ยกเลิก")
    case "premium.unlock" => Some("ปลดล็อกเนื้อหาพรีเมียม")
    case "premium.upgrade" => Some("อัพเกรดตอนนี้")
    case _ => None
  }

  // Longer table texts, named so that lookups do not spell them out each time.
  const EnHomeTipBreathing: string := "Take 3 deep breaths when feeling stressed"
  const EnHomeTipNature: string := "Spend 10 minutes in nature daily"
  const EnHomeTipGratitude: string := "Practice gratitude by listing 3 things you're thankful for"
  const EnChatPlaceholder: string := "How are you feeling today?"
  const EnChatFeelingStressed: string := "You seem stressed. Would you like to try a 5-minute breathing exercise?"
  const EnOnboardingSubtitle: string := "Your journey to mental wellness starts here"
  const EnOnboardingPrivacyText: string := "We protect your data according to PDPA and GDPR standards. Your conversations are encrypted and never shared."
  const EnOnboardingAcceptPrivacy: string := "I accept the privacy policy"
  const ThHomeTipBreathing: string := "หายใจลึกๆ 3 ครั้งเมื่อรู้สึกเครียด"
  const ThHomeTipNature: string := "ใช้เวลา 10 นาทีในธรรมชาติทุกวัน"
  const ThHomeTipGratitude: string := "ฝึกความกตัญญูโดยนึกถึง 3 สิ่งที่รู้สึกขอบคุณ"
  const ThChatFeelingStressed: string := "คุณดูเครียด อยากลองออกกำลังกายหายใจ 5 นาทีไหม?"
  const ThOnboardingSubtitle: string := "การเดินทางสู่สุขภาพจิตที่ดีเริ่มต้นที่นี่"
  const ThOnboardingPrivacyTitle: string := "ความเป็นส่วนตัวของคุณสำคัญ"
  const ThOnboardingPrivacyText: string := "เราปกป้องข้อมูลของคุณตามมาตรฐาน PDPA และ GDPR การสนทนาของคุณถูกเข้ารหัสและไม่เอาไปแชร์"
  const ThOnboardingAcceptPrivacy: string := "ฉันยอมรับนโยบายความเป็นส่วนตัว"

  /** The first of two lookups that finds something. */
  function FirstOf(a: Option<string>, b: Option<string>): (r: Option<string>)
    ensures r.Some? <==> a.Some? || b.Some?
    ensures r.Some? ==> r == a || r == b
  {
    if a.Some? then a else b
  }

  /** The whole English table. */
  function EnglishTable(key: string): (r: Option<string>)
    ensures r.Some? ==> r.value != ""
  {
    FirstOf(EnglishNavigation(key), FirstOf(EnglishHome(key), FirstOf(EnglishChat(key), FirstOf(EnglishContent(key), FirstOf(EnglishTherapist(key), FirstOf(EnglishProfile(key), FirstOf(EnglishOnboarding(key), FirstOf(EnglishPrivacy(key), EnglishGeneral(key)))))))))
  }

  /** The whole Thai table. */
  function ThaiTable(key: string): (r: Option<string>)
    ensures r.Some? ==> r.value != ""
  {
    FirstOf(ThaiNavigation(key), FirstOf(ThaiHome(key), FirstOf(ThaiChat(key), FirstOf(ThaiContent(key), FirstOf(ThaiTherapist(key), FirstOf(ThaiProfile(key), FirstOf(ThaiOnboarding(key), FirstOf(ThaiPrivacy(key), ThaiGeneral(key)))))))))
  }

  /** `translations[language][key]`. */
  function Lookup(l: Lang, key: string): Option<string> {
    match l
    case En => EnglishTable(key)
    case Th => ThaiTable(key)
  }

  lemma NavigationKeysAgree(key: string)
    ensures EnglishNavigation(key).Some? <==> ThaiNavigation(key).Some?
  {
  }

  lemma HomeKeysAgree(key: string)
    ensures EnglishHome(key).Some? <==> ThaiHome(key).Some?
  {
  }

  lemma ChatKeysAgree(key: string)
    ensures EnglishChat(key).Some? <==> ThaiChat(key).Some?
  {
  }

  lemma ContentKeysAgree(key: string)
    ensures EnglishContent(key).Some? <==> ThaiContent(key).Some?
  {
  }

  lemma TherapistKeysAgree(key: string)
    ensures EnglishTherapist(key).Some? <==> ThaiTherapist(key).Some?
  {
  }

  lemma ProfileKeysAgree(key: string)
    ensures EnglishProfile(key).Some? <==> ThaiProfile(key).Some?
  {
  }

  lemma OnboardingKeysAgree(key: string)
    ensures EnglishOnboarding(key).Some? <==> ThaiOnboarding(key).Some?
  {
  }

  lemma PrivacyKeysAgree(key: string)
    ensures EnglishPrivacy(key).Some? <==> ThaiPrivacy(key).Some?
  {
  }

  lemma GeneralKeysAgree(key: string)
    ensures EnglishGeneral(key).Some? <==> ThaiGeneral(key).Some?
  {
  }

  /** The two tables define exactly the same keys. */
  lemma TablesShareKeys(key: string)
    ensures EnglishTable(key).Some? <==> ThaiTable(key).Some?
  {
    NavigationKeysAgree(key);
    HomeKeysAgree(key);
    ChatKeysAgree(key);
    ContentKeysAgree(key);
    TherapistKeysAgree(key);
    ProfileKeysAgree(key);
    OnboardingKeysAgree(key);
    PrivacyKeysAgree(key);
    GeneralKeysAgree(key);
  }

  /** `t(key)`: the current language's entry, or the key itself when the entry
      is missing (or empty, which JavaScript's `||` also treats as missing).
      Because no entry is empty, a present key always gets its entry, and a
      non-empty key never translates to the empty string. */
  function Translate(l: Lang, key: string): (r: string)
    ensures Lookup(l, key).Some? ==> r == Lookup(l, key).value
    ensures Lookup(l, key).None? ==> r == key
    ensures key != "" ==> r != ""
  {
    match Lookup(l, key)
    case Some(text) => if text != "" then text else key
    case None => key
  }

  /** The code a language is stored under. */
  function Code(l: Lang): string {
    match l
    case En => "en"
    case Th => "th"
  }

  /** Accepts exactly the two stored codes. */
  function ParseCode(s: string): (r: Option<Lang>)
    ensures r.Some? <==> s == "en" || s == "th"
  {
    if s == "en" then Some(En) else if s == "th" then Some(Th) else None
  }

  lemma CodeRoundTrip(l: Lang, s: string)
    ensures ParseCode(Code(l)) == Some(l)
    ensures ParseCode(s) == Some(l) ==> Code(l) == s
  {
  }

  /** The provider's state: the current language and the storage it writes to. */
  datatype Prefs = Prefs(language: Lang, storage: Storage)

  /** The language adopted on start-up: the stored one when it is exactly
      `en` or `th`, otherwise the default English. */
  function StoredLanguage(storage: Storage): (l: Lang)
    ensures StorageKey in storage && ParseCode(storage[StorageKey]).Some? ==> Code(l) == storage[StorageKey]
    ensures !(StorageKey in storage && ParseCode(storage[StorageKey]).Some?) ==> l == En
  {
    if StorageKey in storage then ParseCode(storage[StorageKey]).GetOr(En) else En
  }

  function Load(storage: Storage): Prefs {
    Prefs(StoredLanguage(storage), storage)
  }

  /** `setLanguage`: switches language and persists the same choice. */
  function SetLanguage(p: Prefs, l: Lang): (r: Prefs)
    ensures r.language == l
    ensures StorageKey in r.storage && r.storage[StorageKey] == Code(l)
    ensures forall k :: k in p.storage && k != StorageKey ==> k in r.storage && r.storage[k] == p.storage[k]
    ensures r.storage.Keys == p.storage.Keys + {StorageKey}
  {
    Prefs(l, p.storage[StorageKey := Code(l)])
  }

  /** A persisted choice is what the next start-up adopts. */
  lemma SetLanguagePersists(p: Prefs, l: Lang)
    ensures Load(SetLanguage(p, l).storage).language == l
  {
    CodeRoundTrip(l, Code(l));
  }
}
