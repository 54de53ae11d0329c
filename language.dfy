/**
 * The language context (LanguageProvider): the current language, the Thai
 * and English translation tables, the lookup `t`, and the choice persisted
 * in local storage under "baanjai-language".
 */
module Language {
  import opened Wrappers

  datatype Language = Th | En

  /** The code a language is stored and compared under. */
  function Code(l: Language): (c: string)
    ensures |c| == 2
  {
    match l
    case Th => "th"
    case En => "en"
  }

  /** The mount effect's test: a stored value is adopted only when it is exactly "th" or "en". */
  function ParseLanguage(stored: Option<string>): (r: Option<Language>)
    ensures r.Some? <==> stored == Some("th") || stored == Some("en")
  {
    if stored == Some("th") then Some(Th)
    else if stored == Some("en") then Some(En)
    else None
  }

  /** A stored code reads back as the language it was written for, and only that one. */
  lemma ParseCode(l: Language, stored: Option<string>)
    ensures ParseLanguage(Some(Code(l))) == Some(l)
    ensures ParseLanguage(stored) == Some(l) ==> stored == Some(Code(l))
  {
  }

  const StorageKey := "baanjai-language"

  /** `localStorage` as the map from keys to stored strings. */
  type Storage = map<string, string>

  function Lookup(storage: Storage, key: string): Option<string> {
    if key in storage then Some(storage[key]) else None
  }

  /** The language a mount would adopt from `storage`, if any. */
  function SavedLanguage(storage: Storage): Option<Language> {
    ParseLanguage(Lookup(storage, StorageKey))
  }

  /** What `changeLanguage` writes is what the next mount adopts. */
  lemma SavedLanguageAfterChange(storage: Storage, l: Language)
    ensures SavedLanguage(storage[StorageKey := Code(l)]) == Some(l)
  {
    ParseCode(l, None);
  }

  const ThTable: map<string, string> := map[
    "nav.home" := "หน้าหลัก",
    "nav.chat" := "แชท AI",
    "nav.content" := "เนื้อหา",
    "nav.health" := "สุขภาพ",
    "nav.therapist" := "นักจิตวิทยา",
    "nav.profile" := "โปรไฟล์",
    "home.greeting" := "สวัสดี",
    "home.mood_check" := "ตรวจสอบอารมณ์วันนี้",
    "home.daily_tip" := "เคล็ดลับประจำวัน",
    "home.start_meditation" := "เริ่มเจริญสติ",
    "home.check_mood" := "ตรวจสอบอารมณ์",
    "home.meditation_streak" := "ความต่อเนื่องในการเจริญสติ",
    "home.days" := "วัน",
    "common.premium" := "พรีเมี่ยม",
    "common.upgrade" := "อัพเกรด",
    "common.continue" := "ดำเนินการต่อ",
    "common.start_now" := "เริ่มเลย",
    "common.try_meditation" := "ลองเจริญสติ",
    "meditation.title" := "การเจริญสติ",
    "meditation.breathing" := "การหายใจ",
    "meditation.mindfulness" := "สติ",
    "meditation.sleep" := "การนอนหลับ",
    "meditation.stress_relief" := "คลายความเครียด",
    "chat.placeholder" := "พิมพ์ข้อความของคุณ...",
    "chat.send" := "ส่ง",
    "chat.save_mood" := "บันทึกอารมณ์",
    "tips.breathing" := "หายใจเข้าลึกๆ 4 ครั้ง เพื่อความสงบ",
    "tips.gratitude" := "เขียนสิ่งที่ขอบคุณ 3 อย่างในวันนี้",
    "tips.nature" := "ใช้เวลา 10 นาทีกับธรรมชาติ",
    "tips.meditation" := "เจริญสติ 5 นาทีเพื่อจิตใจที่สงบ"
  ]

  const EnTable: map<string, string> := map[
    "nav.home" := "Home",
    "nav.chat" := "AI Chat",
    "nav.content" := "Content",
    "nav.health" := "Health",
    "nav.therapist" := "Therapist",
    "nav.profile" := "Profile",
    "home.greeting" := "Hello",
    "home.mood_check" := "Check Today's Mood",
    "home.daily_tip" := "Daily Tip",
    "home.start_meditation" := "Start Meditation",
    "home.check_mood" := "Check Mood",
    "home.meditation_streak" := "Meditation Streak",
    "home.days" := "days",
    "common.premium" := "Premium",
    "common.upgrade" := "Upgrade",
    "common.continue" := "Continue",
    "common.start_now" := "Start Now",
    "common.try_meditation" := "Try Meditation",
    "meditation.title" := "Meditation",
    "meditation.breathing" := "Breathing",
    "meditation.mindfulness" := "Mindfulness",
    "meditation.sleep" := "Sleep",
    "meditation.stress_relief" := "Stress Relief",
    "chat.placeholder" := "Type your message...",
    "chat.send" := "Send",
    "chat.save_mood" := "Save Mood",
    "tips.breathing" := "Take 4 deep breaths for instant calm",
    "tips.gratitude" := "Write down 3 things you're grateful for today",
    "tips.nature" := "Spend 10 minutes in nature",
    "tips.meditation" := "Meditate for 5 minutes for peace of mind"
  ]

  function Table(l: Language): map<string, string> {
    match l
    case Th => ThTable
    case En => EnTable
  }

  /** `t(key)`: the current language's entry when present and non-empty, otherwise the key itself. */
  function T(l: Language, key: string): (r: string)
    ensures key in Table(l) && Table(l)[key] != "" ==> r == Table(l)[key]
    ensures !(key in Table(l) && Table(l)[key] != "") ==> r == key
  {
    if key in Table(l) && Table(l)[key] != "" then Table(l)[key] else key
  }

  /** Both tables translate the same keys, so switching language never exposes a bare key. */
  lemma TablesShareKeys()
    ensures ThTable.Keys == EnTable.Keys
  {
  }

  /** Every entry of either table is non-empty, so `t` returns it for every key the tables know. */
  lemma TranslatedKeys(l: Language, key: string)
    requires key in ThTable
    ensures T(l, key) == Table(l)[key] && key in Table(l)
  {
    TablesShareKeys();
  }

  /** The provider's state and the browser storage it persists to. */
  class LanguageProvider {
    var language: Language
    var storage: Storage

    /** The first render: Thai, whatever is stored. */
    constructor (storage: Storage)
      ensures language == Th && this.storage == storage
    {
      language := Th;
      this.storage := storage;
    }

    /** The mount effect: adopt a valid stored language, otherwise keep the current one. */
    method LoadSavedLanguage()
      modifies this
      ensures language == SavedLanguage(old(storage)).GetOr(old(language))
      ensures storage == old(storage)
    {
      var saved := Lookup(storage, StorageKey);
      if saved == Some("th") || saved == Some("en") {
        language := if saved == Some("th") then Th else En;
      }
    }

    /** `changeLanguage`: the state and the stored value both become `l`. */
    method ChangeLanguage(l: Language)
      modifies this
      ensures language == l
      ensures storage == old(storage)[StorageKey := Code(l)]
    {
      language := l;
      storage := storage[StorageKey := Code(l)];
    }

    /** The lookup `t` of the current language. */
    function Translate(key: string): string
      reads this
    {
      T(language, key)
    }
  }

  /** A language chosen once is the language of the next visit. */
  method ChoiceSurvivesReload(storage: Storage, l: Language) {
    var p := new LanguageProvider(storage);
    p.ChangeLanguage(l);
    var next := new LanguageProvider(p.storage);
    assert next.language == Th;
    next.LoadSavedLanguage();
    SavedLanguageAfterChange(storage, l);
    assert next.language == l;
  }
}
