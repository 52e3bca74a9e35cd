/** The language context (src/contexts/LangContext.tsx): the Arabic and
    English string tables, the lookup `t` with its fallback to the key, the
    text direction and the language chosen at start-up. */
module LangContext {
  import opened Wrappers

  /** The two languages the interface is written in. */
  datatype Language = Ar | En

  function Code(l: Language): string {
    match l
    case Ar => "ar"
    case En => "en"
  }

  // Long texts are written as concatenations of short literals, which keeps
  // the proof obligations that mention the tables small.

  /** The Arabic table, key by key. */
  function Arabic(): map<string, string> {
    map[
      "platformName" := "مسارات " + "النجاح",
      "platformFullName" := "Paths to " + "Success – " + "مسارات " + "النجاح",
      "heroTitle" := "منصة " + "لإدارة " + "المشاريع " + "والمسابقات " + "للطلاب",
      "heroSubtitle" := "قدّم على " + "مشاريع، " + "مسابقات، " + "وتابع " + "تقدمك في " + "مكان واحد",
      "heroStartNow" := "ابدأ الآن",
      "heroBrowseProjects" := "تصفح " + "المشاريع",
      "featuresTitle" := "مميزات " + "المنصة",
      "feature1Title" := "التقديم " + "على " + "المشاريع " + "والمسابقات",
      "feature1Desc" := "تصفح " + "وقدّم على " + "مختلف " + "المشاريع " + "والمسابقات " + "المتاحة " + "بكل سهولة",
      "feature2Title" := "نظام " + "إشعارات " + "ذكي",
      "feature2Desc" := "تلقى " + "إشعارات " + "فورية " + "عند أي " + "تحديث على " + "مشاريعك " + "أو " + "تقييماتك",
      "feature3Title" := "رفع " + "الملفات " + "وتتبع " + "التقدم",
      "feature3Desc" := "ارفع " + "ملفاتك " + "وتابع " + "حالة " + "تقدمك في " + "كل " + "مشروع",
      "feature4Title" := "لوحة تحكم " + "للطالب",
      "feature4Desc" := "لوحة تحكم " + "شاملة " + "لإدارة " + "جميع " + "مشاريعك " + "في مكان " + "واحد",
      "howItWorksTitle" := "كيف تعمل " + "المنصة؟",
      "step1Title" := "إنشاء حساب",
      "step1Desc" := "سجّل " + "حسابك " + "الجديد " + "في دقائق " + "معدودة",
      "step2Title" := "التقديم " + "على مشروع " + "أو مسابقة",
      "step2Desc" := "اختر " + "المشروع " + "المناسب " + "وقدّم عليه",
      "step3Title" := "رفع " + "الملفات " + "ومتابعة " + "النتائج",
      "step3Desc" := "ارفع " + "ملفاتك " + "وتابع " + "تقييمك " + "ونتائجك",
      "ctaTitle" := "مستعد " + "تبدأ " + "رحلتك؟",
      "ctaSubtitle" := "انضم إلى " + "آلاف " + "الطلاب " + "الذين " + "يحققون " + "نجاحاتهم " + "عبر منصتنا",
      "ctaButton" := "انضم الآن",
      "footerRights" := "جميع " + "الحقوق " + "محفوظة",
      "login" := "تسجيل " + "الدخول",
      "signup" := "إنشاء حساب",
      "notifications" := "الإشعارات",
      "myProjects" := "مشاريعي",
      "dashboard" := "لوحة " + "التحكم",
      "profile" := "الملف " + "الشخصي",
      "logout" := "تسجيل " + "الخروج",
      "chatbotTitle" := "مساعد " + "المنصة",
      "chatbotWelcome" := "مرحباً! " + "كيف " + "يمكنني " + "مساعدتك؟",
      "chatbotPlaceholder" := "اكتب " + "رسالتك " + "هنا...",
      "chatbotSend" := "إرسال",
      "chatbotDefaultReply" := "من فضلك " + "وضّح " + "سؤالك " + "أكثر، " + "يمكنك " + "السؤال " + "عن " + "التسجيل، " + "المسابقات، " + "أو رفع " + "الملفات.",
      "chatbotApplyReply" := "للتقديم " + "على مشروع " + "أو " + "مسابقة، " + "قم " + "بتسجيل " + "الدخول ثم " + "اذهب إلى " + "صفحة " + "المشاريع " + "واختر " + "المشروع " + "المناسب " + "واضغط على " + "زر " + "\"التقديم\".",
      "chatbotCompetitionReply" := "المسابقات " + "هي فرص " + "للطلاب " + "للمشاركة " + "في " + "تحديات " + "متنوعة. " + "يمكنك " + "تصفح " + "المسابقات " + "المتاحة " + "من لوحة " + "التحكم " + "والتقديم " + "عليها.",
      "chatbotUploadReply" := "لرفع " + "الملفات، " + "اذهب " + "إلى صفحة " + "مشاريعي، " + "اختر " + "المشروع، " + "ثم " + "اضغط على " + "زر \"رفع " + "ملف\" " + "واختر " + "الملفات " + "المطلوبة."
    ]
  }

  /** The English table, key by key. */
  function English(): map<string, string> {
    map[
      "platformName" := "Paths to " + "Success",
      "platformFullName" := "Paths to " + "Success – " + "مسارات " + "النجاح",
      "heroTitle" := "Student " + "Project & " + "Competition " + "Management " + "Platform",
      "heroSubtitle" := "Apply for " + "projects, " + "competitions, " + "and " + "track " + "your " + "progress " + "in one " + "place",
      "heroStartNow" := "Start Now",
      "heroBrowseProjects" := "Browse " + "Projects",
      "featuresTitle" := "Platform " + "Features",
      "feature1Title" := "Apply for " + "Projects " + "& " + "Competitions",
      "feature1Desc" := "Browse " + "and apply " + "for " + "various " + "available " + "projects " + "and " + "competitions " + "easily",
      "feature2Title" := "Smart " + "Notification " + "System",
      "feature2Desc" := "Receive " + "instant " + "notifications " + "for " + "any " + "updates " + "on your " + "projects " + "or grades",
      "feature3Title" := "File " + "Upload & " + "Progress " + "Tracking",
      "feature3Desc" := "Upload " + "your " + "files " + "and track " + "your " + "progress " + "on each " + "project",
      "feature4Title" := "Student " + "Dashboard",
      "feature4Desc" := "Comprehensive " + "dashboard " + "to manage " + "all your " + "projects " + "in one " + "place",
      "howItWorksTitle" := "How It " + "Works",
      "step1Title" := "Create an " + "Account",
      "step1Desc" := "Register " + "your new " + "account " + "in just " + "minutes",
      "step2Title" := "Apply for " + "a Project " + "or " + "Competition",
      "step2Desc" := "Choose " + "the right " + "project " + "and apply " + "for it",
      "step3Title" := "Upload " + "Files & " + "Track " + "Results",
      "step3Desc" := "Upload " + "your " + "files " + "and track " + "your " + "grades " + "and " + "results",
      "ctaTitle" := "Ready to " + "Start " + "Your " + "Journey?",
      "ctaSubtitle" := "Join " + "thousands " + "of " + "students " + "achieving " + "success " + "through " + "our " + "platform",
      "ctaButton" := "Join Now",
      "footerRights" := "All " + "Rights " + "Reserved",
      "login" := "Login",
      "signup" := "Sign Up",
      "notifications" := "Notifications",
      "myProjects" := "My " + "Projects",
      "dashboard" := "Dashboard",
      "profile" := "Profile",
      "logout" := "Logout",
      "chatbotTitle" := "Platform " + "Assistant",
      "chatbotWelcome" := "Hello! " + "How can I " + "help you?",
      "chatbotPlaceholder" := "Type your " + "message " + "here...",
      "chatbotSend" := "Send",
      "chatbotDefaultReply" := "Please " + "clarify " + "your " + "question. " + "You can " + "ask about " + "registration, " + "competitions, " + "or " + "file " + "uploads.",
      "chatbotApplyReply" := "To apply " + "for a " + "project " + "or " + "competition, " + "log " + "in, go to " + "the " + "Projects " + "page, " + "select " + "the " + "appropriate " + "project, " + "and click " + "the " + "\"Apply\" " + "button.",
      "chatbotCompetitionReply" := "Competitions " + "are " + "opportunities " + "for " + "students " + "to " + "participate " + "in " + "various " + "challenges. " + "You can " + "browse " + "available " + "competitions " + "from " + "the " + "dashboard " + "and " + "apply for " + "them.",
      "chatbotUploadReply" := "To upload " + "files, go " + "to My " + "Projects " + "page, " + "select " + "the " + "project, " + "then " + "click " + "\"Upload " + "File\" " + "button " + "and " + "choose " + "the " + "required " + "files."
    ]
  }
  /** The table of one of the two languages. */
  function Table(l: Language): map<string, string> {
    match l
    case Ar => Arabic()
    case En => English()
  }

  /** `translations[lang]`: the table of a language code, and nothing for
      any other string. */
  function TableOf(lang: string): (t: Option<map<string, string>>)
    ensures t.Some? <==> lang == "ar" || lang == "en"
  {
    if lang == "ar" then Some(Arabic())
    else if lang == "en" then Some(English())
    else None
  }

  /** `table[key] || key`: a key with a non-empty entry gets the entry; a
      missing key, or one whose entry is empty, is shown as itself. */
  function Lookup(table: map<string, string>, key: string): (r: string)
    ensures key in table && table[key] != "" ==> r == table[key]
    ensures key !in table || table[key] == "" ==> r == key
  {
    if key in table && table[key] != "" then table[key] else key
  }

  /** A non-empty key never comes back as the empty text, whatever the
      table holds. */
  lemma LookupNeverEmpty(table: map<string, string>, key: string)
    requires key != ""
    ensures Lookup(table, key) != ""
  {
  }

  /** `t(key)` under a language code. For a code without a table the lookup
      itself fails (reading a key of `undefined` throws), which is None here. */
  function T(lang: string, key: string): (r: Option<string>)
    ensures r.Some? <==> lang == "ar" || lang == "en"
    ensures r.Some? ==> r.value == Lookup(TableOf(lang).value, key)
    ensures r.Some? && key != "" ==> r.value != ""
  {
    match TableOf(lang)
    case None => None
    case Some(table) => Some(Lookup(table, key))
  }

  /** The code of each language selects that language's table. */
  lemma TableOfCode(l: Language)
    ensures TableOf(Code(l)) == Some(Table(l))
  {
  }

  /** `t` for one of the two languages. */
  function Translate(l: Language, key: string): (r: string)
    ensures T(Code(l), key) == Some(r)
    ensures key != "" ==> r != ""
  {
    T(Code(l), key).value
  }

  /** `dir`: right-to-left exactly for Arabic. */
  function Dir(lang: string): (d: string)
    ensures d == "rtl" <==> lang == "ar"
    ensures d == "rtl" || d == "ltr"
  {
    if lang == "ar" then "rtl" else "ltr"
  }

  /** The language at start-up: `(saved as Language) || 'ar'`. Nothing
      saved, or the empty text, gives Arabic; any other saved text is taken
      as it is, without checking that it names a language. */
  function InitialLang(saved: Option<string>): (lang: string)
    ensures saved.None? ==> lang == "ar"
    ensures saved.Some? && saved.value != "" ==> lang == saved.value
    ensures lang != ""
  {
    if saved.Some? && saved.value != "" then saved.value else "ar"
  }

  /** A saved code that is neither 'ar' nor 'en' survives start-up, every
      lookup under it fails, and the direction is left-to-right; a saved
      'ar' or 'en' gives a working lookup. */
  lemma UncheckedSavedLanguage(saved: string, key: string)
    requires saved != ""
    ensures saved != "ar" && saved != "en" ==>
      && T(InitialLang(Some(saved)), key).None?
      && Dir(InitialLang(Some(saved))) == "ltr"
    ensures saved == "ar" || saved == "en" ==> T(InitialLang(Some(saved)), key).Some?
    ensures T(InitialLang(None), key).Some? && Dir(InitialLang(None)) == "rtl"
  {
  }

  /** The keys the chat window uses are translated in both tables. */
  lemma ChatKeysTranslated()
    ensures forall k :: k in ChatKeys() ==> k in Arabic() && k in English()
  {
  }

  function ChatKeys(): seq<string> {
    ["chatbotWelcome", "chatbotDefaultReply", "chatbotApplyReply",
     "chatbotCompetitionReply", "chatbotUploadReply"]
  }

  /** The provider: the current language code, as stored. */
  class LangProvider {
    var lang: string

    constructor (saved: Option<string>)
      ensures lang == InitialLang(saved)
    {
      lang := InitialLang(saved);
    }

    /** setLang accepts only the two languages. */
    method SetLang(l: Language)
      modifies this
      ensures lang == Code(l)
    {
      lang := Code(l);
    }

    /** The direction of the current language. */
    function Direction(): (d: string)
      reads this
      ensures d == "rtl" <==> lang == "ar"
    {
      Dir(lang)
    }
  }
}
