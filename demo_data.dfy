/** Seed data the stores and pages start from (src/data/demoData.ts).
    Long texts are written as concatenations of short literals, which keeps
    the proof obligations that mention the seed small. */
module DemoData {
  import opened Wrappers
  import opened Types

  /** The six demo projects, in order. */
  function DemoProjects(): seq<Project> {
    [
      Project("proj-1", "مسابقة " + "الذكاء " + "الاصطناعي " + "2025",
        "شارك في " + "أكبر " + "مسابقة " + "للذكاء " + "الاصطناعي " + "في " + "المنطقة " + "العربية. " + "قم ببناء " + "حلول " + "مبتكرة " + "باستخدام " + "تقنيات " + "التعلم " + "الآلي " + "والتعلم " + "العميق.",
        Some("معرفة " + "أساسية بـ " + "Python و " + "Machine " + "Learning"), "2025-01-01", "2025-03-31",
        Some("https://" + "images.uns" + "plash.com/" + "photo-1677" + "442136019-" + "21780ecad9" + "95?w=800"),
        Open, 45, ["fullName", "email", "phone", "school", "github"]),
      Project("proj-2", "هاكاثون " + "تطوير " + "تطبيقات " + "الموبايل",
        "ماراثون " + "برمجي " + "لمدة 48 " + "ساعة " + "لتطوير " + "تطبيقات " + "الهاتف " + "المحمول " + "باستخدام " + "أحدث " + "التقنيات. " + "جوائز " + "قيمة " + "للفائزين.",
        Some("خبرة في " + "React " + "Native أو " + "Flutter"), "2025-02-15", "2025-02-17",
        Some("https://" + "images.uns" + "plash.com/" + "photo-1512" + "941937669-" + "90a1b58e7e" + "9c?w=800"),
        Open, 78, ["fullName", "email", "phone", "linkedin", "portfolio"]),
      Project("proj-3", "مشروع " + "تخرج " + "الطلاب " + "المتميزين",
        "برنامج " + "خاص لدعم " + "مشاريع " + "التخرج " + "المتميزة. " + "نوفر " + "الإرشاد " + "والموارد " + "اللازمة " + "لإنجاح " + "مشروعك.",
        Some("طالب في " + "السنة " + "النهائية"), "2025-01-15", "2025-06-30",
        Some("https://" + "images.uns" + "plash.com/" + "photo-1523" + "050854058-" + "8df90110c9" + "f1?w=800"),
        ClosingSoon, 23, ["fullName", "email", "phone", "school", "gpa", "cv"]),
      Project("proj-4", "ورشة " + "تطوير " + "الويب " + "الحديث",
        "تعلم أحدث " + "تقنيات " + "تطوير " + "الويب مع " + "React و " + "TypeScript" + " و " + "Tailwind " + "CSS. ورشة " + "عملية " + "مكثفة على " + "مدار " + "أسبوعين.",
        Some("معرفة " + "أساسية بـ " + "HTML و " + "CSS و " + "JavaScript"), "2024-12-01", "2024-12-20",
        Some("https://" + "images.uns" + "plash.com/" + "photo-1593" + "720219276-" + "0b1eacd0ae" + "f4?w=800"),
        Closed, 156, ["fullName", "email", "phone"]),
      Project("proj-5", "مسابقة " + "تصميم " + "واجهات " + "المستخدم",
        "أظهر " + "إبداعك في " + "تصميم " + "واجهات " + "المستخدم. " + "المسابقة " + "مفتوحة " + "لجميع " + "المصممين " + "والمطورين.",
        Some("خبرة في " + "Figma أو " + "Adobe XD"), "2025-01-10", "2025-02-28",
        Some("https://" + "images.uns" + "plash.com/" + "photo-1561" + "070791-252" + "6d30994b5?" + "w=800"),
        Open, 34, ["fullName", "email", "portfolio", "workSample" + "s"]),
      Project("proj-6", "برنامج " + "التدريب " + "الصيفي",
        "فرصة " + "تدريب " + "صيفية في " + "أكبر " + "الشركات " + "التقنية. " + "اكتسب " + "خبرة " + "عملية " + "حقيقية " + "واعمل " + "مع " + "محترفين.",
        Some("طالب " + "جامعي في " + "تخصص تقني"), "2025-06-01", "2025-08-31",
        Some("https://" + "images.uns" + "plash.com/" + "photo-1522" + "071820081-" + "009f0129c7" + "1c?w=800"),
        ClosingSoon, 89, ["fullName", "email", "phone", "school", "major", "cv", "motivation" + "Letter"])
    ]
  }

  /** The five demo notifications, newest-first as listed. */
  function DemoNotifications(): seq<Notification> {
    [
      Notification("notif-1", "تم فتح " + "مسابقة " + "جديدة",
        "مسابقة " + "الذكاء " + "الاصطناعي " + "2025 " + "مفتوحة " + "للتسجيل " + "الآن!",
        "2025-01-01", false, Info),
      Notification("notif-2", "اقتراب " + "موعد " + "التسليم",
        "باقي 5 " + "أيام على " + "موعد " + "تسليم " + "هاكاثون " + "تطوير " + "التطبيقات",
        "2025-02-12", false, Warning),
      Notification("notif-3", "تم قبول " + "تسجيلك",
        "تهانينا! " + "تم قبول " + "تسجيلك في " + "مسابقة " + "تصميم " + "واجهات " + "المستخدم",
        "2025-01-11", true, Success),
      Notification("notif-4", "تذكير مهم",
        "باقي 3 " + "أيام على " + "إغلاق " + "التسجيل " + "في برنامج " + "التدريب " + "الصيفي",
        "2025-05-28", false, Warning),
      Notification("notif-5", "تم نشر " + "النتائج",
        "تم نشر " + "نتائج " + "مسابقة " + "تطوير " + "الويب. " + "تحقق " + "من ترتيبك " + "الآن!",
        "2024-12-25", true, Success)
    ]
  }

  /** The selectable registration-form fields, grouped by category in
      the order listed. */
  function FormFieldOptions(): seq<FormField> {
    [
      FormField("fullName", "الاسم " + "الكامل", Basic, TextField),
      FormField("email", "البريد " + "الإلكتروني", Basic, EmailField),
      FormField("phone", "رقم " + "التليفون", Basic, TelField),
      FormField("nationalId", "الرقم " + "القومي", Basic, TextField),
      FormField("birthDate", "تاريخ " + "الميلاد", Basic, DateField),
      FormField("gender", "النوع", Basic, SelectField),
      FormField("school", "المدرسة/" + "الجامعة", Education, TextField),
      FormField("grade", "الصف " + "الدراسي/" + "السنة", Education, TextField),
      FormField("major", "التخصص", Education, TextField),
      FormField("gpa", "المعدل " + "التراكمي " + "(GPA)", Education, NumberField),
      FormField("address", "العنوان " + "الكامل", Additional, TextField),
      FormField("city", "المحافظة/" + "المدينة", Additional, TextField),
      FormField("interests", "الاهتمامات", Additional, TextareaField),
      FormField("skills", "المهارات", Additional, TextareaField),
      FormField("experience", "الخبرات " + "السابقة", Additional, TextareaField),
      FormField("github", "رابط " + "GitHub", Links, UrlField),
      FormField("linkedin", "رابط " + "LinkedIn", Links, UrlField),
      FormField("portfolio", "رابط " + "Portfolio", Links, UrlField),
      FormField("twitter", "حساب " + "Twitter/X", Links, TextField),
      FormField("photo", "صورة شخصية", Files, FileField),
      FormField("cv", "السيرة " + "الذاتية " + "(PDF)", Files, FileField),
      FormField("motivation" + "Letter", "خطاب " + "التحفيز", Files, FileField),
      FormField("certificat" + "es", "شهادات " + "(متعددة)", Files, FileField),
      FormField("workSample" + "s", "نماذج " + "أعمال " + "سابقة", Files, FileField),
      FormField("customText" + "1", "سؤال نصي " + "قصير 1", Custom, TextField),
      FormField("customText" + "2", "سؤال نصي " + "قصير 2", Custom, TextField),
      FormField("customText" + "area", "سؤال نصي " + "طويل", Custom, TextareaField),
      FormField("customSele" + "ct", "سؤال " + "اختيار " + "متعدد", Custom, SelectField)
    ]
  }
}
