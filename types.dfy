/** The platform's records (src/types/index.ts). Optional properties are
    `Option`s; string unions are datatypes. */
module Types {
  import opened Wrappers

  datatype ProjectStatus = Open | ClosingSoon | Closed

  datatype Project = Project(
    id: string,
    title: string,
    description: string,
    requirements: Option<string>,
    startDate: string,
    endDate: string,
    image: Option<string>,
    status: ProjectStatus,
    registeredCount: int,
    formFields: seq<string>)

  datatype RegistrationStatus = Registered | InProgress | Submitted

  datatype Role = Admin | Student

  datatype Grade = Grade(
    score: int,
    maxScore: int,
    stars: Option<int>,
    feedback: string,
    gradedBy: string,
    gradedAt: string)

  datatype Comment = Comment(
    id: string,
    userId: string,
    userName: string,
    userRole: Role,
    content: string,
    createdAt: string)

  datatype UploadedFile = UploadedFile(
    id: string,
    name: string,
    fileType: string,
    size: string,
    uploadDate: string,
    url: string)

  /** A registration as the project store keeps it, with the submitted form
      answers (`data`) of the store's extended record. */
  datatype Registration = Registration(
    id: string,
    projectId: string,
    projectTitle: string,
    registrationDate: string,
    status: RegistrationStatus,
    filesCount: int,
    grade: Option<Grade>,
    comments: Option<seq<Comment>>,
    uploadedFiles: Option<seq<UploadedFile>>,
    data: Option<map<string, string>>)

  datatype NotificationType = Info | Success | Warning | Error

  datatype Notification = Notification(
    id: string,
    title: string,
    message: string,
    date: string,
    read: bool,
    kind: NotificationType)

  datatype FieldCategory = Basic | Education | Additional | Links | Files | Custom

  datatype FieldType = TextField | EmailField | TelField | DateField | NumberField
                     | UrlField | TextareaField | SelectField | FileField

  /** One selectable registration-form field of the project wizard. */
  datatype FormField = FormField(id: string, caption: string, category: FieldCategory, kind: FieldType)

  datatype SubmissionStatus = PendingReview | UnderReview | Graded | NeedsResubmission

  datatype ActivityAction = FileUploaded | StatusChanged | RatingAdded | RatingEdited
                          | CommentAdded | CommentEdited

  datatype ActivityLogEntry = ActivityLogEntry(
    id: string,
    action: ActivityAction,
    description: string,
    performedBy: string,
    performedAt: string)

  /** The Arabic registration stage shown to admins: registered, working,
      delivered. */
  datatype RegistrantStage = Enrolled | Working | Delivered

  datatype Registrant = Registrant(
    id: string,
    name: string,
    nameEn: string,
    email: string,
    phone: string,
    school: string,
    registrationDate: string,
    status: RegistrantStage,
    submissionStatus: SubmissionStatus,
    filesCount: int,
    projectId: string,
    projectTitle: string,
    projectTitleEn: string,
    uploadedFiles: seq<UploadedFile>,
    grade: Option<Grade>,
    comments: Option<seq<Comment>>,
    adminNotes: Option<string>,
    lastActivity: Option<string>,
    activityLog: Option<seq<ActivityLogEntry>>)
}
