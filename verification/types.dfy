/**
 Records shared by the three state slices of the application: scheduled
 fake calls, call-screen templates and the settings singleton. Optional
 TypeScript properties (`avatar?`, `recurringPattern?`, ...) become `Option`s.
 Nothing here enforces the validity rules the records suggest (unique ids,
 weekdays in 0..6, `isRecurring` iff a pattern is present): the slices never
 check them, so the model does not assume them either.
 */
module Types {

  datatype Option<T> = None | Some(value: T)

  /** A `Date` held by a task. The slices only copy it, so it is opaque here. */
  datatype Instant = Instant(millis: int)

  datatype PatternKind = Daily | Weekly | Monthly

  /** Recurrence data as stored; no code interprets it. */
  datatype RecurringPattern = RecurringPattern(
    kind: PatternKind,
    days: Option<seq<int>>,   // weekdays, 0 = Sunday
    date: Option<int>         // day of the month
  )

  datatype ScheduledTask = ScheduledTask(
    id: string,
    name: string,
    scheduledTime: Instant,
    callerName: string,
    phoneNumber: string,
    avatar: Option<string>,
    templateId: string,
    isActive: bool,
    isRecurring: bool,
    recurringPattern: Option<RecurringPattern>
  )

  datatype TemplateStyle = Ios | Android | Huawei | Samsung | Custom

  datatype CallTemplate = CallTemplate(
    id: string,
    name: string,
    style: TemplateStyle,
    previewImage: string
  )

  /** `defaultCallDuration` is a JavaScript number; it is an unbounded integer here. */
  datatype AppSettings = AppSettings(
    selectedTemplate: string,
    defaultCallDuration: int,
    vibrationEnabled: bool,
    tutorialCompleted: bool,
    soundEnabled: bool,
    selectedRingtone: string
  )

  /** The string literal the source uses for each style. */
  function StyleName(style: TemplateStyle): string
  {
    match style
    case Ios => "ios"
    case Android => "android"
    case Huawei => "huawei"
    case Samsung => "samsung"
    case Custom => "custom"
  }

  // Key projections handed to the generic sequence operations.

  function TaskId(t: ScheduledTask): string { t.id }

  function TemplateId(t: CallTemplate): string { t.id }

  function StyleOf(t: CallTemplate): TemplateStyle { t.style }
}
