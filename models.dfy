/** The records the reminder service passes around: stored reminders, creation requests, users and slash-command requests. */
module Models {
  import opened Wrappers

  /** The text of a non-nil Go error; every error this code builds has a non-empty text. */
  type ErrorText = s: string | |s| > 0 witness "error"

  /** Seconds since an epoch: the model's notion of time.Time. */
  type Instant = int

  /**
    A stored reminder (models.Reminder). The owner is a nullable column
    (sql.NullString); None is SQL NULL.
  */
  datatype Reminder = Reminder(
    id: int,
    owner: Option<string>,
    name: string,
    rule: string,
    channel: string,
    message: string,
    createdAt: Instant,
    modifiedAt: Instant)

  /** Owner.String of a sql.NullString: the empty string for NULL. */
  function OwnerString(owner: Option<string>): string
  {
    match owner
    case Some(s) => s
    case None => ""
  }

  /** The fields a new reminder is created from (dtos.ReminderDTO). */
  datatype ReminderDto = ReminderDto(
    name: string,
    owner: string,
    rule: string,
    channel: string,
    message: string)

  /** A user and the webhook it posts through (models.User). */
  datatype User = User(name: string, webhook: Option<string>)

  /** A channel's time-zone override (models.Channel). */
  datatype Channel = Channel(name: string, timeZone: string)

  /** The form fields of a Mattermost slash-command request (dtos.MMRequest). */
  datatype MmRequest = MmRequest(
    channelName: string,
    userName: string,
    command: string,
    text: string)
}
