/** The "send selected emails" action of `EmailMessageAdmin`: for every
    selected message it collects the recipients' non-empty addresses, queues
    one Celery task when there is at least one, stamps `sent_at` only when
    the task was queued, and reports the outcome to the admin user.
    The broker's answer and the clock are parameters, indexed by the
    message's position in the selection. */
module AccountsAdmin {
  import opened Common
  import opened Text

  type Time = int

  /** An `EmailMessage` row loaded as a model object. `recipientEmails` is the
      `email` of each user of `recipients.all()`, in query order;
      `storedSentAt` is the `sent_at` column last written by `save()`. */
  class EmailMessage {
    var subject: string
    var message: string
    var recipientEmails: seq<string>
    var sentAt: Option<Time>
    var storedSentAt: Option<Time>

    constructor (subject: string, message: string, recipientEmails: seq<string>)
      ensures this.subject == subject && this.message == message
      ensures this.recipientEmails == recipientEmails
      ensures sentAt == None && storedSentAt == None
    {
      this.subject := subject;
      this.message := message;
      this.recipientEmails := recipientEmails;
      sentAt := None;
      storedSentAt := None;
    }

    /** `email_message.save()`. */
    method Save()
      modifies this
      ensures storedSentAt == sentAt
      ensures subject == old(subject) && message == old(message)
      ensures recipientEmails == old(recipientEmails) && sentAt == old(sentAt)
    {
      storedSentAt := sentAt;
    }
  }

  /** What `send_email.delay(...)` does: the task is queued, or `CeleryError` is raised. */
  datatype Dispatch = Queued | CeleryError(reason: string)

  /** The arguments of one `send_email.delay(subject, message, recipient_list)` call. */
  datatype EmailJob = EmailJob(subject: string, message: string, recipientList: seq<string>)

  /** A message shown to the admin user with `message_user`. */
  datatype Notice = SentNotice(count: nat) | FailureNotice(reason: string)

  /** The text `message_user` shows for a notice. */
  function NoticeText(n: Notice): string
  {
    match n
    case SentNotice(count) => NatToString(count) + "개의 이메일을 전송하였습니다."
    case FailureNotice(reason) => "이메일 전송에 실패하였습니다: " + reason
  }

  /** A success text starts with the count written in decimal, which reads
      back to the count; a failure text ends with the broker's reason. */
  lemma NoticeTextReports(count: nat, reason: string)
    ensures var t, c := NoticeText(SentNotice(count)), NatToString(count);
      |c| <= |t| && t[..|c|] == c && ParseNat(t[..|c|]) == count
    ensures var t := NoticeText(FailureNotice(reason));
      |reason| <= |t| && t[|t| - |reason|..] == reason
  {
    ParseNatToString(count);
  }

  /** The parts of a message the action reads. */
  datatype Row = Row(subject: string, message: string, recipientEmails: seq<string>)

  function RowOf(m: EmailMessage): Row
    reads m
  {
    Row(m.subject, m.message, m.recipientEmails)
  }

  ghost function Rows(queryset: seq<EmailMessage>): (rows: seq<Row>)
    reads queryset
    ensures |rows| == |queryset|
    ensures forall i :: 0 <= i < |queryset| ==> rows[i] == RowOf(queryset[i])
  {
    seq(|queryset|, i reads queryset requires 0 <= i < |queryset| => RowOf(queryset[i]))
  }

  /** `[user.email for user in recipients if user.email]`: the non-empty
      addresses, in their original order. */
  function RecipientList(emails: seq<string>): (list: seq<string>)
    ensures forall e :: e in list <==> e in emails && e != ""
    ensures |list| <= |emails|
    ensures list == [] <==> forall i :: 0 <= i < |emails| ==> emails[i] == ""
  {
    if emails == [] then []
    else (if emails[0] != "" then [emails[0]] else []) + RecipientList(emails[1..])
  }

  /** The filter keeps order: the list of a concatenation is the
      concatenation of the lists. */
  lemma {:induction false} RecipientListAppend(a: seq<string>, b: seq<string>)
    ensures RecipientList(a + b) == RecipientList(a) + RecipientList(b)
  {
    if a == [] {
      assert a + b == b;
    } else {
      assert (a + b)[1..] == a[1..] + b;
      RecipientListAppend(a[1..], b);
    }
  }

  /** A message is dispatched when its recipient list is not empty. */
  predicate Dispatched(row: Row)
  {
    RecipientList(row.recipientEmails) != []
  }

  /** A message is stamped when it is dispatched and the task is queued. */
  predicate Stamped(row: Row, position: nat, broker: nat -> Dispatch)
  {
    Dispatched(row) && broker(position).Queued?
  }

  /** The notices of the message at `position`; the success notice reports
      `queryset.count()`, the size of the whole selection. */
  function StepNotices(row: Row, position: nat, total: nat, broker: nat -> Dispatch): seq<Notice>
  {
    if !Dispatched(row) then []
    else match broker(position)
      case Queued => [SentNotice(total)]
      case CeleryError(reason) => [FailureNotice(reason)]
  }

  /** The notices of a prefix of the selection, in processing order. */
  function Notices(rows: seq<Row>, total: nat, broker: nat -> Dispatch): seq<Notice>
  {
    if rows == [] then []
    else Notices(rows[..|rows| - 1], total, broker) + StepNotices(rows[|rows| - 1], |rows| - 1, total, broker)
  }

  /** The task queued for one message, if any. */
  function StepJobs(row: Row): seq<EmailJob>
  {
    if Dispatched(row) then [EmailJob(row.subject, row.message, RecipientList(row.recipientEmails))] else []
  }

  /** One message gives at most one task, exactly when it is dispatched, with
      its subject and body and no empty address; it gives exactly as many
      notices as tasks, the success notice exactly when it is stamped and
      the failure notice exactly when the broker raised. */
  lemma StepOutcome(row: Row, position: nat, total: nat, broker: nat -> Dispatch)
    ensures var jobs := StepJobs(row);
      && |jobs| <= 1 && (jobs != [] <==> Dispatched(row))
      && (jobs != [] ==>
            jobs[0].recipientList != [] && "" !in jobs[0].recipientList
            && jobs[0].subject == row.subject && jobs[0].message == row.message)
    ensures var notices := StepNotices(row, position, total, broker);
      && |notices| == |StepJobs(row)|
      && (notices == [SentNotice(total)] <==> Stamped(row, position, broker))
      && (notices != [] && notices[0].FailureNotice? <==> Dispatched(row) && broker(position).CeleryError?)
  {
  }

  /** The `send_email.delay` calls made for a prefix of the selection, in order. */
  function Jobs(rows: seq<Row>): seq<EmailJob>
  {
    if rows == [] then [] else Jobs(rows[..|rows| - 1]) + StepJobs(rows[|rows| - 1])
  }

  /** How many messages of the prefix are stamped. */
  function StampedCount(rows: seq<Row>, broker: nat -> Dispatch): nat
  {
    if rows == [] then 0
    else StampedCount(rows[..|rows| - 1], broker) + (if Stamped(rows[|rows| - 1], |rows| - 1, broker) then 1 else 0)
  }

  function SentNoticeCount(notices: seq<Notice>): nat
  {
    if notices == [] then 0
    else SentNoticeCount(notices[..|notices| - 1]) + (if notices[|notices| - 1].SentNotice? then 1 else 0)
  }

  lemma {:induction false} SentNoticeCountAppend(a: seq<Notice>, b: seq<Notice>)
    ensures SentNoticeCount(a + b) == SentNoticeCount(a) + SentNoticeCount(b)
    decreases |b|
  {
    if b == [] {
      assert a + b == a;
    } else {
      assert (a + b)[..|a + b| - 1] == a + b[..|b| - 1];
      SentNoticeCountAppend(a, b[..|b| - 1]);
    }
  }

  /** One notice per dispatch attempt: a message with no recipient produces
      neither a task nor a notice; every success notice reports the whole
      selection's size; and there are exactly as many success notices as
      stamped messages. */
  lemma {:induction false} NoticesMatchDispatches(rows: seq<Row>, total: nat, broker: nat -> Dispatch)
    ensures |Notices(rows, total, broker)| == |Jobs(rows)|
    ensures forall n :: n in Notices(rows, total, broker) && n.SentNotice? ==> n.count == total
    ensures SentNoticeCount(Notices(rows, total, broker)) == StampedCount(rows, broker)
  {
    if rows != [] {
      var init := rows[..|rows| - 1];
      NoticesMatchDispatches(init, total, broker);
      SentNoticeCountAppend(Notices(init, total, broker), StepNotices(rows[|rows| - 1], |rows| - 1, total, broker));
    }
  }

  /** When no selected message has a recipient with an address, nothing is
      dispatched and nothing is reported. */
  lemma {:induction false} NoRecipientsNothingHappens(rows: seq<Row>, total: nat, broker: nat -> Dispatch)
    requires forall i :: 0 <= i < |rows| ==> RecipientList(rows[i].recipientEmails) == []
    ensures Notices(rows, total, broker) == [] && Jobs(rows) == []
  {
    if rows != [] {
      NoRecipientsNothingHappens(rows[..|rows| - 1], total, broker);
    }
  }

  /** Extending the processed prefix by one message appends that message's
      notices and task. */
  lemma PrefixStep(rows: seq<Row>, k: nat, total: nat, broker: nat -> Dispatch)
    requires k < |rows|
    ensures Notices(rows[..k + 1], total, broker) == Notices(rows[..k], total, broker) + StepNotices(rows[k], k, total, broker)
    ensures Jobs(rows[..k + 1]) == Jobs(rows[..k]) + StepJobs(rows[k])
  {
    assert rows[..k + 1][..k] == rows[..k];
  }

  /** The `sent_at` of a message after the action: stamped with `now`, in
      memory and in the saved row, or both as they were `before`. */
  ghost predicate Settled(m: EmailMessage, stamped: bool, now: Time, before: Option<Time>, storedBefore: Option<Time>)
    reads m
  {
    if stamped then m.sentAt == Some(now) && m.storedSentAt == Some(now)
    else m.sentAt == before && m.storedSentAt == storedBefore
  }

  /** The body of the loop for the message at `position`: dispatch when the
      recipient list is not empty, stamp and save only when the task was queued. */
  method SendOne(emailMessage: EmailMessage, position: nat, total: nat, broker: nat -> Dispatch, clock: nat -> Time)
    returns (stepNotices: seq<Notice>, stepJobs: seq<EmailJob>)
    modifies emailMessage
    ensures stepNotices == StepNotices(old(RowOf(emailMessage)), position, total, broker)
    ensures stepJobs == StepJobs(old(RowOf(emailMessage)))
    ensures RowOf(emailMessage) == old(RowOf(emailMessage))
    ensures Settled(emailMessage, Stamped(old(RowOf(emailMessage)), position, broker), clock(position),
                    old(emailMessage.sentAt), old(emailMessage.storedSentAt))
  {
    stepNotices, stepJobs := [], [];
    var recipientList := RecipientList(emailMessage.recipientEmails);
    if recipientList != [] {
      stepJobs := [EmailJob(emailMessage.subject, emailMessage.message, recipientList)];
      match broker(position)
      case Queued =>
        emailMessage.sentAt := Some(clock(position));
        emailMessage.Save();
        stepNotices := [SentNotice(total)];
      case CeleryError(reason) =>
        stepNotices := [FailureNotice(reason)];
    }
  }

  /** `EmailMessageAdmin.send_selected_emails(request, queryset)`. Returns the
      notices shown and the tasks queued. Each message's `sent_at` is stamped
      with its own `now()` and saved only when it was dispatched and queued;
      every other message, and every other field, is left as it was. */
  method SendSelectedEmails(queryset: seq<EmailMessage>, broker: nat -> Dispatch, clock: nat -> Time)
    returns (notices: seq<Notice>, jobs: seq<EmailJob>)
    requires forall i, j :: 0 <= i < j < |queryset| ==> queryset[i] != queryset[j]
    modifies queryset
    ensures notices == Notices(old(Rows(queryset)), |queryset|, broker)
    ensures jobs == Jobs(old(Rows(queryset)))
    ensures forall i :: 0 <= i < |queryset| ==> RowOf(queryset[i]) == old(RowOf(queryset[i]))
    ensures forall i :: 0 <= i < |queryset| ==>
      Settled(queryset[i], Stamped(old(RowOf(queryset[i])), i, broker), clock(i),
              old(queryset[i].sentAt), old(queryset[i].storedSentAt))
  {
    ghost var rows := Rows(queryset);
    notices, jobs := [], [];
    var total := |queryset|;
    for k := 0 to |queryset|
      invariant forall i :: 0 <= i < |queryset| ==> RowOf(queryset[i]) == rows[i]
      invariant notices == Notices(rows[..k], total, broker)
      invariant jobs == Jobs(rows[..k])
      invariant forall i :: 0 <= i < k ==>
        Settled(queryset[i], Stamped(rows[i], i, broker), clock(i), old(queryset[i].sentAt), old(queryset[i].storedSentAt))
      invariant forall i :: k <= i < |queryset| ==>
        Settled(queryset[i], false, clock(i), old(queryset[i].sentAt), old(queryset[i].storedSentAt))
    {
      var stepNotices, stepJobs := SendOne(queryset[k], k, total, broker, clock);
      PrefixStep(rows, k, total, broker);
      notices := notices + stepNotices;
      jobs := jobs + stepJobs;
    }
    assert rows[..|queryset|] == rows;
  }
}
