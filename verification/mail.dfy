/** The message side of `send_mail` and its two level wrappers. The SMTP
    session and the MIME encoding are not modelled: a `Message` is the record
    of what would be handed to the relay. */
module Mail {
  import opened Optional

  datatype Level = Info | Error

  function LevelName(l: Level): string {
    match l
    case Info => "Info"
    case Error => "Error"
  }

  /** The `"[Level] "` tag put in front of a subject. */
  function Tag(l: Level): string {
    "[" + LevelName(l) + "] "
  }

  predicate HasPrefix(s: string, p: string) {
    |p| <= |s| && s[..|p|] == p
  }

  /** The level whose tag a subject starts with, if any. */
  function TagOf(subject: string): (r: Option<Level>)
    ensures r.Some? ==> HasPrefix(subject, Tag(r.value))
    ensures r.None? ==> forall l: Level :: !HasPrefix(subject, Tag(l))
  {
    if HasPrefix(subject, Tag(Info)) then Some(Info)
    else if HasPrefix(subject, Tag(Error)) then Some(Error)
    else None
  }

  /** No subject carries both tags: they differ in their second character. */
  lemma TagsExclusive(subject: string)
    ensures !(HasPrefix(subject, Tag(Info)) && HasPrefix(subject, Tag(Error)))
  {
    if HasPrefix(subject, Tag(Info)) {
      assert subject[1] == Tag(Info)[1] == 'I';
      assert Tag(Error)[1] == 'E';
    }
  }

  /** A subject that does not open with a bracket carries no tag. */
  lemma NoTagWithoutBracket(subject: string)
    requires |subject| > 0 && subject[0] != '['
    ensures TagOf(subject) == None
  {
  }

  /** A tagged subject with its leading tag removed. */
  function Untag(subject: string): string
    requires TagOf(subject).Some?
  {
    subject[|Tag(TagOf(subject).value)|..]
  }

  /** The subject text chosen when the caller gives none. */
  function DefaultSubject(l: Level): string {
    "General " + LevelName(l)
  }

  /** A notification: its level, the `Subject`, `From` and `To` headers, the
      plain-text body, and the SMTP envelope sender and recipients. */
  datatype Message = Message(
    level: Option<Level>,
    subject: string,
    body: string,
    sender: string,
    recipient: string,
    envelopeSender: string,
    envelopeRecipients: seq<string>)

  /** The final subject: untouched without a level; otherwise the level's tag
      in front of the subject, or of the default subject when it is empty. */
  function ComposeSubject(level: Option<Level>, subject: string): (r: string)
    ensures level.None? ==> r == subject
    ensures level.Some? ==> TagOf(r) == level
    ensures level.Some? ==> Untag(r) == (if subject == "" then DefaultSubject(level.value) else subject)
  {
    match level
    case None => subject
    case Some(l) =>
      var s := if subject == "" then DefaultSubject(l) else subject;
      assert (Tag(l) + s)[..|Tag(l)|] == Tag(l);
      TagsExclusive(Tag(l) + s);
      Tag(l) + s
  }

  /** The two tags spelled out. */
  lemma TagText(l: Level)
    ensures Tag(l) == (match l case Info => "[Info] " case Error => "[Error] ")
  {
  }

  /** With a level and an empty subject, the subject is `"[L] General L"`. */
  lemma EmptySubjectGetsDefault(l: Level)
    ensures ComposeSubject(Some(l), "") == "[" + LevelName(l) + "] General " + LevelName(l)
  {
  }

  /** With a level and a non-empty subject `s`, the subject is `"[L] " + s`. */
  lemma SubjectGetsTag(l: Level, s: string)
    requires s != ""
    ensures ComposeSubject(Some(l), s) == "[" + LevelName(l) + "] " + s
  {
  }

  /** The tag is added with no check for one already present: composing
      twice doubles it, so subject composition is not idempotent. */
  lemma ComposeSubjectDoublesTag(l: Level, s: string)
    ensures ComposeSubject(Some(l), ComposeSubject(Some(l), s)) == Tag(l) + ComposeSubject(Some(l), s)
    ensures ComposeSubject(Some(l), ComposeSubject(Some(l), s)) != ComposeSubject(Some(l), s)
  {
    var once := ComposeSubject(Some(l), s);
    assert |Tag(l) + once| > |once|;
  }

  /** `send_mail`: the message it would submit, body verbatim, addressed
      `From: from` and `To: to`, with `to` as the single envelope recipient. */
  function SendMail(body: string, subject: string, to: string, from: string, level: Option<Level>): (m: Message)
    ensures m.level == level && m.body == body
    ensures level.None? ==> m.subject == subject
    ensures level.Some? ==> TagOf(m.subject) == level
    ensures level.Some? ==> Untag(m.subject) == (if subject == "" then DefaultSubject(level.value) else subject)
    ensures m.sender == from && m.envelopeSender == from
    ensures m.recipient == to && m.envelopeRecipients == [to]
  {
    Message(level, ComposeSubject(level, subject), body, from, to, from, [to])
  }

  /** `send_error`: `send_mail` at level Error. */
  function SendError(body: string, subject: string, to: string, from: string): (m: Message)
    ensures m.level == Some(Error) && m.body == body
    ensures HasPrefix(m.subject, "[Error] ")
    ensures Untag(m.subject) == (if subject == "" then "General Error" else subject)
    ensures m.recipient == to && m.envelopeRecipients == [to]
    ensures m.sender == from && m.envelopeSender == from
  {
    TagText(Error);
    assert DefaultSubject(Error) == "General Error";
    SendMail(body, subject, to, from, Some(Error))
  }

  /** `send_info`: `send_mail` at level Info. */
  function SendInfo(body: string, subject: string, to: string, from: string): (m: Message)
    ensures m.level == Some(Info) && m.body == body
    ensures HasPrefix(m.subject, "[Info] ")
    ensures Untag(m.subject) == (if subject == "" then "General Info" else subject)
    ensures m.recipient == to && m.envelopeRecipients == [to]
    ensures m.sender == from && m.envelopeSender == from
  {
    TagText(Info);
    assert DefaultSubject(Info) == "General Info";
    SendMail(body, subject, to, from, Some(Info))
  }
}
