/** The `__main__` block of the wrapper: from the command line and the
    outcome of the child process to the one notification it sends and the
    way the script ends. Running the child and talking SMTP are effects the
    model records in a trace instead of performing. */
module WrapScript {
  import opened Optional
  import opened Decimal
  import opened Mail

  /** The two configuration values the orchestration reads: the admin address
      and the mailer (`From`) address. */
  datatype Config = Config(admin: string, mailer: string)

  /** What running the child produced: it exited with a return code after
      writing its merged standard output and error, or it could not be started. */
  datatype ChildOutcome = Exited(code: int, output: string) | LaunchFailed

  /** The observable steps of one invocation, in order. */
  datatype Effect = Spawn(argv: seq<string>) | Send(message: Message)

  /** How the script ends: falling off the end of `__main__`, an explicit
      `sys.exit(status)`, or an exception that nothing catches. */
  datatype Termination = Finished | SysExit(status: int) | Raised

  datatype Invocation = Invocation(effects: seq<Effect>, end: Termination)

  /** The process exit status of each termination; Python exits with 1 on an
      uncaught exception. */
  function ExitStatus(t: Termination): int {
    match t
    case Finished => 0
    case SysExit(status) => status
    case Raised => 1
  }

  const NoCommandSubject: string := "Wrapper script failure"
  const NoCommandBody: string := "Failed to run a command (no command given)."

  /** `'Run %s success' % args[0]` */
  function SuccessSubject(cmd: string): string {
    "Run " + cmd + " success"
  }

  /** `'failed to run %s; code %d' % (args[0], e.returncode)` */
  function FailureSubject(cmd: string, code: int): string {
    "failed to run " + cmd + "; code " + FormatInt(code)
  }

  /** The final subject of the no-command notification. */
  lemma NoCommandSubjectText()
    ensures ComposeSubject(Some(Error), NoCommandSubject) == "[Error] Wrapper script failure"
  {
  }

  /** The final subject of the success notification. */
  lemma SuccessSubjectText(cmd: string)
    ensures ComposeSubject(Some(Info), SuccessSubject(cmd)) == "[Info] Run " + cmd + " success"
  {
  }

  /** The final subject of the failure notification, the return code in
      `'%d'` form. */
  lemma FailureSubjectText(cmd: string, code: int)
    ensures ComposeSubject(Some(Error), FailureSubject(cmd, code))
         == "[Error] failed to run " + cmd + "; code " + FormatInt(code)
  {
  }

  /** The `__main__` branching. `child` is consulted only once `args` names a
      command to run. */
  function Plan(cfg: Config, args: seq<string>, child: ChildOutcome): (inv: Invocation)
    ensures |args| == 0 ==> inv == Invocation(
      [Send(Message(Some(Error), "[Error] Wrapper script failure",
                 "Failed to run a command (no command given).",
                 cfg.mailer, cfg.admin, cfg.mailer, [cfg.admin]))],
      SysExit(1))
    ensures |args| > 0 && child.Exited? && child.code == 0 ==> inv == Invocation(
      [Spawn(args),
       Send(Message(Some(Info), "[Info] Run " + args[0] + " success", child.output,
                 cfg.mailer, cfg.admin, cfg.mailer, [cfg.admin]))],
      Finished)
    ensures |args| > 0 && child.Exited? && child.code != 0 ==> inv == Invocation(
      [Spawn(args),
       Send(Message(Some(Error), "[Error] failed to run " + args[0] + "; code " + FormatInt(child.code),
                 child.output, cfg.mailer, cfg.admin, cfg.mailer, [cfg.admin]))],
      Finished)
    ensures |args| > 0 && child.LaunchFailed? ==> inv == Invocation([Spawn(args)], Raised)
  {
    if |args| == 0 then
      NoCommandSubjectText();
      Invocation([Send(SendError(NoCommandBody, NoCommandSubject, cfg.admin, cfg.mailer))], SysExit(1))
    else
      match child
      case LaunchFailed =>
        // only CalledProcessError is caught: the OSError propagates
        Invocation([Spawn(args)], Raised)
      case Exited(code, output) =>
        if code == 0 then
          SuccessSubjectText(args[0]);
          Invocation([Spawn(args), Send(SendInfo(output, SuccessSubject(args[0]), cfg.admin, cfg.mailer))], Finished)
        else
          FailureSubjectText(args[0], code);
          Invocation([Spawn(args), Send(SendError(output, FailureSubject(args[0], code), cfg.admin, cfg.mailer))], Finished)
  }

  /** The messages an invocation sends, in order. */
  function SentMessages(effects: seq<Effect>): (ms: seq<Message>)
    ensures |ms| <= |effects|
    ensures forall m :: m in ms <==> Send(m) in effects
  {
    if |effects| == 0 then []
    else
      var rest := SentMessages(effects[1..]);
      assert forall e :: e in effects <==> e == effects[0] || e in effects[1..];
      match effects[0]
      case Send(m) => [m] + rest
      case Spawn(_) => rest
  }

  predicate Spawned(inv: Invocation) {
    exists i :: 0 <= i < |inv.effects| && inv.effects[i].Spawn?
  }

  /** Exactly one notification on every path the script recovers from; none
      when the child cannot be started, because that exception escapes. */
  lemma OneNotificationPerPath(cfg: Config, args: seq<string>, child: ChildOutcome)
    ensures |SentMessages(Plan(cfg, args, child).effects)| == (if |args| > 0 && child.LaunchFailed? then 0 else 1)
  {
  }

  /** An attempt to start a command is made exactly when one is given, with
      the whole argument list, before anything is sent. */
  lemma SpawnsOnlyWithArgs(cfg: Config, args: seq<string>, child: ChildOutcome)
    ensures Spawned(Plan(cfg, args, child)) <==> |args| > 0
    ensures |args| > 0 ==> Plan(cfg, args, child).effects[0] == Spawn(args)
  {
  }

  /** The notification is at level Info if and only if the command ran and
      returned 0; every other notification is at level Error. */
  lemma InfoIffSuccess(cfg: Config, args: seq<string>, child: ChildOutcome, m: Message)
    requires m in SentMessages(Plan(cfg, args, child).effects)
    ensures m.level == Some(Info) <==> |args| > 0 && child.Exited? && child.code == 0
    ensures m.level != Some(Info) ==> m.level == Some(Error)
  {
  }

  /** The exit status is non-zero only when no command was given (explicit
      `sys.exit(1)`) or the child could not be started (uncaught exception).
      A command that ran and failed still leaves the wrapper exiting with 0. */
  lemma ExitStatusOfPlan(cfg: Config, args: seq<string>, child: ChildOutcome)
    ensures ExitStatus(Plan(cfg, args, child).end) != 0 <==> |args| == 0 || child.LaunchFailed?
    ensures |args| == 0 ==> Plan(cfg, args, child).end == SysExit(1)
  {
  }

  /** Every notification goes from the configured mailer to the configured
      admin, who is its single envelope recipient. */
  lemma AddressedToAdmin(cfg: Config, args: seq<string>, child: ChildOutcome, m: Message)
    requires m in SentMessages(Plan(cfg, args, child).effects)
    ensures m.recipient == cfg.admin && m.envelopeRecipients == [cfg.admin]
    ensures m.sender == cfg.mailer && m.envelopeSender == cfg.mailer
  {
  }

  /** The child's merged output is the body, unchanged. */
  lemma BodyIsOutput(cfg: Config, args: seq<string>, child: ChildOutcome, m: Message)
    requires m in SentMessages(Plan(cfg, args, child).effects)
    ensures |args| > 0 ==> child.Exited? && m.body == child.output
    ensures |args| == 0 ==> m.body == NoCommandBody
  {
  }

  /** The subject text `__main__` passes to `send_error` or `send_info`. */
  function GivenSubject(args: seq<string>, child: ChildOutcome): string
    requires |args| == 0 || child.Exited?
  {
    if |args| == 0 then NoCommandSubject
    else if child.code == 0 then SuccessSubject(args[0])
    else FailureSubject(args[0], child.code)
  }

  /** The message sent is `send_mail` applied to the given subject at the
      chosen level. */
  lemma PlannedMessage(cfg: Config, args: seq<string>, child: ChildOutcome, m: Message)
    requires m in SentMessages(Plan(cfg, args, child).effects)
    ensures |args| == 0 || child.Exited?
    ensures m.subject == ComposeSubject(m.level, GivenSubject(args, child))
    ensures m.level.Some? && GivenSubject(args, child) != ""
  {
  }

  /** The script's own subjects never start with a tag, so each notification
      carries exactly one: its level's. */
  lemma SubjectTaggedOnce(cfg: Config, args: seq<string>, child: ChildOutcome, m: Message)
    requires m in SentMessages(Plan(cfg, args, child).effects)
    ensures TagOf(m.subject) == m.level
    ensures TagOf(Untag(m.subject)) == None
  {
    PlannedMessage(cfg, args, child, m);
    var given := GivenSubject(args, child);
    assert given[0] in "WRf";
    NoTagWithoutBracket(given);
  }

  /** What the admin learns from a notification: the path taken, the
      command's name, a failed command's return code, and the output. */
  datatype Verdict =
    | NoCommandGiven
    | Succeeded(cmd: string, output: string)
    | Failed(cmd: string, code: int, output: string)
    | Unrecognised

  const SuccessOpening: string := "[Info] Run "
  const SuccessClosing: string := " success"
  const FailureOpening: string := "[Error] failed to run "
  const CodeSeparator: string := "; code "

  /** Reads a notification's subject and body back into an outcome. The
      return code is the trailing run of numeral characters, which must
      follow the code separator; the command name is what lies between the
      fixed opening and that separator. */
  function Interpret(subject: string, body: string): Verdict {
    if subject == "[Error] Wrapper script failure" then NoCommandGiven
    else if HasPrefix(subject, SuccessOpening) && |SuccessOpening| + |SuccessClosing| <= |subject|
         && subject[|subject| - |SuccessClosing|..] == SuccessClosing then
      Succeeded(subject[|SuccessOpening|..|subject| - |SuccessClosing|], body)
    else if HasPrefix(subject, FailureOpening) then
      var i := TrailingNumeralStart(subject);
      if |FailureOpening| + |CodeSeparator| <= i && subject[i - |CodeSeparator|..i] == CodeSeparator then
        match ParseInt(subject[i..])
        case Some(code) => Failed(subject[|FailureOpening|..i - |CodeSeparator|], code, body)
        case None => Unrecognised
      else Unrecognised
    else Unrecognised
  }

  /** The classification the notification is meant to convey. */
  function Expected(args: seq<string>, child: ChildOutcome): Verdict {
    if |args| == 0 then NoCommandGiven
    else match child
      case Exited(code, output) => if code == 0 then Succeeded(args[0], output) else Failed(args[0], code, output)
      case LaunchFailed => Unrecognised
  }

  lemma InterpretsNoCommand(body: string)
    ensures Interpret("[Error] Wrapper script failure", body) == NoCommandGiven
  {
  }

  lemma InterpretsSuccess(cmd: string, output: string)
    ensures Interpret("[Info] Run " + cmd + " success", output) == Succeeded(cmd, output)
  {
    var subject := "[Info] Run " + cmd + " success";
    assert subject == SuccessOpening + cmd + SuccessClosing;
    assert subject != "[Error] Wrapper script failure" by {
      assert subject[1] == 'I';
    }
    assert subject[..|SuccessOpening|] == SuccessOpening;
    assert subject[|subject| - |SuccessClosing|..] == SuccessClosing;
    assert subject[|SuccessOpening|..|subject| - |SuccessClosing|] == cmd;
  }

  lemma InterpretsFailure(cmd: string, code: int, output: string)
    ensures Interpret("[Error] failed to run " + cmd + "; code " + FormatInt(code), output) == Failed(cmd, code, output)
  {
    var digits := FormatInt(code);
    var head := FailureOpening + cmd + CodeSeparator;
    var subject := "[Error] failed to run " + cmd + "; code " + digits;
    assert subject == head + digits;
    assert subject != "[Error] Wrapper script failure" by {
      assert subject[8] == 'f';
    }
    assert !HasPrefix(subject, SuccessOpening) by {
      assert subject[1] == 'E';
    }
    assert subject[..|FailureOpening|] == FailureOpening;
    FormatIntIsNumeral(code);
    assert head[|head| - 1] == ' ';
    TrailingNumeralStartAt(head, digits);
    var i := |head|;
    assert subject[i - |CodeSeparator|..i] == CodeSeparator;
    assert subject[i..] == digits;
    assert subject[|FailureOpening|..i - |CodeSeparator|] == cmd;
    FormatIntRoundTrip(code);
  }

  /** Subject and body alone tell the admin which path was taken, the name of
      the command, the return code of a failed command and its full output. */
  lemma InterpretRoundTrip(cfg: Config, args: seq<string>, child: ChildOutcome, m: Message)
    requires m in SentMessages(Plan(cfg, args, child).effects)
    ensures Interpret(m.subject, m.body) == Expected(args, child)
  {
    if |args| == 0 {
      InterpretsNoCommand(m.body);
    } else if child.Exited? && child.code == 0 {
      InterpretsSuccess(args[0], child.output);
    } else if child.Exited? {
      InterpretsFailure(args[0], child.code, child.output);
    }
  }
}
