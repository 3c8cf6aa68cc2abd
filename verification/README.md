# wrap_script: verified model of the notification decision

`wrap_script.py` runs a command, captures its merged standard output and
standard error, and mails the outcome to a fixed admin address through an
SMTP relay. Between running the child and talking SMTP sits a small pure
decision: which level the notification has, what its subject says, what its
body is, who it is addressed to, and how the script ends. This project
models that decision in Dafny and proves its properties.

- `optional.dfy` — `Optional.Option`, for Python's `None`.
- `decimal.dfy` — `Decimal`: Python's `'%d' % n` (`FormatInt`), including
  negative return codes (a child killed by a signal), with a parser
  (`ParseInt`) as its partner and round trips in both directions.
- `mail.dfy` — `Mail`: `Level` (Info, Error), the `Message` record (level,
  `Subject`, body, `From`, `To`, envelope sender and recipients), the subject
  rule of `send_mail` (`ComposeSubject`), whose partner is the tag reader
  `TagOf`/`Untag`, and the wrappers `send_error` and `send_info`.
- `wrap_script.dfy` — `WrapScript`: the `__main__` branching as `Plan`, from
  the configuration, the argument list and the child's outcome to a trace of
  effects (`Spawn`, `Send`) and a termination (end of script, `sys.exit`,
  uncaught exception). Its partner is `Interpret`, which reads a
  notification's subject and body, and nothing else, back into the outcome
  the admin is told, command name included.

The child's outcome is an input value: `Exited(code, output)` stands for
`check_output` returning (code 0) or raising `CalledProcessError` (non-zero
`returncode`, with `e.output`), and `LaunchFailed` for the `OSError` raised
when the executable cannot be started.

Behaviour of the script worth knowing, all proved about the model:

- A launch failure is not caught (only `CalledProcessError` is), so no
  notification is sent and the exception ends the script with status 1.
- After a failed command the script does not call `sys.exit`, so it exits
  with 0.
- The level tag is prepended with no check for one already present, so
  subject composition is not idempotent (`ComposeSubjectDoublesTag`). The
  script's own subjects never start with a tag, so each notification it
  sends carries exactly one (`SubjectTaggedOnce`).

## Model

| member | source | states |
|---|---|---|
| Mail.ComposeSubject | wrap_script.py:49-52 | without a level the subject is unchanged; with a level the result reads back as tagged with that level, and removing the tag leaves the given subject, or `General <level>` when it was empty |
| Mail.EmptySubjectGetsDefault | wrap_script.py:49-52 | level L and empty subject give exactly `[L] General L` |
| Mail.SubjectGetsTag | wrap_script.py:49-52 | level L and non-empty subject s give exactly `[L] ` + s |
| Mail.ComposeSubjectDoublesTag | wrap_script.py:52 | composing an already composed subject adds a second tag, so the rule is not idempotent |
| Mail.SendMail | wrap_script.py:47-62 | the message carries the level and the body verbatim; its subject is unchanged without a level, and with one it is tagged with that level around the given or `General <level>` subject; `From` and the envelope sender are `from_`, `To` is `to`, the single envelope recipient |
| Mail.SendError | wrap_script.py:66-67 | level Error, body verbatim, subject `[Error] ` followed by the given or `General Error` subject, `From`/`To` headers, envelope sender `from_` and single envelope recipient `to` |
| Mail.SendInfo | wrap_script.py:70-71 | level Info, body verbatim, subject `[Info] ` followed by the given or `General Info` subject, `From`/`To` headers, envelope sender `from_` and single envelope recipient `to` |
| Decimal.NatToDecimal | wrap_script.py:98 | the decimal text of a natural number is non-empty, all digits, and has no leading zero |
| Decimal.FormatInt | wrap_script.py:98 | `%d` text starts with a minus sign exactly when the number is negative |
| Decimal.ParseNatOfNatToDecimal | wrap_script.py:98 | reading the digits of a natural number back gives the number |
| Decimal.FormatIntRoundTrip | wrap_script.py:98 | every return code, negative ones included, is read back from its `%d` text |
| Decimal.FormatIntInjective | wrap_script.py:98 | two return codes have the same `%d` text only if they are equal |
| Decimal.FormatIntIsCanonical | wrap_script.py:98 | `%d` text has no leading zero and no negative zero |
| Decimal.ParseIntCanonical | wrap_script.py:98 | every canonical decimal text is the `%d` text of the number it denotes |
| WrapScript.NoCommandSubjectText | wrap_script.py:84-85 | the no-command subject is exactly `[Error] Wrapper script failure` |
| WrapScript.SuccessSubjectText | wrap_script.py:94 | the success subject is exactly `[Info] Run <cmd> success` |
| WrapScript.FailureSubjectText | wrap_script.py:98 | the failure subject is exactly `[Error] failed to run <cmd>; code <%d of code>` |
| WrapScript.Plan | wrap_script.py:83-103 | the exact trace on each path: no args sends one Error mail with the fixed subject and body then exits 1; code 0 spawns then sends one Info mail with the output; non-zero code spawns then sends one Error mail with the code and the output; a launch failure spawns and raises with nothing sent |
| WrapScript.OneNotificationPerPath | wrap_script.py:83-103 | exactly one notification when no command is given or the command ran, none when it could not be started |
| WrapScript.SpawnsOnlyWithArgs | wrap_script.py:83-91 | an attempt to start the command is made if and only if arguments are given, with the whole argument list, before any mail |
| WrapScript.InfoIffSuccess | wrap_script.py:90-103 | the notification is Info if and only if the command ran and returned 0, otherwise Error |
| WrapScript.ExitStatusOfPlan | wrap_script.py:89-103 | the exit status is non-zero if and only if no command was given (`sys.exit(1)`) or the launch failed; a failed command exits 0 |
| WrapScript.AddressedToAdmin | wrap_script.py:78-103 | every notification is from the configured mailer to the configured admin, who is its single envelope recipient |
| WrapScript.BodyIsOutput | wrap_script.py:84-103 | the body is the child's captured output, or the fixed no-command text |
| WrapScript.PlannedMessage | wrap_script.py:84-103 | the mail sent is the subject rule applied at a level to the non-empty subject `__main__` chose |
| WrapScript.SubjectTaggedOnce | wrap_script.py:84-103 | each notification's subject carries its level's tag and no second tag |
| WrapScript.InterpretRoundTrip | wrap_script.py:83-103 | from a notification's subject and body alone the admin recovers the path taken, the command's name, the return code of a failed command and its full output |

## Left out

- Running the child (`subprocess.check_output`, merging standard error into standard output, line 91): operating-system I/O; its result is the `ChildOutcome` input.
- The SMTP session (connect, STARTTLS, login, sendmail, quit, lines 58-63) and so the SMTP part of the configuration: a network client over a library not modelled; a message is recorded as a `Send` effect instead. Delivery failures, which propagate uncaught, are therefore not modelled either.
- MIME construction (`MIMEText`, `as_string`, lines 53-56 and 62): a foreign library; the headers and body are plain fields of `Message`.
- Loading the JSON configuration and slicing `sys.argv` (lines 75-81): file I/O and command-line plumbing; `Config` and the argument list are parameters.
- Values the script never passes: `level` is only ever absent, `'Error'` or `'Info'`, and `subject`, `to` and `from_` are always strings, so other falsy or `None` values of these parameters are not modelled.
- Text versus bytes: the script targets Python 2, where the captured output is a string; output is modelled as a string.
