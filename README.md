# suexec argument handling, modelled in Dafny

`suexec [options] user argument...` is a launcher. It is meant to run a command
as another user. The program consists of two parts. The first is the argument
scan `process_args`. The second is `main`, which prints the command line,
runs the scan, exits with status 99 on failure, and otherwise prints the
argument vector that is to be executed. This project models both.
`suexec.dfy` holds one module, `Suexec`:

- `ProcessArgs` is the scan as the program writes it. It is a loop with a
  counter starting at 1 and a `done` flag. The first token that does not
  begin with `-` is stored as the user, and the loop then stops. Any `-` token
  reached before that is rejected, because no option letter is defined. After
  the loop come the "missing user" and "missing command" checks. On success
  the scan returns the index where the command begins, otherwise -1. The
  program's global user slot (`m_user`, a static pointer that starts as NULL)
  is passed into the method as `user0` and comes back out as `user`. The
  method also reports which of the three error diagnostics the scan ended with.
- `Partition` is the specification of the scan: the decision it takes, as a
  function of the command line and the user slot's value on entry.
  `ProcessArgs` is proved equal to it, and the lemmas state, for every
  command line, what the launcher promises.
- `Run` is `main`. It runs the scan from the initial NULL user slot and
  returns exit status 99 with no command, or status 0 with `argv[idx..]`.
- `IsOption` and `OptionCode` are the two reads the program makes of a token. `CStringAt` gives the character at a position of the token stored as a C string, and their contracts are stated in terms of it.

Tokens are `string`s. An empty token is not an option, since the first
character the program reads from it is the terminating NUL. The option letter
of `"-"` alone is NUL.

## Model

| member | source | states |
|---|---|---|
| `Suexec.ProcessArgs` | suexec.c:19-62 | the loop returns -1 or the command index, and leaves the user slot, exactly as `Partition` decides; it also names which of the three error diagnostics ends the scan, and no error diagnostic on success |
| `Suexec.Run` | suexec.c:75-92 | status 99 exactly when the scan fails, with no command vector; status 0 exactly when it succeeds, with the command vector `argv[2..]` of a command line that has at least three tokens |
| `Suexec.ReturnCode` | suexec.c:45-61 | the scan's integer result is negative exactly on failure, every failure is exactly -1, and a success is the command index |
| `Suexec.IsOption` | suexec.c:32 | a token is an option exactly when the first character the program reads from it as a NUL-terminated string is `-`; an option token is never empty |
| `Suexec.OptionCode` | suexec.c:42 | the option letter is the character the program reads at position 1 of the NUL-terminated token, so NUL for `-` alone |
| `Suexec.Partition` | suexec.c:29-61 | a successful scan has captured a user and returns an index of at least 1, below `argc` when `argc >= 1`; the user slot changes only by capturing the non-option token `argv[1]` |
| `Suexec.SuccessBounds` | suexec.c:56-61 | on success from the initial state the index is 2 and lies in `2 <= idx < argc`, so the command vector is non-empty |
| `Suexec.SuccessUser` | suexec.c:32-33 | on success the user slot holds `argv[idx-1]`, and that token does not begin with `-` |
| `Suexec.SuccessIff` | suexec.c:29-61 | the scan succeeds if and only if there are at least three tokens and `argv[1]` is not an option |
| `Suexec.OptionBeforeUserRejected` | suexec.c:41-48 | any option token reached before a user token makes the scan fail with the invalid-option diagnostic for `argv[1]`, whatever its second character, and the user slot keeps its value |
| `Suexec.NoUserFails` | suexec.c:29-54 | when no token after `argv[0]` is a non-option, the scan fails and no user is captured |
| `Suexec.MissingUserIff` | suexec.c:51-54 | from the initial state, "missing user" is the outcome if and only if `argc <= 1` |
| `Suexec.MissingCommandIff` | suexec.c:56-59 | "missing command" is the outcome if and only if the user token is the last token, or the slot already held a user when `argc` is 1; this holds for every `argc`, including 0 |
| `Suexec.CommandUninspected` | suexec.c:36-38 | replacing the command part of a successful command line by any non-empty vector, options included, changes neither the result nor the user |
| `Suexec.TailIrrelevant` | suexec.c:29-38 | the result depends on `argv[2..]` only through whether it is empty |
| `Suexec.ProgramNameIrrelevant` | suexec.c:29 | changing `argv[0]` never changes the result |
| `Suexec.PriorIrrelevantWithUserToken` | suexec.c:14-33 | the user slot's value on entry does not matter once `argv[1]` is a user token |
| `Suexec.UserIsFirstNonOption` | suexec.c:24-38 | on success the user is the first non-option token, and the tokens the launcher consumes, `argv[..idx]`, are exactly `[argv[0], user]` |
| `Suexec.LateUserRejected` | suexec.c:41-47 | if the first non-option token comes after `argv[1]`, options came first and the scan fails on `argv[1]` |
| `Suexec.EchoExample` | suexec.c:4-7 | `prog alice /bin/echo -n hi` gives user `alice` and command `/bin/echo -n hi` |

## Left out

- Diagnostic and trace output (`errmsg`/`verbose`, `printf`) is output I/O. It is not modelled. This includes the trace lines written on the success path and before an invalid-option error. The only part kept is which error diagnostic the scan ends with, as `ProcessArgs`'s `err` result.
- OptionCode: tokens are modelled as sequences of characters, not of bytes. For a token such as `-é` the program reads and reports the first byte of the character's encoding, but the model reports the whole character, and so does the `err` result of `ProcessArgs`. A model token may also contain NUL, which a C argument cannot. Neither difference affects the returned index or the captured user.
- `print_argv` is left out. It only prints, and it deliberately reads the NULL sentinel `argv[argc]`, which has no counterpart in a sequence of strings.
- `exit(99)` does not model process termination. It becomes the status value `Run` returns, and on that path `Run` yields no command vector.
- The scan's user slot is a process-wide static in the program. The model passes its value in and out of `ProcessArgs` instead. The slot's value on entry affects the returned index only when `argc < 2`. In that case the loop never runs and the NULL test reads the slot as it was, so with a user already set and `argc == 0` the program would return 1. The slot's value on exit also depends on its value on entry whenever no user is captured, for instance when `argv[1]` is an option. The program itself always scans once, from NULL, as `Run` does.
- `m_user` is a pointer into `argv`. The model records the token's contents, not the pointer identity.
- The program does not change user or group, change directory or execute a command. `main` returns 0 after printing. So no privilege transition is modelled.
