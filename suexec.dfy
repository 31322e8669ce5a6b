/**
 * Argument handling of the suexec launcher:
 *
 *     suexec [options] user argument...
 *
 * `ProcessArgs` scans the command line the way the program does, with a loop
 * counter and a `done` flag, captures the target user in the program's global
 * user slot, and returns the index where the command to execute begins, or -1.
 * `Run` is the program's entry point: -1 becomes exit status 99, any other
 * index selects the suffix of the command line that is to be executed.
 *
 * The specification of the scan is the function `Partition`; the lemmas after
 * it state what the launcher promises about every command line.
 */
module Suexec {

  datatype Option<T> = None | Some(value: T)

  /** The three diagnostics the argument scan can end with. */
  datatype ArgError =
    | InvalidOption(opt: char)   // an option token was reached before the user
    | MissingUser                // no user token was found
    | MissingCommand             // the user token was the last token

  /** How the scan ends: the index where the command begins, or an error. */
  datatype Outcome = Command(index: nat) | Error(reason: ArgError)

  /** The outcome of one scan together with the global user slot afterwards. */
  datatype Parse = Parse(outcome: Outcome, user: Option<string>)

  /** The launcher's exit status on every failure. */
  const FailureStatus: int := 99

  /**
   * The character the program reads at position k of a token, where the
   * token is stored as a C string: its characters followed by a NUL.
   */
  function CStringAt(s: string, k: nat): char
    requires k <= |s|
  {
    (s + "\0")[k]
  }

  /**
   * A token is an option when its first character is '-'. An empty token is
   * not one: as a C string its first character is the terminating NUL.
   */
  function IsOption(s: string): (b: bool)
    ensures b <==> CStringAt(s, 0) == '-'
    ensures b ==> |s| >= 1
  {
    |s| > 0 && s[0] == '-'
  }

  /** The option letter of an option token: its second character, or NUL for "-" alone. */
  function OptionCode(s: string): (c: char)
    requires IsOption(s)
    ensures c == CStringAt(s, 1)
  {
    if |s| > 1 then s[1] else '\0'
  }

  /**
   * The integer the scan returns to its caller: negative exactly on failure,
   * and then always -1; otherwise the index where the command begins.
   */
  function ReturnCode(o: Outcome): (r: int)
    ensures r < 0 <==> o.Error?
    ensures r < 0 ==> r == -1
    ensures o.Command? ==> r == o.index
  {
    match o
    case Command(i) => i
    case Error(_) => -1
  }

  /**
   * Specification of the scan of `argv` when the global user slot holds
   * `prior` on entry. No option letter is defined, so only argv[1] is ever
   * looked at: an option there is rejected at once, anything else is the user.
   * When there is no argv[1] the slot keeps its value and the counter stays 1.
   */
  function Partition(argv: seq<string>, prior: Option<string>): (p: Parse)
    // a successful scan has captured a user, and leaves a non-empty command
    // whenever argv is non-empty
    ensures p.outcome.Command? ==> p.user.Some? && p.outcome.index >= 1
    ensures p.outcome.Command? && |argv| >= 1 ==> p.outcome.index < |argv|
    // the user slot changes only by capturing argv[1], a non-option token
    ensures p.user != prior ==> |argv| >= 2 && !IsOption(argv[1]) && p.user == Some(argv[1])
  {
    if |argv| >= 2 && IsOption(argv[1]) then
      Parse(Error(InvalidOption(OptionCode(argv[1]))), prior)
    else
      var next: nat := if |argv| >= 2 then 2 else 1;
      var user := if |argv| >= 2 then Some(argv[1]) else prior;
      if user.None? then Parse(Error(MissingUser), user)
      else if next == |argv| then Parse(Error(MissingCommand), user)
      else Parse(Command(next), user)
  }

  /**
   * The scan as the program performs it. `user0` is the global user slot on
   * entry (NULL, i.e. None, at program start), `user` the slot on exit, and
   * `err` the error diagnostic the scan ends with (None on success).
   */
  method ProcessArgs(argv: seq<string>, user0: Option<string>)
    returns (idx: int, user: Option<string>, err: Option<ArgError>)
    ensures idx == ReturnCode(Partition(argv, user0).outcome)
    ensures user == Partition(argv, user0).user
    ensures err == (match Partition(argv, user0).outcome
                    case Error(e) => Some(e)
                    case Command(_) => None)
  {
    user := user0;
    var i := 1;
    var done := false;
    while i < |argv| && !done
      invariant !done ==> i == 1 && user == user0
      invariant done ==> i == 2 && |argv| >= 2 && !IsOption(argv[1]) && user == Some(argv[1])
      decreases |argv| - i
    {
      if !IsOption(argv[i]) {
        user := Some(argv[i]);
        // every remaining token belongs to the command
        done := true;
        i := i + 1;
      } else {
        // no option letter is recognised: every one is invalid
        return -1, user, Some(InvalidOption(OptionCode(argv[i])));
      }
    }
    if user.None? {
      return -1, user, Some(MissingUser);
    }
    if i == |argv| {
      return -1, user, Some(MissingCommand);
    }
    return i, user, None;
  }

  /**
   * The program's entry point on the command line `argv`, with the user slot
   * in its initial NULL state. Failure gives exit status 99 and no command;
   * success gives status 0 and the argument vector that is to be executed.
   */
  method Run(argv: seq<string>) returns (status: int, command: Option<seq<string>>)
    ensures status == FailureStatus <==> Partition(argv, None).outcome.Error?
    ensures status == 0 <==> Partition(argv, None).outcome.Command?
    ensures status == FailureStatus ==> command.None?
    ensures status == 0 ==> |argv| >= 3 && command == Some(argv[2..])
  {
    var idx, user, err := ProcessArgs(argv, None);
    if idx < 0 {
      return FailureStatus, None;
    }
    SuccessBounds(argv);
    return 0, Some(argv[idx..]);
  }

  // ---------------------------------------------------------------------------
  // Properties of the scan

  /**
   * On success from the initial state the index lies in 2 .. |argv|-1, so the
   * command vector argv[idx..] is non-empty; in fact the index is always 2.
   */
  lemma SuccessBounds(argv: seq<string>)
    ensures Partition(argv, None).outcome.Command? ==>
      var idx := Partition(argv, None).outcome.index;
      idx == 2 && 2 <= idx < |argv| && |argv[idx..]| >= 1
  {
  }

  /** On success the user slot holds the token just before the command, and it is not an option. */
  lemma SuccessUser(argv: seq<string>, prior: Option<string>)
    requires Partition(argv, prior).outcome.Command?
    requires Partition(argv, prior).outcome.index >= 2
    ensures var idx := Partition(argv, prior).outcome.index;
      idx <= |argv| && Partition(argv, prior).user == Some(argv[idx - 1]) && !IsOption(argv[idx - 1])
  {
  }

  /** The scan succeeds exactly on command lines `prog user cmd ...` whose user token is not an option. */
  lemma SuccessIff(argv: seq<string>)
    ensures Partition(argv, None).outcome.Command? <==> |argv| >= 3 && !IsOption(argv[1])
  {
  }

  /**
   * An option token reached before any user token is rejected, whatever its
   * second character (for "-" alone the letter reported is NUL).
   */
  lemma OptionBeforeUserRejected(argv: seq<string>, prior: Option<string>, k: nat)
    requires 1 <= k < |argv| && IsOption(argv[k])
    requires forall j :: 1 <= j < k ==> IsOption(argv[j])
    ensures IsOption(argv[1])
    ensures Partition(argv, prior) == Parse(Error(InvalidOption(OptionCode(argv[1]))), prior)
  {
  }

  /** When no token after argv[0] is a possible user, the scan fails. */
  lemma NoUserFails(argv: seq<string>)
    requires forall k :: 1 <= k < |argv| ==> IsOption(argv[k])
    ensures Partition(argv, None).outcome.Error?
    ensures Partition(argv, None).user.None?
  {
  }

  /** From the initial state, "Missing 'user' argument" is reported exactly when argv has at most one token. */
  lemma MissingUserIff(argv: seq<string>)
    ensures Partition(argv, None).outcome == Error(MissingUser) <==> |argv| <= 1
  {
  }

  /** "Missing command" is reported exactly when the user token is the last token. */
  lemma MissingCommandIff(argv: seq<string>, prior: Option<string>)
    ensures Partition(argv, prior).outcome == Error(MissingCommand) <==>
      (|argv| == 2 && !IsOption(argv[1])) || (|argv| == 1 && prior.Some?)
  {
  }

  /**
   * Tokens after the user token are never examined: replacing the command
   * part of a successful command line by any non-empty vector, options
   * included, changes neither the outcome nor the captured user.
   */
  lemma CommandUninspected(argv: seq<string>, prior: Option<string>, command: seq<string>)
    requires Partition(argv, prior).outcome.Command?
    requires Partition(argv, prior).outcome.index >= 2
    requires |command| >= 1
    ensures var idx := Partition(argv, prior).outcome.index;
      idx <= |argv| && Partition(argv[..idx] + command, prior) == Partition(argv, prior)
  {
  }

  /**
   * More generally the scan depends on argv[2..] only through whether it is
   * empty: two command lines that agree on argv[1] and on that give the same result.
   */
  lemma TailIrrelevant(a: seq<string>, b: seq<string>, prior: Option<string>)
    requires |a| >= 2 && |b| >= 2 && a[1] == b[1]
    requires |a| == 2 <==> |b| == 2
    ensures Partition(a, prior) == Partition(b, prior)
  {
  }

  /** argv[0], the launcher's own name, is never examined. */
  lemma ProgramNameIrrelevant(argv: seq<string>, prior: Option<string>, name: string)
    requires |argv| >= 1
    ensures Partition(argv[0 := name], prior) == Partition(argv, prior)
  {
  }

  /** Once argv[1] is a user token, the user slot's value on entry does not matter. */
  lemma PriorIrrelevantWithUserToken(argv: seq<string>, p: Option<string>, q: Option<string>)
    requires |argv| >= 2 && !IsOption(argv[1])
    ensures Partition(argv, p) == Partition(argv, q)
  {
  }

  /**
   * k is the position of the first token after argv[0] that is not an option.
   */
  ghost predicate IsFirstNonOption(argv: seq<string>, k: int) {
    1 <= k < |argv| && !IsOption(argv[k]) && forall j :: 1 <= j < k ==> IsOption(argv[j])
  }

  /**
   * On success the user is the first non-option token, and the launcher's
   * part of the command line is exactly [argv[0], user]; the rest is the command.
   */
  lemma UserIsFirstNonOption(argv: seq<string>)
    requires Partition(argv, None).outcome.Command?
    ensures var idx := Partition(argv, None).outcome.index;
      IsFirstNonOption(argv, idx - 1)
      && Partition(argv, None).user == Some(argv[idx - 1])
      && argv[..idx] == [argv[0], argv[idx - 1]]
  {
  }

  /** A first non-option token beyond argv[1] means options came first: the scan fails. */
  lemma LateUserRejected(argv: seq<string>, k: int)
    requires IsFirstNonOption(argv, k) && k > 1
    ensures Partition(argv, None).outcome == Error(InvalidOption(OptionCode(argv[1])))
  {
  }

  /** The example command line `prog alice /bin/echo -n hi`. */
  lemma EchoExample()
    ensures var argv := ["prog", "alice", "/bin/echo", "-n", "hi"];
      Partition(argv, None) == Parse(Command(2), Some("alice"))
      && argv[2..] == ["/bin/echo", "-n", "hi"]
  {
  }
}
