# Cake: GitReleaseManager `label` command line and Bitrise environment accessors

This project models two small pieces of the Cake build-automation toolkit in Dafny and proves what
they promise.

- `GitReleaseManagerLabeller` (module `GitReleaseManagerLabel`, class `GitReleaseManagerLabeller`).
  Each `Label` overload checks its string parameters and the settings in declaration order. It
  reports the first bad one as an `ArgumentNullException` naming it. Otherwise it builds the
  GitReleaseManager command line in a fresh `ProcessArgumentBuilder` and hands it to `Run`. The two
  C# overloads are `LabelWithUserPassword` and `LabelWithToken` here, and the two `GetArguments`
  overloads are `GetUserPasswordArguments` and `GetTokenArguments`. The builder (module
  `ProcessArguments`) is a class whose `tokens` field grows by one tagged token per `Append`,
  `AppendQuoted` or `AppendQuotedSecret` call. Each method is proved against a specification
  function (`UserPasswordArguments`, `TokenArguments`, `CommonArguments`, `FirstInvalid`). The
  lemmas about those functions state the shape, length, flag positions, secrecy tags and
  decodability of the command line.
- `BitriseInfo` (module `Bitrise`). These are pure, total accessors over an environment modelled
  as `map<string, string>`, where an absent name reads as null. `GetEnvironmentString` reads null
  as `""`. `GetEnvironmentInteger` reads through `int.TryParse` (module `Int32Parse`) and falls
  back to 0. `GetEnvironmentBoolean` compares with `"true"` ignoring case, without trimming.
  `int.TryParse` is modelled in its invariant decimal form: number white space (U+0009 to U+000D,
  U+0020) around an optional `+`/`-` and one or more ASCII digits, with a check that the value fits
  in a 32-bit signed integer. Its partner is `DecimalString`, and the round trip is proved for
  every integer: values out of range fail, they do not wrap around. `char.IsWhiteSpace`,
  `string.IsNullOrWhiteSpace` and the case fold are in module `DotNetText`.

Two behaviours of the code are easy to misread; the model follows the code:
- The token overload appends the token with `AppendQuoted`, so the token is not flagged secret
  (`TokenIsNotSecret`). Only the password is (`OnlyPasswordIsSecret`).
- `GetEnvironmentBoolean` does not trim the value, so `" true"` reads as false.

External collaborators are parameters or records:
- `MakeAbsolute(environment).FullPath` is the labeller's function-valued field `absolutePath`. No
  property of it is assumed.
- `Run` appends an `Invocation` (the settings and the tokens) to the labeller's `runs` field.
- The environment lookup is the map passed to each accessor.

## Model

| member | source | states |
|---|---|---|
| `Bitrise.GetEnvironmentVariable` | src/Cake.Common/Build/Bitrise/BitriseInfo.cs:33 | the lookup is null exactly when the variable is unset, and otherwise gives the stored value |
| `Bitrise.GetEnvironmentString` | src/Cake.Common/Build/Bitrise/BitriseInfo.cs:31-34 | the stored value when the variable is set, `""` when it is not |
| `Bitrise.GetEnvironmentInteger` | src/Cake.Common/Build/Bitrise/BitriseInfo.cs:41-45 | always in the Int32 range; 0 when unset or blank; otherwise what `int.TryParse` gives, and 0 when it fails |
| `Bitrise.BlankNeverParses` | src/Cake.Common/Build/Bitrise/BitriseInfo.cs:44 | a blank value never parses, so the `IsNullOrWhiteSpace` guard before `TryParse` changes no result |
| `Bitrise.IntegerReadsDecimalForm` | src/Cake.Common/Build/Bitrise/BitriseInfo.cs:44 | a variable holding the decimal form of n reads as n when n fits in 32 bits and as 0 when it overflows |
| `Bitrise.GetEnvironmentBoolean` | src/Cake.Common/Build/Bitrise/BitriseInfo.cs:52-56 | true exactly when the value, untrimmed, equals `"true"` under the ordinal case fold |
| `Bitrise.BooleanSpellings` | src/Cake.Common/Build/Bitrise/BitriseInfo.cs:55 | true exactly when the variable is set to a 4-character value that spells t/T, r/R, u/U, e/E |
| `Bitrise.BooleanExamples` | src/Cake.Common/Build/Bitrise/BitriseInfo.cs:54-55 | `"TRUE"` and `"True"` read as true; `" true"`, `"true "`, `"1"`, `"yes"`, `""` and unset read as false |
| `DotNetText.FoldsOntoLetter` | src/Cake.Common/Build/Bitrise/BitriseInfo.cs:55 | a character matches a lower-case letter ignoring case exactly when it is that letter or its capital |
| `Int32Parse.TryParseInt32` | src/Cake.Common/Build/Bitrise/BitriseInfo.cs:44 | every value `int.TryParse` succeeds with lies in the Int32 range |
| `Int32Parse.ParseComplete` | src/Cake.Common/Build/Bitrise/BitriseInfo.cs:44 | white space, an optional sign, one or more digits and white space parse to their value when it fits in 32 bits, and fail when it overflows |
| `Int32Parse.ParseSound` | src/Cake.Common/Build/Bitrise/BitriseInfo.cs:44 | every string that parses has that shape, and the result is the value the sign and digits denote |
| `Int32Parse.ParsedHasDigit` | src/Cake.Common/Build/Bitrise/BitriseInfo.cs:44 | every string that parses contains a decimal digit |
| `Int32Parse.DecimalStringParse` | src/Cake.Common/Build/Bitrise/BitriseInfo.cs:44 | parsing the decimal form of any integer gives it back when it is in the Int32 range and fails otherwise |
| `Int32Parse.NatDigitsValue` | src/Cake.Common/Build/Bitrise/BitriseInfo.cs:44 | the digits of a natural number have that number as their value |
| `ProcessArguments.ProcessArgumentBuilder.constructor` | src/Cake.Common/Tools/GitReleaseManager/Label/GitReleaseManagerLabeller.cs:107 | a new builder holds no tokens |
| `ProcessArguments.ProcessArgumentBuilder.Append` | src/Cake.Common/Tools/GitReleaseManager/Label/GitReleaseManagerLabeller.cs:109 | appends one literal token after the existing ones |
| `ProcessArguments.ProcessArgumentBuilder.AppendQuoted` | src/Cake.Common/Tools/GitReleaseManager/Label/GitReleaseManagerLabeller.cs:112 | appends one quoted token after the existing ones |
| `ProcessArguments.ProcessArgumentBuilder.AppendQuotedSecret` | src/Cake.Common/Tools/GitReleaseManager/Label/GitReleaseManagerLabeller.cs:115 | appends one quoted token flagged secret after the existing ones |
| `GitReleaseManagerLabel.FirstInvalidIndex` | src/Cake.Common/Tools/GitReleaseManager/Label/GitReleaseManagerLabeller.cs:45-68 | the guards are tried in order: every earlier check passes and the reported one fails, or all pass |
| `GitReleaseManagerLabel.FirstInvalid` | src/Cake.Common/Tools/GitReleaseManager/Label/GitReleaseManagerLabeller.cs:45-68 | no parameter is reported exactly when every check passes |
| `GitReleaseManagerLabel.UserPasswordValidation` | src/Cake.Common/Tools/GitReleaseManager/Label/GitReleaseManagerLabeller.cs:45-68 | `userName`, `password`, `owner`, `repository`, `settings` is reported exactly when it is the first null or blank parameter, or the first null settings; none is reported exactly when all are valid |
| `GitReleaseManagerLabel.TokenValidation` | src/Cake.Common/Tools/GitReleaseManager/Label/GitReleaseManagerLabeller.cs:82-100 | the same for `token`, `owner`, `repository`, `settings` |
| `GitReleaseManagerLabel.GitReleaseManagerLabeller.constructor` | src/Cake.Common/Tools/GitReleaseManager/Label/GitReleaseManagerLabeller.cs:26-33 | the labeller keeps the environment's path resolution and has run nothing |
| `GitReleaseManagerLabel.GitReleaseManagerLabeller.Run` | src/Cake.Common/Tools/GitReleaseManager/Label/GitReleaseManagerLabeller.cs:70 | records one invocation with the settings and the builder's tokens |
| `GitReleaseManagerLabel.GitReleaseManagerLabeller.LabelWithUserPassword` | src/Cake.Common/Tools/GitReleaseManager/Label/GitReleaseManagerLabeller.cs:43-71 | on a bad parameter, reports the first in order and runs nothing; otherwise runs exactly once, with the user name and password command line |
| `GitReleaseManagerLabel.GitReleaseManagerLabeller.LabelWithToken` | src/Cake.Common/Tools/GitReleaseManager/Label/GitReleaseManagerLabeller.cs:80-103 | on a bad parameter, reports the first in order and runs nothing; otherwise runs exactly once, with the token command line |
| `GitReleaseManagerLabel.GitReleaseManagerLabeller.GetUserPasswordArguments` | src/Cake.Common/Tools/GitReleaseManager/Label/GitReleaseManagerLabeller.cs:105-120 | a fresh builder holding `label -u user -p secret-password` and the shared suffix |
| `GitReleaseManagerLabel.GitReleaseManagerLabeller.GetTokenArguments` | src/Cake.Common/Tools/GitReleaseManager/Label/GitReleaseManagerLabeller.cs:122-133 | a fresh builder holding `label --token token` and the shared suffix |
| `GitReleaseManagerLabel.GitReleaseManagerLabeller.ParseCommonArguments` | src/Cake.Common/Tools/GitReleaseManager/Label/GitReleaseManagerLabeller.cs:135-156 | only appends: the tokens already in the builder stay as they were, followed by the shared suffix |
| `GitReleaseManagerLabel.CommonArgumentsShape` | src/Cake.Common/Tools/GitReleaseManager/Label/GitReleaseManagerLabeller.cs:137-155 | the suffix is `-o owner -r repository`, then `-d` and the absolute target directory when set, then `-l` and the absolute log file when set; its length is 4, plus 2 for each path set |
| `GitReleaseManagerLabel.TargetDirectoryFlag` | src/Cake.Common/Tools/GitReleaseManager/Label/GitReleaseManagerLabeller.cs:144-148 | `-d` occurs in the suffix exactly when a target directory is set, and then only right after the repository |
| `GitReleaseManagerLabel.LogFileFlag` | src/Cake.Common/Tools/GitReleaseManager/Label/GitReleaseManagerLabeller.cs:151-155 | `-l` occurs exactly when a log file is set, and then only as the last flag, after `-d` when both are set |
| `GitReleaseManagerLabel.UserPasswordArgumentsShape` | src/Cake.Common/Tools/GitReleaseManager/Label/GitReleaseManagerLabeller.cs:107-117 | five credential tokens then the shared suffix; length 9, plus 2 for each path set |
| `GitReleaseManagerLabel.TokenArgumentsShape` | src/Cake.Common/Tools/GitReleaseManager/Label/GitReleaseManagerLabeller.cs:124-131 | three credential tokens then the shared suffix; length 7, plus 2 for each path set |
| `GitReleaseManagerLabel.SharedSuffix` | src/Cake.Common/Tools/GitReleaseManager/Label/GitReleaseManagerLabeller.cs:117-131 | both overloads end in the same tokens for the same owner, repository and settings |
| `GitReleaseManagerLabel.OnlyPasswordIsSecret` | src/Cake.Common/Tools/GitReleaseManager/Label/GitReleaseManagerLabeller.cs:111-115 | in the user name and password command line, the password is the only token flagged secret |
| `GitReleaseManagerLabel.TokenIsNotSecret` | src/Cake.Common/Tools/GitReleaseManager/Label/GitReleaseManagerLabeller.cs:128-129 | the token command line flags no token secret |
| `GitReleaseManagerLabel.NoSecretInCommonArguments` | src/Cake.Common/Tools/GitReleaseManager/Label/GitReleaseManagerLabeller.cs:137-155 | the shared suffix flags no token secret |
| `GitReleaseManagerLabel.TokenExample` | src/Cake.Common/Tools/GitReleaseManager/Label/GitReleaseManagerLabeller.cs:124-141 | token `tkn123`, owner `foo`, repository `bar`, no paths: `label --token "tkn123" -o "foo" -r "bar"` |
| `GitReleaseManagerLabel.DecodeUserPasswordArguments` | src/Cake.Common/Tools/GitReleaseManager/Label/GitReleaseManagerLabeller.cs:105-156 | the user name and password command line reads back as exactly its credentials, owner, repository and absolute paths |
| `GitReleaseManagerLabel.DecodeTokenArguments` | src/Cake.Common/Tools/GitReleaseManager/Label/GitReleaseManagerLabeller.cs:122-156 | the token command line reads back as exactly its token, owner, repository and absolute paths |
| `GitReleaseManagerLabel.DecodeCommonArguments` | src/Cake.Common/Tools/GitReleaseManager/Label/GitReleaseManagerLabeller.cs:135-156 | the shared suffix reads back as owner, repository and the absolute paths that were set |
| `GitReleaseManagerLabel.CredentialModesDiffer` | src/Cake.Common/Tools/GitReleaseManager/Label/GitReleaseManagerLabeller.cs:105-133 | no token command line equals a user name and password command line |
| `GitReleaseManagerLabel.UserPasswordArgumentsDetermineCall` | src/Cake.Common/Tools/GitReleaseManager/Label/GitReleaseManagerLabeller.cs:105-120 | equal command lines come from equal user names, passwords, owners and repositories and the same choice of paths |
| `GitReleaseManagerLabel.TokenArgumentsDetermineCall` | src/Cake.Common/Tools/GitReleaseManager/Label/GitReleaseManagerLabeller.cs:122-133 | equal command lines come from equal tokens, owners and repositories and the same choice of paths |

## Left out

- Process execution, tool location and the file system (`IProcessRunner`, `IToolLocator`, `IFileSystem`) are external I/O. `Run` only records the invocation it was asked for.
- `MakeAbsolute(environment).FullPath` is taken as the labeller's function-valued field `absolutePath`. Working-directory and platform rules for path resolution are not modelled.
- How `ProcessArgumentBuilder` renders tokens is not modelled: its quoting, escaping and mask text are not in this code. Only the tag on each token is modelled.
- `ArgumentNullException` is the outcome `ArgumentNull(paramName)`, not an exception. Its message text is not modelled.
- `GitReleaseManagerLabelSettings` is reduced to the two paths this code reads. The inherited tool settings only matter to `Run`.
- `DotNetCoreBuildServerSettings` has three nullable boolean properties and no behaviour, so it is not part of this model.
- Int32Parse.TryParseInt32: covers only the invariant-culture decimal form. Culture-specific sign symbols and the trailing NUL characters .NET's number parser tolerates are not modelled.
- DotNetText.EqualsOrdinalIgnoreCase: folds only ASCII letters. No non-ASCII character folds onto a letter of `"true"`, so this matches .NET for the one comparison the code makes, but not for arbitrary patterns.
- Strings are sequences of Unicode scalar values, not UTF-16 code units, so lone surrogates cannot be written.
- Environment variable names are compared exactly. Windows matches them ignoring case, and that is not modelled.
