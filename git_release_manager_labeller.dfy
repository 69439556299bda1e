/**
 * `GitReleaseManagerLabeller`: validates the parameters of a `label` call,
 * builds the GitReleaseManager command line in a fresh
 * `ProcessArgumentBuilder`, and hands it to `Run`. The two C# overloads of
 * `Label` (and of `GetArguments`) are named after their credentials here.
 */
module GitReleaseManagerLabel {
  import opened Wrappers
  import opened DotNetText
  import opened ProcessArguments

  /** `GitReleaseManagerLabelSettings`, reduced to the two optional paths the labeller reads. */
  datatype GitReleaseManagerLabelSettings = GitReleaseManagerLabelSettings(
    targetDirectory: Option<string>,
    logFilePath: Option<string>)

  /** One call of `Run`: the settings and the arguments it was handed. */
  datatype Invocation = Invocation(settings: GitReleaseManagerLabelSettings, arguments: seq<Token>)

  /** A `Label` call either runs the tool with these arguments or throws `ArgumentNullException` naming a parameter. */
  datatype LabelOutcome = Ran(arguments: seq<Token>) | ArgumentNull(paramName: string)

  // ---------------------------------------------------------------------------
  // Validation: the guard clauses, checked in parameter order

  datatype ParameterCheck = ParameterCheck(name: string, valid: bool)

  /** The position of the first failing check, or the number of checks when all pass. */
  function FirstInvalidIndex(checks: seq<ParameterCheck>): (k: nat)
    ensures k <= |checks|
    ensures forall j :: 0 <= j < k ==> checks[j].valid
    ensures k < |checks| ==> !checks[k].valid
  {
    if checks == [] then 0
    else if !checks[0].valid then 0
    else 1 + FirstInvalidIndex(checks[1..])
  }

  /** The name of the first failing check, or `None` when all pass. */
  function FirstInvalid(checks: seq<ParameterCheck>): (r: Option<string>)
    ensures r.None? <==> forall i :: 0 <= i < |checks| ==> checks[i].valid
  {
    var k := FirstInvalidIndex(checks);
    if k < |checks| then Some(checks[k].name) else None
  }

  function UserPasswordChecks(
    userName: Option<string>, password: Option<string>, owner: Option<string>, repository: Option<string>,
    settings: Option<GitReleaseManagerLabelSettings>): seq<ParameterCheck>
  {
    [ ParameterCheck("userName", !IsNullOrWhiteSpace(userName)),
      ParameterCheck("password", !IsNullOrWhiteSpace(password)),
      ParameterCheck("owner", !IsNullOrWhiteSpace(owner)),
      ParameterCheck("repository", !IsNullOrWhiteSpace(repository)),
      ParameterCheck("settings", settings.Some?) ]
  }

  function TokenChecks(
    token: Option<string>, owner: Option<string>, repository: Option<string>,
    settings: Option<GitReleaseManagerLabelSettings>): seq<ParameterCheck>
  {
    [ ParameterCheck("token", !IsNullOrWhiteSpace(token)),
      ParameterCheck("owner", !IsNullOrWhiteSpace(owner)),
      ParameterCheck("repository", !IsNullOrWhiteSpace(repository)),
      ParameterCheck("settings", settings.Some?) ]
  }

  /** The user name and password overload reports the first bad parameter, in declaration order. */
  lemma {:induction false} UserPasswordValidation(
    userName: Option<string>, password: Option<string>, owner: Option<string>, repository: Option<string>,
    settings: Option<GitReleaseManagerLabelSettings>)
    ensures var r := FirstInvalid(UserPasswordChecks(userName, password, owner, repository, settings));
      && (r == Some("userName") <==> IsNullOrWhiteSpace(userName))
      && (r == Some("password") <==> !IsNullOrWhiteSpace(userName) && IsNullOrWhiteSpace(password))
      && (r == Some("owner") <==>
            !IsNullOrWhiteSpace(userName) && !IsNullOrWhiteSpace(password) && IsNullOrWhiteSpace(owner))
      && (r == Some("repository") <==>
            !IsNullOrWhiteSpace(userName) && !IsNullOrWhiteSpace(password) && !IsNullOrWhiteSpace(owner)
            && IsNullOrWhiteSpace(repository))
      && (r == Some("settings") <==>
            !IsNullOrWhiteSpace(userName) && !IsNullOrWhiteSpace(password) && !IsNullOrWhiteSpace(owner)
            && !IsNullOrWhiteSpace(repository) && settings.None?)
      && (r == None <==>
            !IsNullOrWhiteSpace(userName) && !IsNullOrWhiteSpace(password) && !IsNullOrWhiteSpace(owner)
            && !IsNullOrWhiteSpace(repository) && settings.Some?)
  {
    var checks := UserPasswordChecks(userName, password, owner, repository, settings);
    var k := FirstInvalidIndex(checks);
    assert k == 0 <==> IsNullOrWhiteSpace(userName) by {
      assert !checks[0].valid <==> IsNullOrWhiteSpace(userName);
    }
    assert k == 1 <==> !IsNullOrWhiteSpace(userName) && IsNullOrWhiteSpace(password) by {
      assert checks[0].valid && !checks[1].valid <==> !IsNullOrWhiteSpace(userName) && IsNullOrWhiteSpace(password);
    }
    assert k == 2 <==> checks[0].valid && checks[1].valid && !checks[2].valid;
    assert k == 3 <==> checks[0].valid && checks[1].valid && checks[2].valid && !checks[3].valid;
    assert k == 4 <==> checks[0].valid && checks[1].valid && checks[2].valid && checks[3].valid && !checks[4].valid;
    assert "userName"[0] != "password"[0] && "userName"[0] != "owner"[0] && "userName"[0] != "repository"[0];
    assert "userName"[0] != "settings"[0] && "password"[0] != "owner"[0] && "password"[0] != "repository"[0];
    assert "password"[0] != "settings"[0] && "owner"[0] != "repository"[0] && "owner"[0] != "settings"[0];
    assert "repository"[0] != "settings"[0];
  }

  /** The token overload reports the first bad parameter, in declaration order. */
  lemma {:induction false} TokenValidation(
    token: Option<string>, owner: Option<string>, repository: Option<string>,
    settings: Option<GitReleaseManagerLabelSettings>)
    ensures var r := FirstInvalid(TokenChecks(token, owner, repository, settings));
      && (r == Some("token") <==> IsNullOrWhiteSpace(token))
      && (r == Some("owner") <==> !IsNullOrWhiteSpace(token) && IsNullOrWhiteSpace(owner))
      && (r == Some("repository") <==>
            !IsNullOrWhiteSpace(token) && !IsNullOrWhiteSpace(owner) && IsNullOrWhiteSpace(repository))
      && (r == Some("settings") <==>
            !IsNullOrWhiteSpace(token) && !IsNullOrWhiteSpace(owner) && !IsNullOrWhiteSpace(repository)
            && settings.None?)
      && (r == None <==>
            !IsNullOrWhiteSpace(token) && !IsNullOrWhiteSpace(owner) && !IsNullOrWhiteSpace(repository)
            && settings.Some?)
  {
    var checks := TokenChecks(token, owner, repository, settings);
    var k := FirstInvalidIndex(checks);
    assert k == 0 <==> !checks[0].valid;
    assert k == 1 <==> checks[0].valid && !checks[1].valid;
    assert k == 2 <==> checks[0].valid && checks[1].valid && !checks[2].valid;
    assert k == 3 <==> checks[0].valid && checks[1].valid && checks[2].valid && !checks[3].valid;
    assert "token"[0] != "owner"[0] && "token"[0] != "repository"[0] && "token"[0] != "settings"[0];
    assert "owner"[0] != "repository"[0] && "owner"[0] != "settings"[0] && "repository"[0] != "settings"[0];
  }

  // ---------------------------------------------------------------------------
  // The command lines the two overloads build

  /** `-o owner -r repository`, then `-d` with the absolute target directory and `-l` with the absolute log file, each when set. */
  function CommonArguments(
    owner: string, repository: string, settings: GitReleaseManagerLabelSettings,
    absolutePath: string -> string): seq<Token>
  {
    [Literal("-o"), Quoted(owner), Literal("-r"), Quoted(repository)]
    + (match settings.targetDirectory
       case Some(dir) => [Literal("-d"), Quoted(absolutePath(dir))]
       case None => [])
    + (match settings.logFilePath
       case Some(log) => [Literal("-l"), Quoted(absolutePath(log))]
       case None => [])
  }

  function UserPasswordArguments(
    userName: string, password: string, owner: string, repository: string,
    settings: GitReleaseManagerLabelSettings, absolutePath: string -> string): seq<Token>
  {
    [Literal("label"), Literal("-u"), Quoted(userName), Literal("-p"), QuotedSecret(password)]
    + CommonArguments(owner, repository, settings, absolutePath)
  }

  function TokenArguments(
    token: string, owner: string, repository: string,
    settings: GitReleaseManagerLabelSettings, absolutePath: string -> string): seq<Token>
  {
    [Literal("label"), Literal("--token"), Quoted(token)]
    + CommonArguments(owner, repository, settings, absolutePath)
  }

  // ---------------------------------------------------------------------------
  // Properties of the command lines

  /**
   * The shared suffix starts `-o owner -r repository`; `-d` and the absolute
   * target directory follow exactly when a target directory is set, and `-l`
   * and the absolute log file path close it exactly when a log file is set.
   */
  lemma CommonArgumentsShape(
    owner: string, repository: string, settings: GitReleaseManagerLabelSettings, absolutePath: string -> string)
    ensures var c := CommonArguments(owner, repository, settings, absolutePath);
      && |c| == 4 + (if settings.targetDirectory.Some? then 2 else 0) + (if settings.logFilePath.Some? then 2 else 0)
      && c[..4] == [Literal("-o"), Quoted(owner), Literal("-r"), Quoted(repository)]
      && (settings.targetDirectory.Some? ==>
            c[4..6] == [Literal("-d"), Quoted(absolutePath(settings.targetDirectory.value))])
      && (settings.logFilePath.Some? ==>
            c[|c| - 2..] == [Literal("-l"), Quoted(absolutePath(settings.logFilePath.value))])
  {
  }

  /** `-d` appears in the shared suffix exactly when a target directory is set, and then only at position 4. */
  lemma {:induction false} TargetDirectoryFlag(
    owner: string, repository: string, settings: GitReleaseManagerLabelSettings, absolutePath: string -> string)
    ensures var c := CommonArguments(owner, repository, settings, absolutePath);
      forall i :: 0 <= i < |c| ==> (c[i] == Literal("-d") <==> settings.targetDirectory.Some? && i == 4)
  {
    CommonArgumentsShape(owner, repository, settings, absolutePath);
    var c := CommonArguments(owner, repository, settings, absolutePath);
    assert "-d" != "-o" && "-d" != "-r" && "-d" != "-l" by {
      assert "-d"[1] != "-o"[1] && "-d"[1] != "-r"[1] && "-d"[1] != "-l"[1];
    }
    forall i | 0 <= i < |c|
      ensures c[i] == Literal("-d") <==> settings.targetDirectory.Some? && i == 4
    {
      if i < 4 {
        assert c[i] == c[..4][i];
      } else if settings.targetDirectory.Some? && i < 6 {
        assert c[i] == c[4..6][i - 4];
      } else {
        assert c[i] == c[|c| - 2..][i - (|c| - 2)];
      }
    }
  }

  /**
   * `-l` appears in the shared suffix exactly when a log file is set, and then
   * only as the last flag, after `-r repository` and after `-d` when that is present.
   */
  lemma {:induction false} LogFileFlag(
    owner: string, repository: string, settings: GitReleaseManagerLabelSettings, absolutePath: string -> string)
    ensures var c := CommonArguments(owner, repository, settings, absolutePath);
      forall i :: 0 <= i < |c| ==> (c[i] == Literal("-l") <==> settings.logFilePath.Some? && i == |c| - 2)
    ensures var c := CommonArguments(owner, repository, settings, absolutePath);
      settings.logFilePath.Some? ==> |c| - 2 == if settings.targetDirectory.Some? then 6 else 4
  {
    CommonArgumentsShape(owner, repository, settings, absolutePath);
    var c := CommonArguments(owner, repository, settings, absolutePath);
    assert "-l" != "-o" && "-l" != "-r" && "-l" != "-d" by {
      assert "-l"[1] != "-o"[1] && "-l"[1] != "-r"[1] && "-l"[1] != "-d"[1];
    }
    forall i | 0 <= i < |c|
      ensures c[i] == Literal("-l") <==> settings.logFilePath.Some? && i == |c| - 2
    {
      if i < 4 {
        assert c[i] == c[..4][i];
      } else if settings.targetDirectory.Some? && i < 6 {
        assert c[i] == c[4..6][i - 4];
      } else {
        assert c[i] == c[|c| - 2..][i - (|c| - 2)];
      }
    }
  }

  /** The user name and password command line: `label -u user -p password`, then the shared suffix. */
  lemma UserPasswordArgumentsShape(
    userName: string, password: string, owner: string, repository: string,
    settings: GitReleaseManagerLabelSettings, absolutePath: string -> string)
    ensures var a := UserPasswordArguments(userName, password, owner, repository, settings, absolutePath);
      && |a| == 9 + (if settings.targetDirectory.Some? then 2 else 0) + (if settings.logFilePath.Some? then 2 else 0)
      && a[..5] == [Literal("label"), Literal("-u"), Quoted(userName), Literal("-p"), QuotedSecret(password)]
      && a[5..] == CommonArguments(owner, repository, settings, absolutePath)
  {
    CommonArgumentsShape(owner, repository, settings, absolutePath);
  }

  /** The token command line: `label --token token`, then the shared suffix. */
  lemma TokenArgumentsShape(
    token: string, owner: string, repository: string,
    settings: GitReleaseManagerLabelSettings, absolutePath: string -> string)
    ensures var a := TokenArguments(token, owner, repository, settings, absolutePath);
      && |a| == 7 + (if settings.targetDirectory.Some? then 2 else 0) + (if settings.logFilePath.Some? then 2 else 0)
      && a[..3] == [Literal("label"), Literal("--token"), Quoted(token)]
      && a[3..] == CommonArguments(owner, repository, settings, absolutePath)
  {
    CommonArgumentsShape(owner, repository, settings, absolutePath);
  }

  /** Both overloads end in the same suffix for the same owner, repository and settings. */
  lemma SharedSuffix(
    userName: string, password: string, token: string, owner: string, repository: string,
    settings: GitReleaseManagerLabelSettings, absolutePath: string -> string)
    ensures UserPasswordArguments(userName, password, owner, repository, settings, absolutePath)[5..]
         == TokenArguments(token, owner, repository, settings, absolutePath)[3..]
  {
    UserPasswordArgumentsShape(userName, password, owner, repository, settings, absolutePath);
    TokenArgumentsShape(token, owner, repository, settings, absolutePath);
  }

  /** The password, at position 4, is the one token of the user name and password command line flagged secret. */
  lemma {:induction false} OnlyPasswordIsSecret(
    userName: string, password: string, owner: string, repository: string,
    settings: GitReleaseManagerLabelSettings, absolutePath: string -> string)
    ensures var a := UserPasswordArguments(userName, password, owner, repository, settings, absolutePath);
      forall i :: 0 <= i < |a| ==> (a[i].QuotedSecret? <==> i == 4)
  {
    UserPasswordArgumentsShape(userName, password, owner, repository, settings, absolutePath);
    NoSecretInCommonArguments(owner, repository, settings, absolutePath);
    var a := UserPasswordArguments(userName, password, owner, repository, settings, absolutePath);
    forall i | 0 <= i < |a|
      ensures a[i].QuotedSecret? <==> i == 4
    {
      if i < 5 {
        assert a[i] == a[..5][i];
      } else {
        assert a[i] == a[5..][i - 5];
      }
    }
  }

  /** The token command line flags nothing secret: the token is quoted like any other value. */
  lemma {:induction false} TokenIsNotSecret(
    token: string, owner: string, repository: string,
    settings: GitReleaseManagerLabelSettings, absolutePath: string -> string)
    ensures var a := TokenArguments(token, owner, repository, settings, absolutePath);
      forall i :: 0 <= i < |a| ==> !a[i].QuotedSecret?
  {
    TokenArgumentsShape(token, owner, repository, settings, absolutePath);
    NoSecretInCommonArguments(owner, repository, settings, absolutePath);
    var a := TokenArguments(token, owner, repository, settings, absolutePath);
    forall i | 0 <= i < |a|
      ensures !a[i].QuotedSecret?
    {
      if i < 3 {
        assert a[i] == a[..3][i];
      } else {
        assert a[i] == a[3..][i - 3];
      }
    }
  }

  lemma NoSecretInCommonArguments(
    owner: string, repository: string, settings: GitReleaseManagerLabelSettings, absolutePath: string -> string)
    ensures var c := CommonArguments(owner, repository, settings, absolutePath);
      forall i :: 0 <= i < |c| ==> !c[i].QuotedSecret?
  {
  }

  /** The complete command line for token "tkn123", owner "foo", repository "bar" and no optional paths. */
  lemma TokenExample(absolutePath: string -> string)
    ensures TokenArguments("tkn123", "foo", "bar", GitReleaseManagerLabelSettings(None, None), absolutePath)
         == [Literal("label"), Literal("--token"), Quoted("tkn123"),
             Literal("-o"), Quoted("foo"), Literal("-r"), Quoted("bar")]
  {
  }

  // ---------------------------------------------------------------------------
  // Reading a command line back: the partner of the two builders

  datatype Credentials = UserPassword(userName: string, password: string) | AccessToken(token: string)

  /** What a GitReleaseManager `label` command line carries. */
  datatype LabelCommand = LabelCommand(
    credentials: Credentials, owner: string, repository: string,
    targetDirectory: Option<string>, logFilePath: Option<string>)

  /** An optional `flag value` pair at the front of `t`, and what follows it. */
  function DecodeOptional(flag: string, t: seq<Token>): (Option<string>, seq<Token>)
  {
    if |t| >= 2 && t[0] == Literal(flag) && t[1].Quoted? then (Some(t[1].text), t[2..]) else (None, t)
  }

  function DecodeCommon(t: seq<Token>): Option<(string, string, Option<string>, Option<string>)>
  {
    if |t| >= 4 && t[0] == Literal("-o") && t[1].Quoted? && t[2] == Literal("-r") && t[3].Quoted? then
      var (dir, rest) := DecodeOptional("-d", t[4..]);
      var (log, rest') := DecodeOptional("-l", rest);
      if rest' == [] then Some((t[1].text, t[3].text, dir, log)) else None
    else None
  }

  function DecodeLabelCommand(t: seq<Token>): Option<LabelCommand>
  {
    var credentials :=
      if |t| >= 5 && t[0] == Literal("label") && t[1] == Literal("-u") && t[2].Quoted?
         && t[3] == Literal("-p") && t[4].QuotedSecret?
      then Some((UserPassword(t[2].text, t[4].text), t[5..]))
      else if |t| >= 3 && t[0] == Literal("label") && t[1] == Literal("--token") && t[2].Quoted?
      then Some((AccessToken(t[2].text), t[3..]))
      else None;
    if credentials.None? then None
    else
      var (c, rest) := credentials.value;
      match DecodeCommon(rest)
      case None => None
      case Some(common) => Some(LabelCommand(c, common.0, common.1, common.2, common.3))
  }

  lemma DecodeCommonArguments(
    owner: string, repository: string, settings: GitReleaseManagerLabelSettings, absolutePath: string -> string)
    ensures DecodeCommon(CommonArguments(owner, repository, settings, absolutePath))
         == Some((owner, repository, settings.targetDirectory.Map(absolutePath), settings.logFilePath.Map(absolutePath)))
  {
    var c := CommonArguments(owner, repository, settings, absolutePath);
    CommonArgumentsShape(owner, repository, settings, absolutePath);
    assert "-d" != "-l" by {
      assert "-d"[1] != "-l"[1];
    }
    var (dir, rest) := DecodeOptional("-d", c[4..]);
    assert dir == settings.targetDirectory.Map(absolutePath);
    var (log, rest') := DecodeOptional("-l", rest);
    assert log == settings.logFilePath.Map(absolutePath);
  }

  /** The user name and password command line reads back as exactly the call's credentials, owner, repository and absolute paths. */
  lemma DecodeUserPasswordArguments(
    userName: string, password: string, owner: string, repository: string,
    settings: GitReleaseManagerLabelSettings, absolutePath: string -> string)
    ensures DecodeLabelCommand(UserPasswordArguments(userName, password, owner, repository, settings, absolutePath))
         == Some(LabelCommand(UserPassword(userName, password), owner, repository,
                              settings.targetDirectory.Map(absolutePath), settings.logFilePath.Map(absolutePath)))
  {
    UserPasswordArgumentsShape(userName, password, owner, repository, settings, absolutePath);
    DecodeCommonArguments(owner, repository, settings, absolutePath);
  }

  /** The token command line reads back as exactly the call's token, owner, repository and absolute paths. */
  lemma DecodeTokenArguments(
    token: string, owner: string, repository: string,
    settings: GitReleaseManagerLabelSettings, absolutePath: string -> string)
    ensures DecodeLabelCommand(TokenArguments(token, owner, repository, settings, absolutePath))
         == Some(LabelCommand(AccessToken(token), owner, repository,
                              settings.targetDirectory.Map(absolutePath), settings.logFilePath.Map(absolutePath)))
  {
    TokenArgumentsShape(token, owner, repository, settings, absolutePath);
    DecodeCommonArguments(owner, repository, settings, absolutePath);
    assert "--token" != "-u" by {
      assert |"--token"| != |"-u"|;
    }
  }

  /** No token command line equals a user name and password command line. */
  lemma CredentialModesDiffer(
    userName: string, password: string, owner: string, repository: string, settings: GitReleaseManagerLabelSettings,
    token: string, owner': string, repository': string, settings': GitReleaseManagerLabelSettings,
    absolutePath: string -> string)
    ensures UserPasswordArguments(userName, password, owner, repository, settings, absolutePath)
         != TokenArguments(token, owner', repository', settings', absolutePath)
  {
    DecodeUserPasswordArguments(userName, password, owner, repository, settings, absolutePath);
    DecodeTokenArguments(token, owner', repository', settings', absolutePath);
  }

  /** A user name and password command line determines the credentials, owner, repository and which paths were set. */
  lemma UserPasswordArgumentsDetermineCall(
    userName: string, password: string, owner: string, repository: string, settings: GitReleaseManagerLabelSettings,
    userName': string, password': string, owner': string, repository': string, settings': GitReleaseManagerLabelSettings,
    absolutePath: string -> string)
    requires UserPasswordArguments(userName, password, owner, repository, settings, absolutePath)
          == UserPasswordArguments(userName', password', owner', repository', settings', absolutePath)
    ensures userName == userName' && password == password' && owner == owner' && repository == repository'
    ensures settings.targetDirectory.Some? == settings'.targetDirectory.Some?
    ensures settings.logFilePath.Some? == settings'.logFilePath.Some?
  {
    DecodeUserPasswordArguments(userName, password, owner, repository, settings, absolutePath);
    DecodeUserPasswordArguments(userName', password', owner', repository', settings', absolutePath);
  }

  /** A token command line determines the token, owner, repository and which paths were set. */
  lemma TokenArgumentsDetermineCall(
    token: string, owner: string, repository: string, settings: GitReleaseManagerLabelSettings,
    token': string, owner': string, repository': string, settings': GitReleaseManagerLabelSettings,
    absolutePath: string -> string)
    requires TokenArguments(token, owner, repository, settings, absolutePath)
          == TokenArguments(token', owner', repository', settings', absolutePath)
    ensures token == token' && owner == owner' && repository == repository'
    ensures settings.targetDirectory.Some? == settings'.targetDirectory.Some?
    ensures settings.logFilePath.Some? == settings'.logFilePath.Some?
  {
    DecodeTokenArguments(token, owner, repository, settings, absolutePath);
    DecodeTokenArguments(token', owner', repository', settings', absolutePath);
  }

  // ---------------------------------------------------------------------------
  // The labeller

  class GitReleaseManagerLabeller {
    /** `path.MakeAbsolute(environment).FullPath` for the environment the labeller was created with. */
    const absolutePath: string -> string
    /** The calls of `Run` so far, oldest first. */
    var runs: seq<Invocation>

    constructor (absolutePath: string -> string)
      ensures this.absolutePath == absolutePath
      ensures runs == []
    {
      this.absolutePath := absolutePath;
      runs := [];
    }

    /** `Run(settings, arguments)`: the process itself is not modelled, only that it was asked for. */
    method Run(settings: GitReleaseManagerLabelSettings, arguments: ProcessArgumentBuilder)
      modifies this
      ensures runs == old(runs) + [Invocation(settings, arguments.tokens)]
    {
      runs := runs + [Invocation(settings, arguments.tokens)];
    }

    /** `Label(userName, password, owner, repository, settings)`. */
    method LabelWithUserPassword(
      userName: Option<string>, password: Option<string>, owner: Option<string>, repository: Option<string>,
      settings: Option<GitReleaseManagerLabelSettings>) returns (outcome: LabelOutcome)
      modifies this
      ensures match FirstInvalid(UserPasswordChecks(userName, password, owner, repository, settings))
        case Some(name) =>
          outcome == ArgumentNull(name) && runs == old(runs)
        case None =>
          && userName.Some? && password.Some? && owner.Some? && repository.Some? && settings.Some?
          && outcome == Ran(UserPasswordArguments(
               userName.value, password.value, owner.value, repository.value, settings.value, absolutePath))
          && runs == old(runs) + [Invocation(settings.value, outcome.arguments)]
    {
      UserPasswordValidation(userName, password, owner, repository, settings);
      if IsNullOrWhiteSpace(userName) {
        return ArgumentNull("userName");
      }
      if IsNullOrWhiteSpace(password) {
        return ArgumentNull("password");
      }
      if IsNullOrWhiteSpace(owner) {
        return ArgumentNull("owner");
      }
      if IsNullOrWhiteSpace(repository) {
        return ArgumentNull("repository");
      }
      if settings.None? {
        return ArgumentNull("settings");
      }
      var builder := GetUserPasswordArguments(userName.value, password.value, owner.value, repository.value, settings.value);
      Run(settings.value, builder);
      outcome := Ran(builder.tokens);
    }

    /** `Label(token, owner, repository, settings)`. */
    method LabelWithToken(
      token: Option<string>, owner: Option<string>, repository: Option<string>,
      settings: Option<GitReleaseManagerLabelSettings>) returns (outcome: LabelOutcome)
      modifies this
      ensures match FirstInvalid(TokenChecks(token, owner, repository, settings))
        case Some(name) =>
          outcome == ArgumentNull(name) && runs == old(runs)
        case None =>
          && token.Some? && owner.Some? && repository.Some? && settings.Some?
          && outcome == Ran(TokenArguments(token.value, owner.value, repository.value, settings.value, absolutePath))
          && runs == old(runs) + [Invocation(settings.value, outcome.arguments)]
    {
      TokenValidation(token, owner, repository, settings);
      if IsNullOrWhiteSpace(token) {
        return ArgumentNull("token");
      }
      if IsNullOrWhiteSpace(owner) {
        return ArgumentNull("owner");
      }
      if IsNullOrWhiteSpace(repository) {
        return ArgumentNull("repository");
      }
      if settings.None? {
        return ArgumentNull("settings");
      }
      var builder := GetTokenArguments(token.value, owner.value, repository.value, settings.value);
      Run(settings.value, builder);
      outcome := Ran(builder.tokens);
    }

    /** `GetArguments(userName, password, owner, repository, settings)`. */
    method GetUserPasswordArguments(
      userName: string, password: string, owner: string, repository: string,
      settings: GitReleaseManagerLabelSettings) returns (builder: ProcessArgumentBuilder)
      ensures fresh(builder)
      ensures builder.tokens == UserPasswordArguments(userName, password, owner, repository, settings, absolutePath)
    {
      builder := new ProcessArgumentBuilder();
      builder.Append("label");
      builder.Append("-u");
      builder.AppendQuoted(userName);
      builder.Append("-p");
      builder.AppendQuotedSecret(password);
      ParseCommonArguments(builder, owner, repository, settings);
    }

    /** `GetArguments(token, owner, repository, settings)`. */
    method GetTokenArguments(
      token: string, owner: string, repository: string,
      settings: GitReleaseManagerLabelSettings) returns (builder: ProcessArgumentBuilder)
      ensures fresh(builder)
      ensures builder.tokens == TokenArguments(token, owner, repository, settings, absolutePath)
    {
      builder := new ProcessArgumentBuilder();
      builder.Append("label");
      builder.Append("--token");
      builder.AppendQuoted(token);
      ParseCommonArguments(builder, owner, repository, settings);
    }

    /** `ParseCommonArguments`: appends the shared suffix after whatever the builder already holds. */
    method ParseCommonArguments(
      builder: ProcessArgumentBuilder, owner: string, repository: string,
      settings: GitReleaseManagerLabelSettings)
      modifies builder
      ensures builder.tokens == old(builder.tokens) + CommonArguments(owner, repository, settings, absolutePath)
    {
      builder.Append("-o");
      builder.AppendQuoted(owner);
      builder.Append("-r");
      builder.AppendQuoted(repository);
      if settings.targetDirectory.Some? {
        builder.Append("-d");
        builder.AppendQuoted(absolutePath(settings.targetDirectory.value));
      }
      if settings.logFilePath.Some? {
        builder.Append("-l");
        builder.AppendQuoted(absolutePath(settings.logFilePath.value));
      }
    }
  }
}
