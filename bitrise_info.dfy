/**
 * The typed accessors `BitriseInfo` offers its subclasses over the build
 * environment. The environment is a map from variable name to value; a name
 * that is not in the map reads as null. Every accessor is total.
 */
module Bitrise {
  import opened Wrappers
  import opened DotNetText
  import opened Int32Parse

  type Environment = map<string, string>

  /** `ICakeEnvironment.GetEnvironmentVariable`: the value, or null when the variable is unset. */
  function GetEnvironmentVariable(env: Environment, variable: string): (r: Option<string>)
    ensures r.Some? <==> variable in env
    ensures r.Some? ==> r.value == env[variable]
  {
    if variable in env then Some(env[variable]) else None
  }

  /** The raw value, with an unset variable read as the empty string. */
  function GetEnvironmentString(env: Environment, variable: string): (r: string)
    ensures variable in env ==> r == env[variable]
    ensures variable !in env ==> r == ""
  {
    GetEnvironmentVariable(env, variable).GetOr("")
  }

  /** A blank value never parses as an integer, so the blank check in front of the parse changes nothing. */
  lemma BlankNeverParses(s: string)
    requires IsNullOrWhiteSpace(Some(s))
    ensures TryParseInt32(s) == None
  {
    if TryParseInt32(s).Some? {
      var k := ParsedHasDigit(s);
    }
  }

  /**
   * The value as a 32-bit integer: what `int.TryParse` makes of it, and 0
   * when the variable is unset, blank, not a decimal integer, or out of range.
   */
  function GetEnvironmentInteger(env: Environment, variable: string): (r: int)
    ensures InInt32Range(r)
    ensures IsNullOrWhiteSpace(GetEnvironmentVariable(env, variable)) ==> r == 0
    ensures r == TryParseInt32(GetEnvironmentString(env, variable)).GetOr(0)
  {
    var value := GetEnvironmentString(env, variable);
    if IsNullOrWhiteSpace(Some(value)) then
      BlankNeverParses(value);
      0
    else
      match TryParseInt32(value)
      case Some(result) => result
      case None => 0
  }

  /**
   * The value as a boolean: true exactly when it equals "true" ignoring case.
   * The value is not trimmed first.
   */
  function GetEnvironmentBoolean(env: Environment, variable: string): (r: bool)
    ensures r <==> EqualsOrdinalIgnoreCase(GetEnvironmentString(env, variable), "true")
  {
    var value := GetEnvironmentString(env, variable);
    if IsNullOrWhiteSpace(Some(value)) then
      assert !EqualsOrdinalIgnoreCase(value, "true") by {
        if |value| > 0 {
          assert IsWhiteSpace(value[0]);
        }
      }
      false
    else
      EqualsOrdinalIgnoreCase(value, "true")
  }

  /** A set variable whose value is the decimal form of a 32-bit integer reads as that integer. */
  lemma IntegerReadsDecimalForm(env: Environment, variable: string, n: int)
    requires variable in env && env[variable] == DecimalString(n)
    ensures GetEnvironmentInteger(env, variable) == if InInt32Range(n) then n else 0
  {
    DecimalStringParse(n);
  }

  /** The sixteen spellings of "true", one case choice per letter, are exactly the values that read as true. */
  lemma BooleanSpellings(env: Environment, variable: string)
    ensures GetEnvironmentBoolean(env, variable) <==>
      variable in env && |env[variable]| == 4 &&
      (env[variable][0] == 't' || env[variable][0] == 'T') &&
      (env[variable][1] == 'r' || env[variable][1] == 'R') &&
      (env[variable][2] == 'u' || env[variable][2] == 'U') &&
      (env[variable][3] == 'e' || env[variable][3] == 'E')
  {
    var value := GetEnvironmentString(env, variable);
    if |value| == 4 {
      FoldsOntoLetter(value[0], 't');
      FoldsOntoLetter(value[1], 'r');
      FoldsOntoLetter(value[2], 'u');
      FoldsOntoLetter(value[3], 'e');
      assert EqualsOrdinalIgnoreCase(value, "true") <==>
        AsciiToUpper(value[0]) == AsciiToUpper('t') && AsciiToUpper(value[1]) == AsciiToUpper('r') &&
        AsciiToUpper(value[2]) == AsciiToUpper('u') && AsciiToUpper(value[3]) == AsciiToUpper('e');
    }
  }

  /** Upper and mixed case read as true; padding, "1", "yes", blank and unset read as false. */
  lemma BooleanExamples(env: Environment, variable: string)
    ensures variable in env && env[variable] == "TRUE" ==> GetEnvironmentBoolean(env, variable)
    ensures variable in env && env[variable] == "True" ==> GetEnvironmentBoolean(env, variable)
    ensures variable in env && env[variable] == " true" ==> !GetEnvironmentBoolean(env, variable)
    ensures variable in env && env[variable] == "true " ==> !GetEnvironmentBoolean(env, variable)
    ensures variable in env && env[variable] == "1" ==> !GetEnvironmentBoolean(env, variable)
    ensures variable in env && env[variable] == "yes" ==> !GetEnvironmentBoolean(env, variable)
    ensures variable in env && env[variable] == "" ==> !GetEnvironmentBoolean(env, variable)
    ensures variable !in env ==> !GetEnvironmentBoolean(env, variable)
  {
    BooleanSpellings(env, variable);
  }
}
