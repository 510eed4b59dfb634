/** Resolution of the xAI credential from the process environment. */
module ApiKey {
  import opened Wrappers

  /** The environment variable that holds the credential. */
  const KeyVariable: string := "XAI_API_KEY"

  /** A value as `env::var_os` returns it: Unicode text, or bytes that are not valid UTF-8. */
  datatype OsString = Unicode(text: string) | NotUnicode

  /** The process environment; a name that is not in the map is an unset variable. */
  type Environment = map<string, OsString>

  /** The three distinct ways the credential can be missing. */
  datatype KeyError = NotSet | NotUtf8 | SetButEmpty

  /** `xai_api_key`: the credential, or why there is none. The value is not trimmed. */
  function XaiApiKey(env: Environment): (r: Result<string, KeyError>)
    ensures r.Ok? <==> KeyVariable in env && env[KeyVariable].Unicode? && env[KeyVariable].text != ""
    ensures r.Ok? ==> r.value == env[KeyVariable].text && |r.value| > 0
    ensures r == Err(NotSet) <==> KeyVariable !in env
    ensures r == Err(NotUtf8) <==> KeyVariable in env && env[KeyVariable].NotUnicode?
    ensures r == Err(SetButEmpty) <==> KeyVariable in env && env[KeyVariable] == Unicode("")
  {
    if KeyVariable !in env then Err(NotSet)
    else
      match env[KeyVariable]
      case NotUnicode => Err(NotUtf8)
      case Unicode(key) => if key == "" then Err(SetButEmpty) else Ok(key)
  }

  /** A key made only of blanks is accepted as it is: nothing is trimmed. */
  lemma BlankKeyAccepted(env: Environment, blanks: string)
    requires blanks != [] && forall i :: 0 <= i < |blanks| ==> blanks[i] == ' '
    requires KeyVariable in env && env[KeyVariable] == Unicode(blanks)
    ensures XaiApiKey(env) == Ok(blanks)
  {
  }
}
