/** Reading a required string binding from the worker environment. */
module SharedEnv {
  import opened Wrappers
  import opened JsText
  import opened JsValue
  import opened AppErrors

  /** `getRequiredBindingString`: the trimmed binding, or a configuration error when it
      is missing, not a string, or blank. */
  function GetRequiredBindingString(env: map<string, Value>, key: string): (r: Result<string, AppError>)
    ensures r.Ok? <==> key in env && env[key].Str? && !AllWhiteSpace(env[key].s)
    ensures r.Ok? ==> r.value == Trim(env[key].s) && r.value != [] && Trimmed(r.value)
    ensures r.Err? ==> r.error == ConfigurationError("Missing required binding: " + key)
  {
    var value := if key in env then env[key] else Undefined;
    if !value.Str? then Err(ConfigurationError("Missing required binding: " + key))
    else
      var trimmedValue := Trim(value.s);
      if trimmedValue == [] then Err(ConfigurationError("Missing required binding: " + key))
      else Ok(trimmedValue)
  }

  /** The binding read back is stable: a trimmed binding reads as itself. */
  lemma {:induction false} GetRequiredBindingStringIdempotent(env: map<string, Value>, key: string)
    requires GetRequiredBindingString(env, key).Ok?
    ensures GetRequiredBindingString(env[key := Str(GetRequiredBindingString(env, key).value)], key)
            == GetRequiredBindingString(env, key)
  {
    TrimIdempotent(env[key].s);
  }

  /** A missing binding, such as an unset API token, reaches the client as a 500 with the
      fixed configuration message. */
  lemma {:induction false} MissingBindingIsServerError(env: map<string, Value>, key: string)
    requires key !in env
    ensures GetRequiredBindingString(env, key).Err?
    ensures ToApiError(GetRequiredBindingString(env, key).error)
            == ApiErrorResponse(500, ApiErrorBody("Server configuration error", "ConfigurationError"))
  {
  }
}
