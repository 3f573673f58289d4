/**
 * The start-up check that an OpenAI API key is configured: the value of the
 * `OPENAI_API_KEY` environment variable (after loading the project's `.env`
 * file) must be present, non-blank and start with `sk-`.
 */
module OpenAiKey {
  import opened Wrappers
  import opened Strings

  /** `check_openai_key()`, given the variable's value (`None` when unset). */
  function CheckKey(key: Option<string>): (ok: bool)
    ensures key.None? || key.value == [] ==> !ok
    ensures key.Some? && AllSpace(key.value) ==> !ok
    ensures ok <==> key.Some? && StartsWith(key.value, "sk-")
  {
    if key.None? || key.value == [] then false
    else if Strip(key.value) == [] then false
    else if !StartsWith(key.value, "sk-") then false
    else true
  }

  /** `main()`: exit status 0 when the key check passes, 1 otherwise. */
  function MainExitCode(key: Option<string>): (code: int)
    ensures code == 0 <==> CheckKey(key)
    ensures code == 0 || code == 1
    ensures code == 0 <==> key.Some? && StartsWith(key.value, "sk-")
  {
    if CheckKey(key) then 0 else 1
  }
}
