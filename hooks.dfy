/** The validation SimpleHTTPRequestHandler.set_hook applies to a hook dictionary. */
module Hooks {
  import opened Wrappers
  import opened PyValues

  /** A hook as the caller passes it: a dictionary with `lambda` and, optionally, `arguments`. */
  type HookDict = map<string, Value>

  const NoLambdaMessage := "The given hook is invalid (no lambda function given)."
  const NotCallableMessage := "The given hook is invalid (lambda function is not callable)."
  const NotListMessage := "The given hook is invalid (parameter argument must be a list)."

  /** A hook as the registry stores it: a callable `lambda` and a list of `arguments`. */
  ghost predicate StoredHook(h: HookDict) {
    && "lambda" in h && IsCallable(h["lambda"])
    && "arguments" in h && IsList(h["arguments"])
  }

  /**
   * The checks of set_hook, in their order, and the defaulting of a missing
   * `arguments` entry to the empty list: Ok(the dictionary that is stored) or
   * Err(the message of the AssertionError).
   */
  function ValidateHook(hook: HookDict): (r: Result<HookDict>)
    ensures r.Ok? <==>
      "lambda" in hook && IsCallable(hook["lambda"]) && ("arguments" in hook ==> IsList(hook["arguments"]))
    ensures "lambda" !in hook ==> r == Err(NoLambdaMessage)
    ensures "lambda" in hook && !IsCallable(hook["lambda"]) ==> r == Err(NotCallableMessage)
    ensures "lambda" in hook && IsCallable(hook["lambda"]) && "arguments" in hook && !IsList(hook["arguments"]) ==>
      r == Err(NotListMessage)
    ensures r.Ok? ==>
      && StoredHook(r.value)
      && r.value.Keys == hook.Keys + {"arguments"}
      && (forall k :: k in hook ==> r.value[k] == hook[k])
      && ("arguments" !in hook ==> r.value["arguments"] == List([]))
  {
    if "lambda" !in hook then Err(NoLambdaMessage)
    else if !IsCallable(hook["lambda"]) then Err(NotCallableMessage)
    else
      var filled := if "arguments" !in hook then hook["arguments" := List([])] else hook;
      if !IsList(filled["arguments"]) then Err(NotListMessage)
      else Ok(filled)
  }

  /** Validating what set_hook stored again changes nothing. */
  lemma ValidateStoredHook(hook: HookDict)
    requires ValidateHook(hook).Ok?
    ensures ValidateHook(ValidateHook(hook).value) == ValidateHook(hook)
  {
  }
}
