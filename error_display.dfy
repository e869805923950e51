/**
 * `getError`: the normaliser that turns a stored error value into something
 * the views can show.
 */
module ErrorDisplay {
  import opened JsValues

  /**
   * What `getError` returns: nothing (undefined), an element as it is, a
   * string, the JSON text of an object (left uninterpreted), or one of the
   * loader's code constants as it is.
   */
  datatype Display = Hidden | ShowElement(tag: MessageTag) | ShowText(text: string) | ShowJson(of: ErrorValue) | ShowCode(code: LoaderCode)

  /** Whether `lodash.isObject` holds: everything that is not a primitive or nullish. */
  predicate IsObject(e: ErrorValue) {
    e.Element? || e.ErrorInstance? || e.Object?
  }

  function GetError(e: ErrorValue): (r: Display)
    // a falsy error shows nothing, and only a falsy one
    ensures r.Hidden? <==> !Truthy(e)
    // an element is handed on as it is, before any other test
    ensures e.Element? ==> r == ShowElement(e.tag)
    // an Error instance shows its message
    ensures e.ErrorInstance? ==> r == ShowText(e.message)
    // only objects that are neither elements nor Errors are stringified
    ensures r.ShowJson? <==> e.Object?
    ensures r.ShowJson? ==> r.of == e
    // a truthy primitive is shown unchanged
    ensures Truthy(e) && !IsObject(e) ==>
      r == (if e.Text? then ShowText(e.s) else ShowCode(e.code))
  {
    if !Truthy(e) then Hidden
    else if e.Element? then ShowElement(e.tag)
    else if e.ErrorInstance? then ShowText(e.message)
    else if IsObject(e) then ShowJson(e)
    else if e.Text? then ShowText(e.s)
    else ShowCode(e.code)
  }

  /** The value a non-JSON display stands for, as the views receive it. */
  function AsValue(d: Display): ErrorValue
    requires !d.ShowJson?
  {
    match d
    case Hidden => Nullish
    case ShowElement(t) => Element(t)
    case ShowText(s) => Text(s)
    case ShowCode(c) => LoaderError(c)
  }

  /**
   * Normalising is stable: what `getError` shows, normalised again, shows the
   * same, except for the JSON text of an object (left uninterpreted) and the
   * empty message of an Error, which is shown as "" but is falsy as a string.
   */
  lemma GetErrorStable(e: ErrorValue)
    requires !e.Object?
    requires e.ErrorInstance? ==> e.message != ""
    ensures !GetError(e).ShowJson? && GetError(AsValue(GetError(e))) == GetError(e)
  {
  }

  /** The exception: an Error with an empty message is shown, the string it yields is not. */
  lemma EmptyMessageNotStable(f: Fields)
    ensures GetError(ErrorInstance("", f)) == ShowText("")
    ensures GetError(AsValue(GetError(ErrorInstance("", f)))) == Hidden
  {
  }
}
