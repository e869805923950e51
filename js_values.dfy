/**
 * The JavaScript values the start-up hook inspects: the error values that
 * asynchronous effects reject with, the properties the handlers read off
 * them, JavaScript truthiness and `String.prototype.includes`.
 */
module JsValues {

  datatype Option<+T> = None | Some(value: T)

  /** What reading a property off a non-null value yields. */
  datatype Prop = Missing | Str(s: string) | Bool(b: bool)

  /** The wallet loader's error codes, compared by identity. */
  datatype LoaderCode = OpenWalletInput | OpenWalletInputPrivPass

  /** A localised message element; the tag stands for its message id. */
  datatype MessageTag = P521CurveError | OtherMessage(id: string)

  /** The properties of an error object that the handlers look at. */
  datatype Fields = Fields(connected: Prop, error: Prop, walletCreatedAsNew: Prop)

  /**
   * A value an effect rejects with, or that is stored as an error:
   * `null`/`undefined`, a string, one of the loader's code constants,
   * a React element, an instance of `Error`, or any other object.
   */
  datatype ErrorValue =
    | Nullish
    | Text(s: string)
    | LoaderError(code: LoaderCode)
    | Element(tag: MessageTag)
    | ErrorInstance(message: string, fields: Fields)
    | Object(messageProp: Prop, fields: Fields)

  /** The properties the handlers read. */
  datatype Field = MessageField | ConnectedField | ErrorField | WalletCreatedAsNewField

  predicate PropTruthy(p: Prop) {
    match p
    case Missing => false
    case Str(s) => s != ""
    case Bool(b) => b
  }

  /** JavaScript truthiness of an error value. */
  predicate Truthy(e: ErrorValue) {
    match e
    case Nullish => false
    case Text(s) => s != ""
    case _ => true
  }

  /** `!!passPhrase` for a pass phrase that may be undefined. */
  predicate HasText(p: Option<string>) {
    p.Some? && p.value != ""
  }

  /**
   * `e.f`: `None` when the read raises a TypeError (e is null or undefined),
   * otherwise the property's value. Strings and elements carry none of the
   * properties read here.
   */
  function Read(e: ErrorValue, f: Field): (r: Option<Prop>)
    ensures r.None? <==> e.Nullish?
    ensures e.ErrorInstance? && f == MessageField ==> r == Some(Str(e.message))
    ensures (e.Text? || e.LoaderError? || e.Element?) ==> r == Some(Missing)
  {
    match e
    case Nullish => None
    case Text(_) => Some(Missing)
    case LoaderError(_) => Some(Missing)
    case Element(_) => Some(Missing)
    case ErrorInstance(m, fs) => Some(if f == MessageField then Str(m) else FieldOf(fs, f))
    case Object(m, fs) => Some(if f == MessageField then m else FieldOf(fs, f))
  }

  function FieldOf(fs: Fields, f: Field): Prop
    requires f != MessageField
  {
    match f
    case ConnectedField => fs.connected
    case ErrorField => fs.error
    case WalletCreatedAsNewField => fs.walletCreatedAsNew
  }

  /** `sub` occurs in `s` starting at index `i`. */
  predicate MatchesAt(s: string, sub: string, i: int) {
    0 <= i && i + |sub| <= |s| && s[i..i + |sub|] == sub
  }

  /** `s.includes(sub)`. */
  predicate Includes(s: string, sub: string) {
    exists i | 0 <= i <= |s| - |sub| :: MatchesAt(s, sub, i)
  }

  lemma IncludesInfix(pre: string, sub: string, post: string)
    ensures Includes(pre + sub + post, sub)
  {
    var s := pre + sub + post;
    assert s[|pre|..|pre| + |sub|] == sub;
    assert MatchesAt(s, sub, |pre|);
  }
}
