/**
 * The `showNavLinks` flag: true at first, cleared when CONTINUE is sent,
 * set again when BACK is sent and when the wallet list is requested.
 */
module NavLinks {

  /** The three places that set the flag. */
  datatype NavOp = ContinueSent | BackSent | WalletListRequested

  /** The value each of them sets. */
  function Setting(op: NavOp): bool {
    op != ContinueSent
  }

  /** The flag's initial value, `useState(true)`. */
  const InitialNavLinks := true

  /** The flag after a history of settings, applied one after the other from `current`. */
  function NavFrom(current: bool, history: seq<NavOp>): (r: bool)
    // the last setting wins; with none, the flag keeps its value
    ensures r == if history == [] then current else Setting(history[|history| - 1])
    decreases |history|
  {
    if history == [] then current else NavFrom(Setting(history[0]), history[1..])
  }

  function NavAfter(history: seq<NavOp>): bool {
    NavFrom(InitialNavLinks, history)
  }

  /** The links are hidden exactly when the last setting was a CONTINUE. */
  lemma NavHiddenIffContinuedLast(history: seq<NavOp>)
    ensures !NavAfter(history) <==> history != [] && history[|history| - 1] == ContinueSent
  {
  }
}
