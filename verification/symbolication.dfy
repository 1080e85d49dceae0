/**
 * The symbolication status rows of the panel: a "Symbols:" row describing
 * the state and, once symbolication is done, a button to run it again.
 */
module Symbolication {
  import opened Wrappers
  import opened ProfileMeta

  const SymbolsHeading := "Symbols:"
  /** The button row has an empty label cell. */
  const ButtonHeading := ""
  const UnhandledStatus := "Unhandled SymbolicationStatus."

  /** The sentence of the "Symbols:" row. */
  function StatusText(status: Status, symbolicated: bool): string {
    match status
    case Done =>
      if symbolicated then "Profile is symbolicated" else "Profile is not symbolicated"
    case Symbolicating =>
      if symbolicated then "Attempting to re-symbolicate profile" else "Currently symbolicating profile"
  }

  function ButtonCaption(symbolicated: bool): string {
    if symbolicated then "Re-symbolicate profile" else "Symbolicate profile"
  }

  /** The rows for a known status; `symbolicated` is the profile's `meta.symbolicated`. */
  function RenderSymbolication(status: Status, symbolicated: bool): (rows: seq<Row>)
    ensures |rows| == (if status == Done then 2 else 1)
    ensures rows[0] == Row(SymbolsHeading, Text(StatusText(status, symbolicated)))
    ensures forall i :: 0 <= i < |rows| ==> (rows[i].content.Button? <==> status == Done && i == 1)
    ensures status == Done ==> rows[1] == Row(ButtonHeading, Button(ButtonCaption(symbolicated)))
  {
    match status
    case Done =>
      [Row(SymbolsHeading, Text(StatusText(Done, symbolicated))),
       Row(ButtonHeading, Button(ButtonCaption(symbolicated)))]
    case Symbolicating =>
      [Row(SymbolsHeading, Text(StatusText(Symbolicating, symbolicated)))]
  }

  /**
   * Reads the state back from the displayed rows: the sentence names both the
   * status and the flag, and a button is shown exactly in the done state.
   */
  function ReadSymbolication(rows: seq<Row>): Option<(Status, bool)> {
    if |rows| == 0 || rows[0].heading != SymbolsHeading || !rows[0].content.Text? then None
    else
      var t := rows[0].content.text;
      var hasButton := |rows| == 2 && rows[1].content.Button?;
      if t == "Profile is symbolicated" && hasButton then Some((Done, true))
      else if t == "Profile is not symbolicated" && hasButton then Some((Done, false))
      else if t == "Attempting to re-symbolicate profile" && |rows| == 1 then Some((Symbolicating, true))
      else if t == "Currently symbolicating profile" && |rows| == 1 then Some((Symbolicating, false))
      else None
  }

  /** Each of the four (status, flag) combinations is displayed distinguishably. */
  lemma ReadRenderedSymbolication(status: Status, symbolicated: bool)
    ensures ReadSymbolication(RenderSymbolication(status, symbolicated)) == Some((status, symbolicated))
  {
  }

  /** The status as the store supplies it: one of two string tags, anything else is a programming error. */
  function ParseStatus(tag: string): (r: Result<Status, string>)
    ensures r.Success? <==> tag == "DONE" || tag == "SYMBOLICATING"
    ensures r.Success? ==> (r.value == Done <==> tag == "DONE")
    ensures r.Failure? ==> r.error == UnhandledStatus
  {
    if tag == "DONE" then Success(Done)
    else if tag == "SYMBOLICATING" then Success(Symbolicating)
    else Failure(UnhandledStatus)
  }

  /**
   * The rows for a status tag: an unknown tag fails with the exhaustiveness
   * error instead of falling back to either state.
   */
  function RenderSymbolicationTag(tag: string, symbolicated: bool): (r: Result<seq<Row>, string>)
    ensures r.Failure? <==> tag != "DONE" && tag != "SYMBOLICATING"
    ensures r.Failure? ==> r.error == UnhandledStatus
    ensures tag == "DONE" ==> r == Success(RenderSymbolication(Done, symbolicated))
    ensures tag == "SYMBOLICATING" ==> r == Success(RenderSymbolication(Symbolicating, symbolicated))
  {
    match ParseStatus(tag)
    case Success(status) => Success(RenderSymbolication(status, symbolicated))
    case Failure(e) => Failure(e)
  }
}
