/** The editor for `String`: a single-line or a multi-line text box, chosen
    by the `multiline` attribute. */
module TextWidgets {
  import opened Inspectable

  datatype StringAttributes = StringAttributes(multiline: bool)

  /** The derived default: `multiline` is false. */
  const DefaultStringAttributes := StringAttributes(false)

  datatype TextEdit = SingleLine | MultiLine

  /** The text box that the `String` editor adds for the given options. */
  function TextEditFor(options: Options<StringAttributes>): (e: TextEdit)
    ensures e == MultiLine <==> options.custom.multiline
    ensures e == SingleLine <==> !options.custom.multiline
  {
    match options.custom.multiline
    case false => SingleLine
    case true => MultiLine
  }

  /** Without attributes a string is edited on a single line. */
  lemma DefaultIsSingleLine()
    ensures TextEditFor(Options(DefaultStringAttributes)) == SingleLine
  {
  }
}
