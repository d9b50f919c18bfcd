/** `View.get_line_separator` (editor.py lines 174-184): the text a line ends
    with under the editor's end-of-line mode. */
module EditorView {
  import opened LexerTypes

  /** QScintilla's `EolMode` values. */
  const EolWindows: int := 0
  const EolMac: int := 1
  const EolUnix: int := 2

  /** The separator for an end-of-line mode: CR LF on Windows, LF on Unix,
      CR on the classic Mac, and the empty string for any other value. */
  function LineSeparator(eolMode: int): (eol: string)
    ensures eol == "\r\n" <==> eolMode == EolWindows
    ensures eol == "\n" <==> eolMode == EolUnix
    ensures eol == "\r" <==> eolMode == EolMac
    ensures eol == "" <==> eolMode !in {EolWindows, EolMac, EolUnix}
  {
    if eolMode == EolWindows then "\r\n"
    else if eolMode == EolUnix then "\n"
    else if eolMode == EolMac then "\r"
    else ""
  }

  /** The mode a separator stands for, if any. */
  function EolModeOf(eol: string): (mode: Option<int>)
  {
    if eol == "\r\n" then Some(EolWindows)
    else if eol == "\n" then Some(EolUnix)
    else if eol == "\r" then Some(EolMac)
    else None
  }

  /** Each of the three modes has its own separator, ending in a line feed or
      a carriage return, from which the mode can be read back; every other
      mode has none. */
  lemma SeparatorIdentifiesMode(eolMode: int)
    ensures var eol := LineSeparator(eolMode);
      && (eol != "" ==> EolModeOf(eol) == Some(eolMode) && 1 <= |eol| <= 2 && eol[|eol| - 1] in {'\n', '\r'})
      && (eol == "" <==> EolModeOf(eol).None?)
  {
  }
}
