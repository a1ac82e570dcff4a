/**
 * The glyph side of the display, kept abstract: a Text is the runes it shows
 * and the box its glyphs fill; the font decides the box and which runes it
 * can set.  newText and Text are defined outside the files this project models.
 */
module Glyphs {
  import opened Wrappers

  /** A glyph table: the width and height it sets a string in, and the strings it has glyphs for. */
  datatype Font = Font(width: string -> nat, height: string -> nat, covers: string -> bool)

  datatype Text = Text(runes: string, width: nat, height: nat)

  /** Appending the glyphs of some runes to an empty Text; this never fails. */
  function Typeset(font: Font, s: string): (t: Text)
  {
    Text(s, font.width(s), font.height(s))
  }

  /** newText: fails exactly when the font has no glyphs for the string. */
  function NewText(font: Font, s: string): (r: Result<Text>)
    ensures r.Ok? <==> font.covers(s)
    ensures r.Ok? ==> r.value == Typeset(font, s)
    ensures r.Err? ==> r.error == NoFont(s)
  {
    if font.covers(s) then Ok(Typeset(font, s)) else Err(NoFont(s))
  }

  /** The runes of the marker shown while a clock is paused (pauseFont). */
  const PauseRunes: string := "PAUSE"
}
