/**
 The bar/histogram orientation flag: a string that starts as 'vertical' and
 that the orientation button flips on every click.
 */
module Orientation {

  const Vertical: string := "vertical"
  const Horizontal: string := "horizontal"

  /** The flag's value when the page loads. */
  const Initial: string := Vertical

  predicate IsOrientation(o: string)
  {
    o == Vertical || o == Horizontal
  }

  /** The click handler's update: always one of the two flags, never the one it was given. */
  function Toggle(o: string): (r: string)
    ensures IsOrientation(r)
    ensures r != o
  {
    if o == Vertical then Horizontal else Vertical
  }

  /** Two clicks restore a well-formed flag. */
  lemma ToggleTwice(o: string)
    requires IsOrientation(o)
    ensures Toggle(Toggle(o)) == o
  {
  }

  /** The flag after `clicks` clicks starting from `o`. */
  function AfterClicks(o: string, clicks: nat): string
  {
    if clicks == 0 then o else Toggle(AfterClicks(o, clicks - 1))
  }

  /** From page load the flag is 'vertical' exactly after an even number of clicks, and never anything else. */
  lemma {:induction false} ClickParity(clicks: nat)
    ensures AfterClicks(Initial, clicks) == (if clicks % 2 == 0 then Vertical else Horizontal)
  {
    if clicks > 0 {
      ClickParity(clicks - 1);
    }
  }

  /** The two screen directions a chart axis can run along. */
  datatype ScreenAxis = XAxis | YAxis

  /** Where the category (bar) or bin axis goes: along x when vertical, along y otherwise. */
  function BandAxis(o: string): (a: ScreenAxis)
    ensures a == XAxis <==> o == Vertical
  {
    if o == Vertical then XAxis else YAxis
  }

  /** The count axis always takes the other direction. */
  function CountAxis(o: string): (a: ScreenAxis)
    ensures a != BandAxis(o)
  {
    if o == Vertical then YAxis else XAxis
  }
}
