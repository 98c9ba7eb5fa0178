/**
 * `Colorful`: a design-token name as a CSS custom property reference, in
 * both the plain-object and the `style` forms.
 */
module Colorful {

  datatype ColorDecl = ColorDecl(color: string)
  datatype BackgroundDecl = BackgroundDecl(background: string)
  datatype Style<T> = Style(style: T)
  datatype Styles = Styles(color: Style<ColorDecl>, background: Style<BackgroundDecl>)
  datatype ColorfulProps = ColorfulProps(color: ColorDecl, background: BackgroundDecl, style: Styles)

  /** `var(--<color>)`. */
  function CssVar(color: string): (v: string)
    ensures |v| == |color| + 7
    ensures v[..6] == "var(--" && v[|v| - 1] == ')'
  {
    "var(--" + color + ")"
  }

  /** The token can be read back from the CSS value, so distinct tokens give distinct values. */
  lemma CssVarRecoversToken(color: string)
    ensures CssVar(color)[6..|CssVar(color)| - 1] == color
  {
  }

  function Colorful(color: string): (c: ColorfulProps)
    ensures c.color.color == CssVar(color) && c.style.color.style.color == CssVar(color)
    ensures c.background.background == CssVar(color) && c.style.background.style.background == CssVar(color)
  {
    var value := CssVar(color);
    ColorfulProps(ColorDecl(value), BackgroundDecl(value), Styles(Style(ColorDecl(value)), Style(BackgroundDecl(value))))
  }

  /** The empty token gives `var(--)` in all four places. */
  lemma EmptyToken()
    ensures var c := Colorful("");
      c.color.color == "var(--)" && c.background.background == "var(--)"
      && c.style.color.style.color == "var(--)" && c.style.background.style.background == "var(--)"
  {
    assert "var(--" + "" + ")" == "var(--)";
  }
}
