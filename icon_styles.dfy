/**
  The icon pass of the homepage (TopLevelSettings.setIconStyles): every item whose icon is a
  LayerDrawable of exactly two layers (layer 0 the background, layer 1 the foreground) has
  both tints reset to 0 and then painted in one of eight styles built from three theme
  colours and a per-position colour array.
 */
module IconStyles {
  import opened Preferences

  /** The three theme colours, already resolved (textColorPrimaryInverse, colorAccent, colorBackgroundFloating). */
  datatype Theme = Theme(normal: int, accent: int, background: int)

  /** Where a style takes a layer's tint from. */
  datatype ColorSource = NormalColor | AccentColor | BackgroundColor | ColorfulTint | NoColor

  /** One icon style: the foreground's source, the background's, and whether the background is dimmed. */
  datatype Style = Style(fg: ColorSource, bg: ColorSource, dimBackground: bool)

  /** The alpha of a dimmed background layer. */
  const DimmedAlpha := 50

  /** The eight styles, by index. */
  const StyleTable: seq<Style> := [
    Style(AccentColor, NoColor, false),         // 0
    Style(AccentColor, BackgroundColor, false), // 1
    Style(NormalColor, AccentColor, false),     // 2
    Style(AccentColor, AccentColor, true),      // 3
    Style(ColorfulTint, NoColor, false),        // 4
    Style(ColorfulTint, ColorfulTint, true),    // 5
    Style(ColorfulTint, BackgroundColor, false),// 6
    Style(NormalColor, ColorfulTint, false)     // 7
  ]

  /** A style index outside the table paints nothing. */
  function StyleOf(index: int): (style: Style)
  {
    if 0 <= index < |StyleTable| then StyleTable[index] else Style(NoColor, NoColor, false)
  }

  /** The styles that read the colour array at the item's position. */
  predicate ReadsColorfulTint(index: int)
  {
    StyleOf(index).fg == ColorfulTint || StyleOf(index).bg == ColorfulTint
  }

  /** The colour a source stands for at position `i`; `NoColor` keeps the reset tint 0. */
  function ColorOf(source: ColorSource, theme: Theme, colorfulTint: seq<int>, i: nat): (color: int)
    requires source == ColorfulTint ==> i < |colorfulTint|
  {
    match source
    case NormalColor => theme.normal
    case AccentColor => theme.accent
    case BackgroundColor => theme.background
    case ColorfulTint => colorfulTint[i]
    case NoColor => 0
  }

  /** The foreground and background layers, after style `index` is applied at position `i`. */
  function Painted(bg: Drawable, fg: Drawable, index: int, theme: Theme, colorfulTint: seq<int>, i: nat)
    : (layers: (Drawable, Drawable))
    requires ReadsColorfulTint(index) ==> i < |colorfulTint|
  {
    var style := StyleOf(index);
    (bg.(tint := Some(ColorOf(style.bg, theme, colorfulTint, i)),
         alpha := if style.dimBackground then DimmedAlpha else bg.alpha),
     fg.(tint := Some(ColorOf(style.fg, theme, colorfulTint, i))))
  }

  /** What the icon pass makes of the item at position `i`. */
  function Restyled(p: Preference, index: int, theme: Theme, colorfulTint: seq<int>, i: nat): (q: Preference)
    requires HasTwoLayerIcon(p) && ReadsColorfulTint(index) ==> i < |colorfulTint|
  {
    if HasTwoLayerIcon(p) then
      var layers := p.icon.value.layers;
      var (bg, fg) := Painted(layers[0], layers[1], index, theme, colorfulTint, i);
      p.(icon := Some(LayerDrawable([bg, fg])))
    else
      p
  }

  /** The pass reads `colorfulTint[i]` only for a tinted item in a style that uses it. */
  predicate ColorfulTintCovers(screen: seq<Preference>, index: int, colorfulTint: seq<int>)
  {
    ReadsColorfulTint(index) ==>
      forall i :: 0 <= i < |screen| && HasTwoLayerIcon(screen[i]) ==> i < |colorfulTint|
  }

  /** setIconStyles, with the theme colours, the style setting and the colour array as inputs. */
  method SetIconStyles(screen: array<Preference>, theme: Theme, dashboardIconStyle: int, colorfulTint: seq<int>)
    requires ColorfulTintCovers(screen[..], dashboardIconStyle, colorfulTint)
    modifies screen
    ensures forall i :: 0 <= i < screen.Length ==>
              screen[i] == Restyled(old(screen[i]), dashboardIconStyle, theme, colorfulTint, i)
  {
    for i := 0 to screen.Length
      invariant forall j :: 0 <= j < i ==>
                  screen[j] == Restyled(old(screen[j]), dashboardIconStyle, theme, colorfulTint, j)
      invariant forall j :: i <= j < screen.Length ==> screen[j] == old(screen[j])
    {
      var preference := screen[i];
      var icon := preference.icon;
      if icon.Some? {
        if icon.value.LayerDrawable? {
          var lIcon := icon.value;
          if |lIcon.layers| == 2 {
            var bg := lIcon.layers[0];
            var fg := lIcon.layers[1];
            bg := bg.ClearTintList();
            fg := fg.ClearTintList();
            fg := fg.SetTint(0);
            bg := bg.SetTint(0);
            if dashboardIconStyle == 0 {
              fg := fg.SetTint(theme.accent);
            } else if dashboardIconStyle == 1 {
              fg := fg.SetTint(theme.accent);
              bg := bg.SetTint(theme.background);
            } else if dashboardIconStyle == 2 {
              fg := fg.SetTint(theme.normal);
              bg := bg.SetTint(theme.accent);
            } else if dashboardIconStyle == 3 {
              bg := bg.SetTint(theme.accent);
              bg := bg.SetAlpha(DimmedAlpha);
              fg := fg.SetTint(theme.accent);
            } else if dashboardIconStyle == 4 {
              fg := fg.SetTint(colorfulTint[i]);
            } else if dashboardIconStyle == 5 {
              fg := fg.SetTint(colorfulTint[i]);
              bg := bg.SetTint(colorfulTint[i]);
              bg := bg.SetAlpha(DimmedAlpha);
            } else if dashboardIconStyle == 6 {
              fg := fg.SetTint(colorfulTint[i]);
              bg := bg.SetTint(theme.background);
            } else if dashboardIconStyle == 7 {
              fg := fg.SetTint(theme.normal);
              bg := bg.SetTint(colorfulTint[i]);
            }
            screen[i] := preference.(icon := Some(LayerDrawable([bg, fg])));
          }
        }
      }
    }
  }

  /** The eight styles as (foreground, background) tints, and the reset tints for any other index. */
  lemma StyleTints(bg: Drawable, fg: Drawable, theme: Theme, c: seq<int>, i: nat)
    ensures Painted(bg, fg, 0, theme, c, i) == (bg.(tint := Some(0)), fg.(tint := Some(theme.accent)))
    ensures Painted(bg, fg, 1, theme, c, i) == (bg.(tint := Some(theme.background)), fg.(tint := Some(theme.accent)))
    ensures Painted(bg, fg, 2, theme, c, i) == (bg.(tint := Some(theme.accent)), fg.(tint := Some(theme.normal)))
    ensures Painted(bg, fg, 3, theme, c, i) == (Drawable(Some(theme.accent), DimmedAlpha), fg.(tint := Some(theme.accent)))
    ensures i < |c| ==> Painted(bg, fg, 4, theme, c, i) == (bg.(tint := Some(0)), fg.(tint := Some(c[i])))
    ensures i < |c| ==> Painted(bg, fg, 5, theme, c, i) == (Drawable(Some(c[i]), DimmedAlpha), fg.(tint := Some(c[i])))
    ensures i < |c| ==> Painted(bg, fg, 6, theme, c, i) == (bg.(tint := Some(theme.background)), fg.(tint := Some(c[i])))
    ensures i < |c| ==> Painted(bg, fg, 7, theme, c, i) == (bg.(tint := Some(c[i])), fg.(tint := Some(theme.normal)))
    ensures forall index :: !(0 <= index <= 7) ==>
              Painted(bg, fg, index, theme, c, i) == (bg.(tint := Some(0)), fg.(tint := Some(0)))
  {
  }

  /** Exactly styles 4 to 7 read the colour array. */
  lemma ColorfulStyles(index: int)
    ensures ReadsColorfulTint(index) <==> 4 <= index <= 7
  {
  }

  /** Only styles 3 and 5 change the background's alpha. */
  lemma AlphaOnlyInDimmedStyles(bg: Drawable, fg: Drawable, index: int, theme: Theme, c: seq<int>, i: nat)
    requires ReadsColorfulTint(index) ==> i < |c|
    ensures Painted(bg, fg, index, theme, c, i).0.alpha != bg.alpha ==> index == 3 || index == 5
    ensures index == 3 || index == 5 ==> Painted(bg, fg, index, theme, c, i).0.alpha == DimmedAlpha
    ensures Painted(bg, fg, index, theme, c, i).1.alpha == fg.alpha
  {
  }

  /** Only two-layer icons are touched, and the pass never changes an item's key, layout or order. */
  lemma RestyledTouchesOnlyTwoLayerIcons(p: Preference, index: int, theme: Theme, c: seq<int>, i: nat)
    requires HasTwoLayerIcon(p) && ReadsColorfulTint(index) ==> i < |c|
    ensures !HasTwoLayerIcon(p) ==> Restyled(p, index, theme, c, i) == p
    ensures var q := Restyled(p, index, theme, c, i);
            q.key == p.key && q.layout == p.layout && q.order == p.order && HasTwoLayerIcon(q) == HasTwoLayerIcon(p)
  {
  }

  /** Because both tints are reset first, the tints an icon had before do not matter. */
  lemma RestyledForgetsOldTints(p: Preference, q: Preference, index: int, theme: Theme, c: seq<int>, i: nat)
    requires HasTwoLayerIcon(p) && HasTwoLayerIcon(q)
    requires p.icon.value.layers[0].alpha == q.icon.value.layers[0].alpha
    requires p.icon.value.layers[1].alpha == q.icon.value.layers[1].alpha
    requires ReadsColorfulTint(index) ==> i < |c|
    ensures Restyled(p, index, theme, c, i).icon == Restyled(q, index, theme, c, i).icon
  {
  }

  /** Styles 0 to 3 use only the theme colours: any colour array and position give the same icon. */
  lemma ThemeStylesIgnoreColorfulTint(p: Preference, index: int, theme: Theme, c: seq<int>, d: seq<int>, i: nat, j: nat)
    requires 0 <= index <= 3
    ensures Restyled(p, index, theme, c, i) == Restyled(p, index, theme, d, j)
  {
  }

  /** Running the pass again with the same inputs changes nothing more. */
  lemma RestyledIdempotent(p: Preference, index: int, theme: Theme, c: seq<int>, i: nat)
    requires HasTwoLayerIcon(p) && ReadsColorfulTint(index) ==> i < |c|
    ensures Restyled(Restyled(p, index, theme, c, i), index, theme, c, i) == Restyled(p, index, theme, c, i)
  {
  }

  /**
    The background's alpha is never restored: after a dimmed style, a later pass in an
    undimmed style leaves the alpha at 50.
   */
  lemma DimmedAlphaSurvivesStyleChange(p: Preference, theme: Theme, c: seq<int>, i: nat, later: int)
    requires HasTwoLayerIcon(p)
    requires later != 3 && later != 5
    requires ReadsColorfulTint(later) ==> i < |c|
    ensures var dimmed := Restyled(p, 3, theme, c, i);
            Restyled(dimmed, later, theme, c, i).icon.value.layers[0].alpha == DimmedAlpha
  {
  }
}
