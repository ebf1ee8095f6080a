/** One step cell of a sequencer grid (`CustomToggle`): an on/off state, the colour it
    shows when off, and the background colour it paints. */
module CustomToggles {
  import opened Common

  /** The inspector configuration a toggle is cloned with. `hasImage` says whether the
      cell's GameObject carries the `Image` that `background` stands for. */
  datatype Style = Style(onColor: Color, blackKeyOffColor: Color, whiteKeyOffColor: Color, hasImage: bool)

  /** Everything observable about a toggle's state. */
  datatype Look = Look(isOn: bool, offColor: Color, background: Color, style: Style)

  /** The prefab a grid instantiates for each cell: whether its GameObject has a
      CustomToggle component at all, the toggle's style, the colour its Image starts
      with, and whether it has a TMP_Text child (with its initial text). */
  datatype Prefab = Prefab(hasToggle: bool, style: Style, imageColor: Color, hasText: bool, text: string)

  /** A freshly instantiated toggle: `isOn = false` and an unassigned off colour
      (CustomToggle.cs:10-11); the Image shows the prefab's colour. */
  function Fresh(prefab: Prefab): (l: Look)
    ensures !l.isOn && l.style == prefab.style
  {
    Look(false, Clear, prefab.imageColor, prefab.style)
  }

  /** The background agrees with the state: `onColor` when on, the off colour when off. */
  predicate Painted(l: Look) {
    l.style.hasImage ==> l.background == (if l.isOn then l.style.onColor else l.offColor)
  }

  /** `SetDefaultOffColor(c)`: store `c`; repaint only when off and there is an Image. */
  function WithOffColor(l: Look, c: Color): (r: Look)
    ensures r.offColor == c && r.isOn == l.isOn && r.style == l.style
    ensures r.background == (if !l.isOn && l.style.hasImage then c else l.background)
    ensures Painted(l) ==> Painted(r)
  {
    l.(offColor := c, background := if !l.isOn && l.style.hasImage then c else l.background)
  }

  /** State `s` with the background repainted to match (`SetState`, CustomToggle.cs:82-89). */
  function WithState(l: Look, s: bool): (r: Look)
    ensures r.isOn == s && r.offColor == l.offColor && r.style == l.style
    ensures Painted(r)
    ensures !r.style.hasImage ==> r.background == l.background
  {
    var flipped := l.(isOn := s);
    if l.style.hasImage then flipped.(background := if s then l.style.onColor else l.offColor) else flipped
  }

  /** `ToggleState`: negate the state and repaint (CustomToggle.cs:67-76). */
  function Flipped(l: Look): (r: Look)
    ensures r.isOn == !l.isOn && r.offColor == l.offColor && r.style == l.style
    ensures Painted(r)
  {
    WithState(l, !l.isOn)
  }

  /** `Initialize(row, isBlackKey)`: the off colour of a black-key or a white-key row. */
  function Initialized(l: Look, isBlackKey: bool): (r: Look)
    ensures r.offColor == (if isBlackKey then l.style.blackKeyOffColor else l.style.whiteKeyOffColor)
    ensures r.isOn == l.isOn && r.style == l.style
    ensures !l.isOn ==> Painted(r)
  {
    WithOffColor(l, if isBlackKey then l.style.blackKeyOffColor else l.style.whiteKeyOffColor)
  }

  /** Two toggles restore the state; on a painted toggle they restore everything. */
  lemma FlipTwice(l: Look)
    ensures Flipped(Flipped(l)).isOn == l.isOn
    ensures Painted(l) ==> Flipped(Flipped(l)) == l
  {
  }

  /** Setting the same state twice has the effect of setting it once. */
  lemma WithStateIdempotent(l: Look, s: bool)
    ensures WithState(WithState(l, s), s) == WithState(l, s)
  {
  }

  /** Of two off-colour assignments in a row only the second is visible. */
  lemma WithOffColorTwice(l: Look, c: Color, d: Color)
    ensures WithOffColor(WithOffColor(l, c), d) == WithOffColor(l, d)
  {
  }

  class CustomToggle {
    const style: Style
    /** Whether the cell's GameObject has a TMP_Text child that `text` stands for. */
    const hasText: bool
    var isOn: bool
    var currentOffColor: Color
    var background: Color
    var text: string

    function View(): Look
      reads this
    {
      Look(isOn, currentOffColor, background, style)
    }

    /** `Instantiate(prefab)` followed by `Awake`. */
    constructor Instantiate(prefab: Prefab)
      ensures View() == Fresh(prefab)
      ensures hasText == prefab.hasText && text == prefab.text
    {
      style := prefab.style;
      hasText := prefab.hasText;
      isOn := false;
      currentOffColor := Clear;
      background := prefab.imageColor;
      text := prefab.text;
    }

    method Initialize(rowIndex: int, isBlackKey: bool)
      modifies this
      ensures View() == Initialized(old(View()), isBlackKey)
      ensures text == old(text)
    {
      var c := if isBlackKey then style.blackKeyOffColor else style.whiteKeyOffColor;
      SetDefaultOffColor(c);
    }

    method SetDefaultOffColor(color: Color)
      modifies this
      ensures View() == WithOffColor(old(View()), color)
      ensures text == old(text)
    {
      currentOffColor := color;
      if !isOn && style.hasImage {
        background := currentOffColor;
      }
    }

    /** The click handler `OnPointerClick` calls exactly this. */
    method ToggleState()
      modifies this
      ensures View() == Flipped(old(View()))
      ensures text == old(text)
    {
      isOn := !isOn;
      if style.hasImage {
        background := if isOn then style.onColor else currentOffColor;
      }
    }

    method SetState(state: bool)
      modifies this
      ensures View() == WithState(old(View()), state)
      ensures text == old(text)
    {
      isOn := state;
      if style.hasImage {
        background := if isOn then style.onColor else currentOffColor;
      }
    }

    method GetState() returns (state: bool)
      ensures state == isOn
    {
      state := isOn;
    }
  }
}
