/** The colour names the document store accepts for text and block colours. */
module Colors {

  datatype Color =
    | Default | Gray | Brown | Orange | Yellow | Green | Blue | Purple | Pink | Red
    | GrayBackground | BrownBackground | OrangeBackground | YellowBackground | GreenBackground
    | BlueBackground | PurpleBackground | PinkBackground | RedBackground

  /** The wire name of a colour. */
  function Name(c: Color): string {
    match c
    case Default => "default"
    case Gray => "gray"
    case Brown => "brown"
    case Orange => "orange"
    case Yellow => "yellow"
    case Green => "green"
    case Blue => "blue"
    case Purple => "purple"
    case Pink => "pink"
    case Red => "red"
    case GrayBackground => "gray_background"
    case BrownBackground => "brown_background"
    case OrangeBackground => "orange_background"
    case YellowBackground => "yellow_background"
    case GreenBackground => "green_background"
    case BlueBackground => "blue_background"
    case PurpleBackground => "purple_background"
    case PinkBackground => "pink_background"
    case RedBackground => "red_background"
  }

  /** Distinct colours have distinct wire names. */
  lemma NameInjective(c: Color, d: Color)
    requires Name(c) == Name(d)
    ensures c == d
  {
  }
}
