/**
 * The overlay app's choice of effect: the command-line argument that picks one, and the view
 * and on-screen duration of each. The views themselves (particles, animation) are left out.
 */
module Balloons {
  import opened Text

  datatype EffectType = Balloons | Fireworks | Snow | Cupcake | Campfire | Feather | Beer | Leaves
                      | Rainbow | Pixels | Galaxy

  /** The enumeration's raw value. */
  function RawValue(e: EffectType): string {
    match e
    case Balloons => "balloons"
    case Fireworks => "fireworks"
    case Snow => "snow"
    case Cupcake => "cupcake"
    case Campfire => "campfire"
    case Feather => "feather"
    case Beer => "beer"
    case Leaves => "leaves"
    case Rainbow => "rainbow"
    case Pixels => "pixels"
    case Galaxy => "galaxy"
  }

  /** Each raw value names one effect, and none starts with a dash. */
  lemma RawValueInjective(a: EffectType, b: EffectType)
    ensures RawValue(a) == RawValue(b) <==> a == b
    ensures |RawValue(a)| >= 4 && RawValue(a)[0] != '-'
  {
    var ra, rb := RawValue(a), RawValue(b);
    if a != b {
      assert ra[0] != rb[0] || ra[1] != rb[1];
    }
  }

  /** The argument picks `e`: its bare name or `--effect=<name>`. */
  predicate Selects(arg: string, e: EffectType) {
    arg == RawValue(e) || arg == "--effect=" + RawValue(e)
  }

  /** The `--effect=` forms start with a dash and are as distinct as the names. */
  lemma PrefixedForms(a: EffectType, b: EffectType)
    ensures ("--effect=" + RawValue(a))[0] == '-'
    ensures "--effect=" + RawValue(a) == "--effect=" + RawValue(b) ==> a == b
  {
    var p := "--effect=";
    if p + RawValue(a) == p + RawValue(b) {
      assert RawValue(a) == (p + RawValue(a))[|p|..];
      assert RawValue(b) == (p + RawValue(b))[|p|..];
      RawValueInjective(a, b);
    }
  }

  /** An argument picks at most one effect. */
  lemma SelectsUnique(arg: string, a: EffectType, b: EffectType)
    requires Selects(arg, a) && Selects(arg, b)
    ensures a == b
  {
    RawValueInjective(a, b);
    RawValueInjective(a, a);
    RawValueInjective(b, b);
    PrefixedForms(a, b);
    PrefixedForms(b, a);
  }

  /** An argument that is none of the ten names nor their `--effect=` forms picks nothing. */
  lemma NoEffectSelected(arg: string)
    requires arg != "fireworks" && arg != "--effect=fireworks" && arg != "snow" && arg != "--effect=snow"
    requires arg != "cupcake" && arg != "--effect=cupcake" && arg != "campfire" && arg != "--effect=campfire"
    requires arg != "feather" && arg != "--effect=feather" && arg != "beer" && arg != "--effect=beer"
    requires arg != "leaves" && arg != "--effect=leaves" && arg != "rainbow" && arg != "--effect=rainbow"
    requires arg != "pixels" && arg != "--effect=pixels" && arg != "galaxy" && arg != "--effect=galaxy"
    ensures forall e :: e != Balloons ==> !Selects(arg, e)
  {
    PrefixedNames();
  }

  /** The `--effect=` form of each effect other than balloons, spelled out. */
  lemma PrefixedNames()
    ensures "--effect=" + RawValue(Fireworks) == "--effect=fireworks"
    ensures "--effect=" + RawValue(Snow) == "--effect=snow"
    ensures "--effect=" + RawValue(Cupcake) == "--effect=cupcake"
    ensures "--effect=" + RawValue(Campfire) == "--effect=campfire"
    ensures "--effect=" + RawValue(Feather) == "--effect=feather"
    ensures "--effect=" + RawValue(Beer) == "--effect=beer"
    ensures "--effect=" + RawValue(Leaves) == "--effect=leaves"
    ensures "--effect=" + RawValue(Rainbow) == "--effect=rainbow"
    ensures "--effect=" + RawValue(Pixels) == "--effect=pixels"
    ensures "--effect=" + RawValue(Galaxy) == "--effect=galaxy"
  {
    assert "--effect=" + RawValue(Fireworks) == "--effect=fireworks";
    assert "--effect=" + RawValue(Snow) == "--effect=snow";
    assert "--effect=" + RawValue(Cupcake) == "--effect=cupcake";
    assert "--effect=" + RawValue(Campfire) == "--effect=campfire";
    assert "--effect=" + RawValue(Feather) == "--effect=feather";
    assert "--effect=" + RawValue(Beer) == "--effect=beer";
    assert "--effect=" + RawValue(Leaves) == "--effect=leaves";
    assert "--effect=" + RawValue(Rainbow) == "--effect=rainbow";
    assert "--effect=" + RawValue(Pixels) == "--effect=pixels";
    assert "--effect=" + RawValue(Galaxy) == "--effect=galaxy";
  }

  /**
   * Swift's `lowercased()` as far as it can matter here: ASCII capitals become lower case, and
   * the Kelvin sign U+212A becomes 'k'. Every other character is kept; Swift lowercases it to
   * a character that is again not ASCII, which no effect name contains.
   */
  function FoldChar(c: char): (l: char)
    ensures 'A' <= c <= 'Z' ==> l as int == c as int + 32
    ensures c == '\U{212A}' ==> l == 'k'
    ensures ('a' <= l <= 'z') <==> ('a' <= c <= 'z' || 'A' <= c <= 'Z' || c == '\U{212A}')
  {
    if c == '\U{212A}' then 'k' else LowerAscii(c)
  }

  /** `arguments[1].lowercased()`, character by character. */
  function Lowercased(s: string): (r: string)
    ensures |r| == |s|
    ensures forall i :: 0 <= i < |s| ==> r[i] == FoldChar(s[i])
  {
    if s == [] then [] else [FoldChar(s[0])] + Lowercased(s[1..])
  }

  /**
   * applicationDidFinishLaunching's choice: balloons unless a second argument, lowercased,
   * names another effect; later arguments are ignored.
   */
  method ParseEffect(arguments: seq<string>) returns (effect: EffectType)
    ensures effect != Balloons ==> |arguments| > 1 && Selects(Lowercased(arguments[1]), effect)
    ensures effect == Balloons ==>
              |arguments| <= 1 || forall e :: e != Balloons ==> !Selects(Lowercased(arguments[1]), e)
  {
    effect := Balloons;
    if |arguments| > 1 {
      var effectArg := Lowercased(arguments[1]);
      effect := EffectNamed(effectArg);
    }
  }

  /** The chain of comparisons on the lowercased argument, first match wins. */
  method EffectNamed(effectArg: string) returns (effect: EffectType)
    ensures effect != Balloons ==> Selects(effectArg, effect)
    ensures effect == Balloons ==> forall e :: e != Balloons ==> !Selects(effectArg, e)
  {
    effect := Balloons;
    if effectArg == "fireworks" || effectArg == "--effect=fireworks" {
      effect := Fireworks;
    } else if effectArg == "snow" || effectArg == "--effect=snow" {
      effect := Snow;
    } else if effectArg == "cupcake" || effectArg == "--effect=cupcake" {
      effect := Cupcake;
    } else if effectArg == "campfire" || effectArg == "--effect=campfire" {
      effect := Campfire;
    } else if effectArg == "feather" || effectArg == "--effect=feather" {
      effect := Feather;
    } else if effectArg == "beer" || effectArg == "--effect=beer" {
      effect := Beer;
    } else if effectArg == "leaves" || effectArg == "--effect=leaves" {
      effect := Leaves;
    } else if effectArg == "rainbow" || effectArg == "--effect=rainbow" {
      effect := Rainbow;
    } else if effectArg == "pixels" || effectArg == "--effect=pixels" {
      effect := Pixels;
    } else if effectArg == "galaxy" || effectArg == "--effect=galaxy" {
      effect := Galaxy;
    } else {
      NoEffectSelected(effectArg);
    }
  }

  /** Asking for balloons by name is the same as asking for nothing. */
  lemma BalloonsByNameIsDefault(e: EffectType)
    requires e != Balloons
    ensures !Selects("balloons", e) && !Selects("--effect=balloons", e)
  {
    if Selects("balloons", e) {
      SelectsUnique("balloons", e, Balloons);
    }
    if Selects("--effect=balloons", e) {
      SelectsUnique("--effect=balloons", e, Balloons);
    }
  }

  /** Case does not matter: the argument is lowercased before it is compared. */
  lemma UppercaseArgumentSelects()
    ensures Selects(Lowercased("SNOW"), Snow)
  {
    assert Lowercased("SNOW") == "snow";
  }

  /** The Kelvin sign lowercases to 'k', so "FIREWOR\u{212A}S" picks fireworks. */
  lemma KelvinSignSelects()
    ensures Selects(Lowercased("FIREWOR\U{212A}S"), Fireworks)
  {
    var arg := "FIREWOR\U{212A}S";
    var r := Lowercased(arg);
    forall i | 0 <= i < 9
      ensures r[i] == "fireworks"[i]
    {
      assert r[i] == FoldChar(arg[i]);
    }
    assert r == "fireworks";
  }

  datatype View = BalloonsView | FireworksView | SnowView | CupcakeView | CampfireView | FeatherView
                | BeerView | LeavesView | RainbowView | PixelsView | GalaxyView

  /** launchEffect's switch: the view shown for the effect. */
  function ViewOf(e: EffectType): (v: View)
    ensures ShownEffect(v) == e
  {
    match e
    case Balloons => BalloonsView
    case Fireworks => FireworksView
    case Snow => SnowView
    case Cupcake => CupcakeView
    case Campfire => CampfireView
    case Feather => FeatherView
    case Beer => BeerView
    case Leaves => LeavesView
    case Rainbow => RainbowView
    case Pixels => PixelsView
    case Galaxy => GalaxyView
  }

  /** The effect a view animates. */
  function ShownEffect(v: View): EffectType {
    match v
    case BalloonsView => Balloons
    case FireworksView => Fireworks
    case SnowView => Snow
    case CupcakeView => Cupcake
    case CampfireView => Campfire
    case FeatherView => Feather
    case BeerView => Beer
    case LeavesView => Leaves
    case RainbowView => Rainbow
    case PixelsView => Pixels
    case GalaxyView => Galaxy
  }

  /** launchEffect's switch: how many seconds the overlay stays up. */
  function Duration(e: EffectType): (seconds: nat)
    ensures 6 <= seconds <= 25
    ensures seconds == 25 <==> e == Feather
    ensures seconds == 6 <==> e == Beer
  {
    match e
    case Balloons => 12
    case Fireworks => 8
    case Snow => 10
    case Cupcake => 8
    case Campfire => 10
    case Feather => 25
    case Beer => 6
    case Leaves => 12
    case Rainbow => 8
    case Pixels => 8
    case Galaxy => 8
  }

  /** Every effect has its own view. */
  lemma ViewOfInjective(a: EffectType, b: EffectType)
    ensures ViewOf(a) == ViewOf(b) <==> a == b
  {
  }
}
