/** The design-token tables and their lookups: `getColor` walks a dotted path through the
    colour palette of a mode, `getSpacing` reads the spacing scale of a density. */
module DesignTokens {
  import opened Wrappers
  import opened JsString

  /** A token table: a string leaf, or an object whose properties are further tokens. */
  datatype Token = Leaf(value: string) | Node(children: map<string, Token>)

  datatype ColorMode = Light | Dark
  datatype DensityMode = Comfortable | Compact

  /** A ten-step colour scale keyed "50", "100", ... "900". */
  function Scale(c50: string, c100: string, c200: string, c300: string, c400: string,
                 c500: string, c600: string, c700: string, c800: string, c900: string): Token {
    Node(map["50" := Leaf(c50), "100" := Leaf(c100), "200" := Leaf(c200), "300" := Leaf(c300),
             "400" := Leaf(c400), "500" := Leaf(c500), "600" := Leaf(c600), "700" := Leaf(c700),
             "800" := Leaf(c800), "900" := Leaf(c900)])
  }

  const LightPrimary := Scale("#EEF2FF", "#E0E7FF", "#C7D2FE", "#A5B4FC", "#818CF8", "#6366F1", "#4F46E5", "#4338CA", "#3730A3", "#312E81")
  const LightSecondary := Scale("#ECFDF5", "#D1FAE5", "#A7F3D0", "#6EE7B7", "#34D399", "#10B981", "#059669", "#047857", "#065F46", "#064E3B")
  const LightAccent := Scale("#FFFBEB", "#FEF3C7", "#FDE68A", "#FCD34D", "#FBBF24", "#F59E0B", "#D97706", "#B45309", "#92400E", "#78350F")
  const LightNeutral := Scale("#F8FAFC", "#F1F5F9", "#E2E8F0", "#CBD5E1", "#94A3B8", "#64748B", "#475569", "#334155", "#1E293B", "#0F172A")

  const DarkPrimary := Scale("#312E81", "#3730A3", "#4338CA", "#4F46E5", "#6366F1", "#818CF8", "#A5B4FC", "#C7D2FE", "#E0E7FF", "#EEF2FF")
  const DarkSecondary := Scale("#064E3B", "#065F46", "#047857", "#059669", "#10B981", "#34D399", "#6EE7B7", "#A7F3D0", "#D1FAE5", "#ECFDF5")
  const DarkAccent := Scale("#78350F", "#92400E", "#B45309", "#D97706", "#F59E0B", "#FBBF24", "#FCD34D", "#FDE68A", "#FEF3C7", "#FFFBEB")
  const DarkNeutral := Scale("#0F172A", "#1E293B", "#334155", "#475569", "#64748B", "#94A3B8", "#CBD5E1", "#E2E8F0", "#F1F5F9", "#F8FAFC")

  /** `designTokens.colors.light`. */
  const LightColors := Node(map[
    "primary" := LightPrimary,
    "secondary" := LightSecondary,
    "accent" := LightAccent,
    "success" := Leaf("#10B981"),
    "warning" := Leaf("#F59E0B"),
    "error" := Leaf("#EF4444"),
    "info" := Leaf("#3B82F6"),
    "neutral" := LightNeutral,
    "background" := Node(map["primary" := Leaf("#FFFFFF"), "secondary" := Leaf("#F8FAFC"), "tertiary" := Leaf("#F1F5F9")]),
    "text" := Node(map["primary" := Leaf("#0F172A"), "secondary" := Leaf("#475569"), "tertiary" := Leaf("#94A3B8"), "inverse" := Leaf("#FFFFFF")]),
    "border" := Node(map["default" := Leaf("#E2E8F0"), "light" := Leaf("#F1F5F9"), "medium" := Leaf("#CBD5E1"), "dark" := Leaf("#94A3B8")])])

  /** `designTokens.colors.dark`. */
  const DarkColors := Node(map[
    "primary" := DarkPrimary,
    "secondary" := DarkSecondary,
    "accent" := DarkAccent,
    "success" := Leaf("#34D399"),
    "warning" := Leaf("#FBBF24"),
    "error" := Leaf("#F87171"),
    "info" := Leaf("#60A5FA"),
    "neutral" := DarkNeutral,
    "background" := Node(map["primary" := Leaf("#0F172A"), "secondary" := Leaf("#1E293B"), "tertiary" := Leaf("#334155")]),
    "text" := Node(map["primary" := Leaf("#F8FAFC"), "secondary" := Leaf("#CBD5E1"), "tertiary" := Leaf("#94A3B8"), "inverse" := Leaf("#0F172A")]),
    "border" := Node(map["default" := Leaf("#334155"), "light" := Leaf("#1E293B"), "medium" := Leaf("#475569"), "dark" := Leaf("#64748B")])])

  /** `designTokens.colors[mode]`. */
  function Palette(mode: ColorMode): Token {
    match mode
    case Light => LightColors
    case Dark => DarkColors
  }

  /** The colour `getColor` answers with when a path is not found. */
  function Fallback(mode: ColorMode): string {
    if mode == Light then "#000000" else "#FFFFFF"
  }

  /** `current[part]`: a property of an object; a leaf has none. */
  function Child(t: Token, part: string): Option<Token> {
    match t
    case Leaf(_) => None
    case Node(children) => if part in children then Some(children[part]) else None
  }

  /** The token reached by following `parts` from `t`, one property per part, left to right. */
  function Walk(t: Token, parts: seq<string>): Option<Token>
    decreases |parts|
  {
    if parts == [] then Some(t)
    else
      match Child(t, parts[0])
      case None => None
      case Some(c) => Walk(c, parts[1..])
  }

  /** The colour `getColor(colorPath, mode)` returns, as the walk over the dotted path defines it. */
  function ColorAt(colorPath: string, mode: ColorMode): Token {
    Walk(Palette(mode), Split(colorPath, '.')).GetOr(Leaf(Fallback(mode)))
  }

  /** `getColor`: split the path on dots and step into the palette one part at a time,
      answering with the mode's fallback colour as soon as a part is missing. */
  method GetColor(colorPath: string, mode: ColorMode := Light) returns (r: Token)
    ensures Walk(Palette(mode), Split(colorPath, '.')).Some? ==> Walk(Palette(mode), Split(colorPath, '.')) == Some(r)
    ensures Walk(Palette(mode), Split(colorPath, '.')).None? ==> r == Leaf(Fallback(mode))
  {
    var parts := Split(colorPath, '.');
    var current := Palette(mode);
    var i := 0;
    while i < |parts|
      invariant 0 <= i <= |parts|
      invariant Walk(Palette(mode), parts) == Walk(current, parts[i..])
    {
      var next := Child(current, parts[i]);
      if next.None? {
        return Leaf(Fallback(mode));
      }
      assert parts[i..][1..] == parts[i + 1..];
      current := next.value;
      i := i + 1;
    }
    r := current;
  }

  lemma WalkPair(t: Token, a: string, b: string)
    ensures Walk(t, [a, b]) == match Child(t, a) case None => None case Some(c) => Child(c, b)
  {
    assert [a, b][1..] == [b];
    assert [b][1..] == [];
    match Child(t, a)
    case None =>
    case Some(c) =>
      match Child(c, b)
      case None =>
      case Some(d) => assert Walk(d, []) == Some(d);
  }

  /** A dotted path of two dot-free parts walks those two parts. */
  lemma ColorAtPair(scale: string, shade: string, mode: ColorMode)
    requires '.' !in scale && '.' !in shade
    ensures ColorAt(scale + "." + shade, mode) ==
      (match Child(Palette(mode), scale) case None => None case Some(c) => Child(c, shade)).GetOr(Leaf(Fallback(mode)))
  {
    assert scale + "." + shade == Join([scale, shade], '.');
    SplitJoin([scale, shade], '.');
    WalkPair(Palette(mode), scale, shade);
  }

  /** A path that stops at a leaf of the palette gives that leaf's colour. */
  lemma LightPrimaryExample()
    ensures ColorAt("primary.500", Light) == Leaf("#6366F1")
  {
    assert "primary" + "." + "500" == "primary.500";
    ColorAtPair("primary", "500", Light);
    assert Child(LightColors, "primary") == Some(LightPrimary);
    assert Child(LightPrimary, "500") == Some(Leaf("#6366F1"));
  }

  lemma DarkPrimaryExample()
    ensures ColorAt("primary.500", Dark) == Leaf("#818CF8")
  {
    assert "primary" + "." + "500" == "primary.500";
    ColorAtPair("primary", "500", Dark);
    assert Child(DarkColors, "primary") == Some(DarkPrimary);
    assert Child(DarkPrimary, "500") == Some(Leaf("#818CF8"));
  }

  /** A walk that reaches a token lacking the next part stops there with nothing. */
  lemma {:induction false} WalkMissing(t: Token, parts: seq<string>, i: nat)
    requires i < |parts|
    requires Walk(t, parts[..i]).Some?
    requires Child(Walk(t, parts[..i]).value, parts[i]).None?
    ensures Walk(t, parts).None?
    decreases i
  {
    if i > 0 {
      assert parts[..i][0] == parts[0];
      assert parts[..i][1..] == parts[1..][..i - 1];
      var c := Child(t, parts[0]).value;
      WalkMissing(c, parts[1..], i - 1);
    }
  }

  /** A path with a part missing from the palette gives the mode's fallback colour. */
  lemma MissingPartFallsBack(colorPath: string, mode: ColorMode, i: nat)
    requires i < |Split(colorPath, '.')|
    requires Walk(Palette(mode), Split(colorPath, '.')[..i]).Some?
    requires Child(Walk(Palette(mode), Split(colorPath, '.')[..i]).value, Split(colorPath, '.')[i]).None?
    ensures ColorAt(colorPath, mode) == Leaf(Fallback(mode))
  {
    WalkMissing(Palette(mode), Split(colorPath, '.'), i);
  }

  /** The spacing sizes, `keyof typeof designTokens.spacing.comfortable`. */
  datatype SpacingSize = Xs | Sm | Md | Lg | Xl | Xl2 | Xl3 | Xl4

  function SizeKey(size: SpacingSize): string {
    match size
    case Xs => "xs" case Sm => "sm" case Md => "md" case Lg => "lg"
    case Xl => "xl" case Xl2 => "2xl" case Xl3 => "3xl" case Xl4 => "4xl"
  }

  function DensityKey(density: DensityMode): string {
    if density == Comfortable then "comfortable" else "compact"
  }

  /** `designTokens.spacing`. */
  const Spacing := Node(map[
    "comfortable" := Node(map["xs" := Leaf("4px"), "sm" := Leaf("8px"), "md" := Leaf("12px"), "lg" := Leaf("16px"),
                              "xl" := Leaf("24px"), "2xl" := Leaf("32px"), "3xl" := Leaf("48px"), "4xl" := Leaf("64px")]),
    "compact" := Node(map["xs" := Leaf("2px"), "sm" := Leaf("4px"), "md" := Leaf("8px"), "lg" := Leaf("12px"),
                          "xl" := Leaf("16px"), "2xl" := Leaf("24px"), "3xl" := Leaf("32px"), "4xl" := Leaf("48px")])])

  /** `getSpacing(size, density)`: the entry `spacing[density][size]`. */
  function GetSpacing(size: SpacingSize, density: DensityMode := Comfortable): (r: string)
    ensures Walk(Spacing, [DensityKey(density), SizeKey(size)]) == Some(Leaf(r))
  {
    WalkPair(Spacing, DensityKey(density), SizeKey(size));
    Spacing.children[DensityKey(density)].children[SizeKey(size)].value
  }

  /** The next smaller size. */
  function Smaller(size: SpacingSize): SpacingSize
    requires size != Xs
  {
    match size
    case Sm => Xs case Md => Sm case Lg => Md case Xl => Lg
    case Xl2 => Xl case Xl3 => Xl2 case Xl4 => Xl3
  }

  /** The compact scale is the comfortable one shifted down by a step. */
  lemma CompactIsOneStepSmaller(size: SpacingSize)
    requires size != Xs
    ensures GetSpacing(size, Compact) == GetSpacing(Smaller(size))
  {
  }

  /** `tailwindColors`: the light-mode primary, secondary, accent and neutral scales. */
  function TailwindColors(): (t: Token)
    ensures t.Node? && t.children.Keys == {"primary", "secondary", "accent", "neutral"}
    ensures forall scale :: scale in t.children ==> Child(LightColors, scale) == Some(t.children[scale])
  {
    Node(map["primary" := LightPrimary, "secondary" := LightSecondary, "accent" := LightAccent, "neutral" := LightNeutral])
  }

  /** Every Tailwind colour `scale-shade` is what `getColor("scale.shade")` gives in light mode. */
  lemma TailwindAgreesWithGetColor(scale: string, shade: string)
    requires scale in TailwindColors().children
    requires '.' !in shade
    ensures Walk(TailwindColors(), [scale, shade]).Some? ==>
      ColorAt(scale + "." + shade, Light) == Walk(TailwindColors(), [scale, shade]).value
  {
    assert '.' !in scale;
    ColorAtPair(scale, shade, Light);
    WalkPair(TailwindColors(), scale, shade);
  }
}
