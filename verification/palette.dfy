/** Colour helpers for the charts: the repeating purple / green / gold bar
    pattern and the border colour of a bar. */
module Palette {
  import opened Objects

  /** The bead colours used for visualisation, colour name to hex code. */
  const BeadColors: Entries<string> := [
    ("purple", "#8B5FBF"), ("green", "#3CB371"), ("gold", "#FDB927"),
    ("red", "#DC143C"), ("blue", "#4169E1"), ("pink", "#FF69B4"),
    ("white", "#F5F5F5"), ("orange", "#FF8C00"), ("black", "#2F4F4F"),
    ("silver", "#C0C0C0"), ("glass", "#E0F7FA"), ("lightup", "#FFD700"),
    ("medallion", "#DAA520"), ("special", "#9C27B0")]

  const ChartPurple: string := "#5E2C89"
  const ChartGreen: string := "#00873D"
  const ChartGold: string := "#D4AF37"

  /** The three theme colours in the order the pattern repeats them. */
  const Pattern: seq<string> := [ChartPurple, ChartGreen, ChartGold]

  /** Background colours light enough to need a dark border. */
  const LightColors: seq<string> := ["#F5F5F5", "#C0C0C0", "#E0F7FA", "#FFD700", "#FDB927"]

  const DarkBorder: string := "#333333"

  /** One colour per bar: purple, green, gold, purple, ... (none for a count of 0 or less). */
  method GenerateColorPattern(count: int) returns (colors: seq<string>)
    ensures |colors| == if count > 0 then count else 0
    ensures forall i :: 0 <= i < |colors| ==> colors[i] == Pattern[i % 3]
  {
    colors := [];
    var i := 0;
    while i < count
      invariant 0 <= i && (count > 0 ==> i <= count) && (count <= 0 ==> i == 0)
      invariant |colors| == i
      invariant forall j :: 0 <= j < i ==> colors[j] == Pattern[j % 3]
    {
      colors := colors + [Pattern[i % 3]];
      i := i + 1;
    }
  }

  /** The border of a bar: dark grey for the light colours, otherwise the
      bar's own colour. */
  function GetBorderColor(background: string): (border: string)
    ensures background in LightColors ==> border == DarkBorder
    ensures background !in LightColors ==> border == background
  {
    if background in LightColors then DarkBorder else background
  }

  /** Applying the border rule to its own result changes nothing. */
  lemma BorderIdempotent(background: string)
    ensures GetBorderColor(GetBorderColor(background)) == GetBorderColor(background)
  {
    assert DarkBorder !in LightColors;
  }

  /** Among the bead colours, exactly white, silver, glass, light-up and gold
      get the dark border; every other bead colour is its own border. */
  lemma BeadColorBorders()
    ensures forall i :: 0 <= i < |BeadColors| ==>
      (GetBorderColor(BeadColors[i].1) == DarkBorder <==> BeadColors[i].0 in ["white", "silver", "glass", "lightup", "gold"])
  {
    forall i | 0 <= i < |BeadColors|
      ensures GetBorderColor(BeadColors[i].1) == DarkBorder <==> BeadColors[i].0 in ["white", "silver", "glass", "lightup", "gold"]
    {
      assert BeadColors[i].1 != DarkBorder;
    }
  }
}
