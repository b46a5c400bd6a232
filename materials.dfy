/**
 * The selection and hover highlight every component's getMaterialProps
 * computes for a part, with the heating glow of the espresso machine's group
 * head and the moka pot's boiler.
 */
module Materials {
  import opened Wrappers

  /** Roughness and metalness, for the components whose getMaterialProps sets them. */
  datatype Finish = Finish(roughness: real, metalness: real)

  datatype Material = Material(color: string, emissive: string, emissiveIntensity: real, finish: Option<Finish>)

  const SelectedColor: string := "#ff9f1c"
  const HoverColor: string := "#ffffff"
  const SelectedGlow: string := "#552200"
  const NoGlow: string := "#000000"
  const HeatGlow: string := "#ff4400"

  /**
   * The material of `part`: the colour prefers selected over hovered over
   * the component's `base` colour; the part glows hot while `heating`,
   * whatever its selection, faintly while selected, and not at all otherwise.
   */
  function Highlight(part: string, selected: Option<string>, hovered: Option<string>,
                     base: string, finish: Option<Finish>, heating: bool): (m: Material)
    ensures selected == Some(part) ==> m.color == SelectedColor
    ensures selected != Some(part) && hovered == Some(part) ==> m.color == HoverColor
    ensures selected != Some(part) && hovered != Some(part) ==> m.color == base
    ensures m.emissiveIntensity > 0.0 <==> heating || selected == Some(part)
    ensures m.emissive == HeatGlow <==> heating
    ensures m.emissive == SelectedGlow <==> !heating && selected == Some(part)
    ensures heating ==> m.emissiveIntensity == 2.0
    ensures !heating && selected == Some(part) ==> m.emissiveIntensity == 0.5
    ensures m.finish == finish
  {
    var isSelected := selected == Some(part);
    var isHovered := hovered == Some(part);
    Material(
      if isSelected then SelectedColor else if isHovered then HoverColor else base,
      if heating then HeatGlow else if isSelected then SelectedGlow else NoGlow,
      if heating then 2.0 else if isSelected then 0.5 else 0.0,
      finish)
  }
}
