/**
 * The top-level scene (frontend/src/components/Scene.tsx): the state its
 * buttons and callbacks update, which equipment component is mounted, and
 * the lookup tables behind the equipment name, the radar chart, its
 * glossary and the part information panel.
 */
module Scene {
  import opened Wrappers

  /** The six pieces of equipment the scene can show (EquipmentType). */
  datatype Equipment = Moka | Espresso | Grinder | HandGrinder | FrenchPress | Aeropress

  /** The dropdown's label for each piece of equipment. */
  function EquipmentName(e: Equipment): (name: string)
    ensures name != ""
  {
    match e
    case Moka => "Moka Pot"
    case Espresso => "Espresso Machine"
    case Grinder => "Burr Grinder"
    case HandGrinder => "Hand Grinder"
    case FrenchPress => "French Press"
    case Aeropress => "AeroPress"
  }

  /** No two pieces of equipment share a label, so the dropdown tells them apart. */
  lemma NamesDistinct(a: Equipment, b: Equipment)
    requires a != b
    ensures EquipmentName(a) != EquipmentName(b)
  {
    match a
    case Moka => assert EquipmentName(a)[0] == 'M';
    case Espresso => assert EquipmentName(a)[0] == 'E';
    case Grinder => assert EquipmentName(a)[0] == 'B';
    case HandGrinder => assert EquipmentName(a)[0] == 'H';
    case FrenchPress => assert EquipmentName(a)[0] == 'F';
    case Aeropress => assert EquipmentName(a)[0] == 'A';
  }

  // -----------------------------------------------------------------------
  // Radar chart and glossary.

  /** One axis of the radar chart. */
  datatype Metric = Metric(name: string, value: int, fullMark: int)

  /** One glossary entry under the chart. */
  datatype Term = Term(term: string, definition: string)

  /** Whether the equipment is a grinder, whose chart and glossary rate the grind rather than the cup. */
  predicate IsGrinder(e: Equipment)
  {
    e == Grinder || e == HandGrinder
  }

  /** The five axes of a chart, each rated out of 100. */
  function Axes(labels: seq<string>, values: seq<int>): (d: seq<Metric>)
    requires |labels| == |values|
    ensures |d| == |labels|
    ensures forall i | 0 <= i < |d| :: d[i] == Metric(labels[i], values[i], 100)
  {
    seq(|labels|, i requires 0 <= i < |labels| => Metric(labels[i], values[i], 100))
  }

  const CupLabels: seq<string> := ["Body", "Acidity", "Complexity", "Clarity", "Sweetness"]
  const GrindLabels: seq<string> := ["Uniformity", "Speed", "Heat", "Workflow", "Value"]

  /** getPerformanceData: five ratings per piece of equipment, each between 0 and the full mark of 100. */
  function PerformanceData(e: Equipment): (d: seq<Metric>)
    ensures |d| == 5
    ensures forall i | 0 <= i < 5 :: d[i].fullMark == 100 && 0 <= d[i].value <= d[i].fullMark
    ensures forall i | 0 <= i < 5 :: d[i].name == (if IsGrinder(e) then GrindLabels else CupLabels)[i]
  {
    match e
    case Moka => Axes(CupLabels, [90, 30, 50, 40, 60])
    case Espresso => Axes(CupLabels, [100, 60, 80, 50, 70])
    case FrenchPress => Axes(CupLabels, [90, 40, 60, 30, 60])
    case Aeropress => Axes(CupLabels, [60, 70, 70, 80, 70])
    case Grinder => Axes(GrindLabels, [90, 80, 90, 85, 70])
    case HandGrinder => Axes(GrindLabels, [85, 40, 100, 60, 90])
  }

  /** getGlossary: the grinder terms for both grinders, the flavour terms for every brewer. */
  function Glossary(e: Equipment): (g: seq<Term>)
    ensures |g| == 5
    ensures forall i | 0 <= i < 5 :: g[i].term == (if IsGrinder(e) then GrindLabels else CupLabels)[i] && g[i].definition != ""
  {
    if IsGrinder(e) then
      [ Term("Uniformity", "Consistency of particle size"),
        Term("Speed", "Grinding rate (g/sec)"),
        Term("Heat", "Heat generation during grinding"),
        Term("Workflow", "Ease of use and cleaning"),
        Term("Value", "Performance to price ratio") ]
    else
      [ Term("Body", "Physical weight/texture in mouth"),
        Term("Acidity", "Bright, lively, tangy sensation"),
        Term("Complexity", "Layering of different flavors"),
        Term("Clarity", "Ability to distinguish flavors"),
        Term("Sweetness", "Perceived sugary/fruity notes") ]
  }

  /** Every chart axis is explained by the glossary entry in the same position, for every piece of equipment. */
  lemma ChartMatchesGlossary(e: Equipment)
    ensures |PerformanceData(e)| == |Glossary(e)|
    ensures forall i | 0 <= i < |Glossary(e)| :: PerformanceData(e)[i].name == Glossary(e)[i].term
  {
    var d, g := PerformanceData(e), Glossary(e);
    forall i | 0 <= i < 5
      ensures d[i].name == g[i].term
    {
    }
  }

  // -----------------------------------------------------------------------
  // Part information panel.

  const DefaultDescription: string := "Select a part to learn more."

  /** The parts with a description of their own that does not depend on the equipment. */
  datatype Part =
    | Boiler | FilterFunnel | CollectionChamber | Spout | MainBody
    | GroupHead | Portafilter | DripTray | WaterTank | SteamWand
    | GrinderBody | BeanHopper | AdjustmentCollar | Chute | GroundsBin
    | CatchBin | Base | HandGrinderBody | CrankHandle | HopperLid
    | Knob | CatchCup | PlungerKnob | FilterAssembly | FilterMesh
    | GlassBeaker | Frame | Plunger | RubberSeal | Chamber
    | FilterCap | PaperFilter

  /** The switch's cases other than the shared names: which part, if any, a name denotes. */
  function Entry(part: string): Option<Part>
  {
    match part
    // Moka pot
    case "Boiler" => Some(Boiler)
    case "Filter Funnel" => Some(FilterFunnel)
    case "Collection Chamber" => Some(CollectionChamber)
    case "Spout" => Some(Spout)
    // Espresso machine
    case "Main Body" => Some(MainBody)
    case "Group Head" => Some(GroupHead)
    case "Portafilter" => Some(Portafilter)
    case "Drip Tray" => Some(DripTray)
    case "Water Tank" => Some(WaterTank)
    case "Steam Wand" => Some(SteamWand)
    // Burr grinder
    case "Grinder Body" => Some(GrinderBody)
    case "Bean Hopper" => Some(BeanHopper)
    case "Adjustment Collar" => Some(AdjustmentCollar)
    case "Chute" => Some(Chute)
    case "Grounds Bin" => Some(GroundsBin)
    case "Catch Bin" => Some(CatchBin)
    case "Base" => Some(Base)
    // Hand grinder
    case "Hand Grinder Body" => Some(HandGrinderBody)
    case "Crank Handle" => Some(CrankHandle)
    case "Hopper Lid" => Some(HopperLid)
    case "Knob" => Some(Knob)
    case "Catch Cup" => Some(CatchCup)
    // French press
    case "Plunger Knob" => Some(PlungerKnob)
    case "Filter Assembly" => Some(FilterAssembly)
    case "Filter Mesh" => Some(FilterMesh)
    case "Glass Beaker" => Some(GlassBeaker)
    case "Frame" => Some(Frame)
    // AeroPress
    case "Plunger" => Some(Plunger)
    case "Rubber Seal" => Some(RubberSeal)
    case "Chamber" => Some(Chamber)
    case "Filter Cap" => Some(FilterCap)
    case "Paper Filter" => Some(PaperFilter)
    case _ => None
  }

  /** Each part's own description. */
  function Text(p: Part): string
  {
    match p
    // Moka pot
    case Boiler => "The bottom chamber that holds the water. When heated, pressure builds up here, forcing boiling water up through the coffee grounds."
    case FilterFunnel => "Holds the ground coffee. It sits inside the boiler. As water boils, it passes through this funnel, extracting the coffee flavors."
    case CollectionChamber => "The top chamber where the brewed coffee ends up. It has a central column that the coffee spills out of."
    case Spout => "The V-shaped lip that ensures a smooth, drip-free pour of your delicious espresso-like coffee."
    // Espresso machine
    case MainBody => "The housing that contains the boiler, pump, and electronics. It provides stability and style to the machine."
    case GroupHead => "The component where the portafilter locks in. Hot water is dispersed from here through the coffee puck."
    case Portafilter => "The handle and basket assembly that holds the ground coffee. It locks into the group head for brewing."
    case DripTray => "Catches any spilled water or coffee. It needs to be emptied and cleaned regularly."
    case WaterTank => "Reservoir holding fresh water. It can be removable or plumbed directly into a water line."
    case SteamWand => "Used to steam and froth milk for cappuccinos and lattes. Be careful, it gets very hot!"
    // Burr grinder
    case GrinderBody => "Houses the motor and electronics. Heavy construction helps reduce vibration during grinding."
    case BeanHopper => "Holds the whole coffee beans before they are ground. Usually made of clear plastic to see the bean level."
    case AdjustmentCollar => "Allows you to change the grind size by moving the burrs closer together (finer) or further apart (coarser)."
    case Chute => "Directs the ground coffee from the burr chamber into the catch bin or portafilter."
    case GroundsBin => "Collects the ground coffee. Some grinders dispense directly into a portafilter instead."
    case CatchBin => "Collects the ground coffee. Some grinders dispense directly into a portafilter instead."
    case Base => "Provides a stable foundation for the grinder, often with rubber feet to prevent slipping."
    // Hand grinder
    case HandGrinderBody => "The main cylindrical body that houses the burr set. It's designed to be held firmly in one hand while grinding."
    case CrankHandle => "The lever arm that provides the mechanical advantage needed to rotate the burrs and crush the coffee beans manually."
    case HopperLid => "Keeps the beans from popping out while you grind. Essential for vigorous grinding sessions!"
    case Knob => "The ergonomic grip at the end of the handle. It spins freely to allow for smooth, continuous rotation."
    case CatchCup => "The bottom container that collects the ground coffee. It screws or magnetically attaches to the body."
    // French press
    case PlungerKnob => "Allows you to push the plunger down safely and comfortably after the coffee has steeped."
    case FilterAssembly => "The heart of the press. It pushes the grounds to the bottom while letting oils and water through."
    case FilterMesh => "A fine metal screen that traps coffee grounds but allows natural oils to pass, creating a full-bodied brew."
    case GlassBeaker => "Heat-resistant borosilicate glass vessel where the coffee steeps (immerses) in hot water."
    case Frame => "Protects the fragile glass beaker and provides a sturdy base and handle."
    // AeroPress
    case Plunger => "The inner cylinder that you push down. It creates air pressure to force water through the coffee."
    case RubberSeal => "Creates an airtight seal against the chamber walls, generating the pressure needed for rapid extraction."
    case Chamber => "Holds the coffee and water. The hexagonal flange rests on your mug during pressing."
    case FilterCap => "The perforated cap that holds the paper filter and screws securely onto the bottom of the chamber."
    case PaperFilter => "Removes almost all sediment and oils, resulting in a very clean, smooth, and sediment-free cup."
  }

  const MokaLid: string := "Keeps the coffee from splattering while brewing and maintains the temperature. Always keep it down during brewing!"
  const PressLid: string := "Covers the beaker to retain heat and keeps the plunger rod aligned vertically."
  const GenericLid: string := "A cover for the equipment."
  const MokaHandle: string := "Made of heat-resistant material (historically Bakelite), allowing you to pour the hot coffee safely without burning your hand."
  const PressHandle: string := "Keeps your hand safe from the hot glass while pouring your brew."
  const GenericHandle: string := "A handle for holding or operating the equipment."

  /**
   * getPartDescription: 'Lid' and 'Handle' are shared names whose text
   * depends on the equipment (its own for the moka pot and the French
   * press, a generic one otherwise); every other known part has one text;
   * an unknown part gets the invitation to pick one.
   */
  function PartDescription(part: string, e: Equipment): (d: string)
    ensures part == "Lid" ==> d == (if e == Moka then MokaLid else if e == FrenchPress then PressLid else GenericLid)
    ensures part == "Handle" ==> d == (if e == Moka then MokaHandle else if e == FrenchPress then PressHandle else GenericHandle)
    ensures part != "Lid" && part != "Handle" && Entry(part).Some? ==> d == Text(Entry(part).value)
    ensures part != "Lid" && part != "Handle" && Entry(part).None? ==> d == DefaultDescription
  {
    if part == "Lid" then
      if e == Moka then MokaLid else if e == FrenchPress then PressLid else GenericLid
    else if part == "Handle" then
      if e == Moka then MokaHandle else if e == FrenchPress then PressHandle else GenericHandle
    else match Entry(part)
      case Some(p) => Text(p)
      case None => DefaultDescription
  }

  /** Only 'Lid' and 'Handle' are described differently for different equipment. */
  lemma OnlySharedNamesVary(part: string, a: Equipment, b: Equipment)
    ensures PartDescription(part, a) != PartDescription(part, b) ==> part == "Lid" || part == "Handle"
    ensures part == "Lid" ==> PartDescription(part, Moka) != PartDescription(part, FrenchPress)
    ensures part == "Handle" ==> PartDescription(part, Moka) != PartDescription(part, FrenchPress)
  {
    if part == "Lid" {
      assert |MokaLid| != |PressLid|;
    } else if part == "Handle" {
      assert |MokaHandle| != |PressHandle|;
    }
  }

  /** The names each component passes to its selection callback when a part is clicked. */
  function SelectableParts(e: Equipment): seq<string>
  {
    match e
    case Moka => ["Boiler", "Filter Funnel", "Collection Chamber", "Handle", "Spout", "Lid"]
    case Espresso => ["Main Body", "Group Head", "Portafilter", "Drip Tray", "Water Tank", "Steam Wand"]
    case Grinder => ["Grinder Body", "Bean Hopper", "Adjustment Collar", "Chute", "Grounds Bin", "Base"]
    case HandGrinder => ["Crank Handle", "Knob", "Hopper Lid", "Hand Grinder Body", "Catch Cup"]
    case FrenchPress => ["Plunger Knob", "Lid", "Filter Assembly", "Filter Mesh", "Glass Beaker", "Frame", "Handle"]
    case Aeropress => ["Plunger", "Rubber Seal", "Chamber", "Filter Cap", "Paper Filter"]
  }

  /**
   * Every part a visitor can click has a case of its own in the switch: a
   * shared name is clicked only on equipment that has its own text for it,
   * and any other name has an entry, so neither the generic texts nor the
   * default are ever shown for a clicked part.
   */
  lemma EveryPartDescribed(e: Equipment, i: nat)
    requires i < |SelectableParts(e)|
    ensures var part := SelectableParts(e)[i];
      if part == "Lid" || part == "Handle" then e == Moka || e == FrenchPress else Entry(part).Some?
  {
  }

  // -----------------------------------------------------------------------
  // Scene state and its handlers.

  /** The start button is disabled while a run is on, or for equipment outside its allow-list (none, all six are on it). */
  function StartDisabled(equipment: Equipment, isBrewing: bool): (disabled: bool)
    ensures disabled <==> isBrewing
  {
    isBrewing || (equipment != Moka && equipment != Espresso && equipment != Grinder
                  && equipment != HandGrinder && equipment != FrenchPress && equipment != Aeropress)
  }

  /** The status overlay shows while a run is on and there is a message (an empty string is falsy). */
  function StatusOverlayShown(isBrewing: bool, statusMessage: string): (shown: bool)
    ensures shown <==> isBrewing && |statusMessage| > 0
  {
    isBrewing && statusMessage != ""
  }

  /** The information panel shows while a part is selected (an empty name is falsy) and the panel has not been closed. */
  function InfoPanelShown(selectedPart: Option<string>, showInfo: bool): (shown: bool)
    ensures shown <==> selectedPart.Some? && |selectedPart.value| > 0 && showInfo
  {
    selectedPart.Some? && selectedPart.value != "" && showInfo
  }

  /** The scene's React state. */
  class SceneState {
    var exploded: bool
    var selectedPart: Option<string>
    var showInfo: bool
    var equipment: Equipment
    var isDropdownOpen: bool
    var isBrewing: bool
    var isDarkMode: bool
    var statusMessage: string

    /** The first render: the moka pot, assembled, nothing selected, the panel allowed, idle, dark, no message. */
    constructor ()
      ensures equipment == Moka && !exploded && selectedPart == None && showInfo
      ensures !isDropdownOpen && !isBrewing && isDarkMode && statusMessage == ""
      ensures !StatusOverlayShown(isBrewing, statusMessage) && !InfoPanelShown(selectedPart, showInfo)
    {
      exploded, selectedPart, showInfo, equipment := false, None, true, Moka;
      isDropdownOpen, isBrewing, isDarkMode, statusMessage := false, false, true, "";
    }

    /**
     * handleBrewComplete, passed to every component as its completion
     * callback: the run is over and the message becomes "Ready" -- which the
     * overlay therefore never shows.
     */
    method BrewComplete()
      modifies this
      ensures !isBrewing && statusMessage == "Ready"
      ensures !StatusOverlayShown(isBrewing, statusMessage)
      ensures exploded == old(exploded) && selectedPart == old(selectedPart) && showInfo == old(showInfo)
      ensures equipment == old(equipment) && isDropdownOpen == old(isDropdownOpen) && isDarkMode == old(isDarkMode)
    {
      isBrewing := false;
      statusMessage := "Ready";
    }

    /** onStatusChange, passed to every component: the latest status replaces the message. */
    method SetStatus(message: string)
      modifies this
      ensures statusMessage == message
      ensures StatusOverlayShown(isBrewing, statusMessage) <==> isBrewing && message != ""
      ensures exploded == old(exploded) && selectedPart == old(selectedPart) && showInfo == old(showInfo)
      ensures equipment == old(equipment) && isDropdownOpen == old(isDropdownOpen) && isBrewing == old(isBrewing)
      ensures isDarkMode == old(isDarkMode)
    {
      statusMessage := message;
    }

    /**
     * handleEquipmentChange: another piece of equipment is mounted, with
     * the selection cleared, the view assembled and the dropdown closed.
     * A run in progress is left on, so the new component starts its own.
     */
    method ChangeEquipment(e: Equipment)
      modifies this
      ensures equipment == e && selectedPart == None && !exploded && !isDropdownOpen
      ensures !InfoPanelShown(selectedPart, showInfo)
      ensures showInfo == old(showInfo) && isBrewing == old(isBrewing) && isDarkMode == old(isDarkMode)
      ensures statusMessage == old(statusMessage)
    {
      equipment := e;
      selectedPart := None;
      exploded := false;
      isDropdownOpen := false;
    }

    /** The start button: a click starts a run, unless the button is disabled, when nothing happens. */
    method PressStart()
      modifies this
      ensures isBrewing
      ensures !old(isBrewing) <==> !StartDisabled(old(equipment), old(isBrewing))
      ensures exploded == old(exploded) && selectedPart == old(selectedPart) && showInfo == old(showInfo)
      ensures equipment == old(equipment) && isDropdownOpen == old(isDropdownOpen) && isDarkMode == old(isDarkMode)
      ensures statusMessage == old(statusMessage)
    {
      if !StartDisabled(equipment, isBrewing) {
        isBrewing := true;
      }
    }

    /** A component's selection callback: the clicked part is selected and the panel is allowed again. */
    method SelectPart(part: string)
      modifies this
      ensures selectedPart == Some(part) && showInfo
      ensures InfoPanelShown(selectedPart, showInfo) <==> part != ""
      ensures exploded == old(exploded) && equipment == old(equipment) && isDropdownOpen == old(isDropdownOpen)
      ensures isBrewing == old(isBrewing) && isDarkMode == old(isDarkMode) && statusMessage == old(statusMessage)
    {
      selectedPart := Some(part);
      showInfo := true;
    }

    /** The reset button: no selection and the panel closed. */
    method ResetSelection()
      modifies this
      ensures selectedPart == None && !showInfo
      ensures !InfoPanelShown(selectedPart, showInfo)
      ensures exploded == old(exploded) && equipment == old(equipment) && isDropdownOpen == old(isDropdownOpen)
      ensures isBrewing == old(isBrewing) && isDarkMode == old(isDarkMode) && statusMessage == old(statusMessage)
    {
      selectedPart := None;
      showInfo := false;
    }

    /** The panel's close button: the panel hides, the selection stays. */
    method CloseInfo()
      modifies this
      ensures !showInfo && selectedPart == old(selectedPart)
      ensures !InfoPanelShown(selectedPart, showInfo)
      ensures exploded == old(exploded) && equipment == old(equipment) && isDropdownOpen == old(isDropdownOpen)
      ensures isBrewing == old(isBrewing) && isDarkMode == old(isDarkMode) && statusMessage == old(statusMessage)
    {
      showInfo := false;
    }

    /** The explode button flips between the assembled and exploded views. */
    method ToggleExplode()
      modifies this
      ensures exploded == !old(exploded)
      ensures selectedPart == old(selectedPart) && showInfo == old(showInfo) && equipment == old(equipment)
      ensures isDropdownOpen == old(isDropdownOpen) && isBrewing == old(isBrewing) && isDarkMode == old(isDarkMode)
      ensures statusMessage == old(statusMessage)
    {
      exploded := !exploded;
    }

    /** The equipment button opens or closes the dropdown. */
    method ToggleDropdown()
      modifies this
      ensures isDropdownOpen == !old(isDropdownOpen)
      ensures exploded == old(exploded) && selectedPart == old(selectedPart) && showInfo == old(showInfo)
      ensures equipment == old(equipment) && isBrewing == old(isBrewing) && isDarkMode == old(isDarkMode)
      ensures statusMessage == old(statusMessage)
    {
      isDropdownOpen := !isDropdownOpen;
    }

    /** The theme button switches between dark and light. */
    method ToggleTheme()
      modifies this
      ensures isDarkMode == !old(isDarkMode)
      ensures exploded == old(exploded) && selectedPart == old(selectedPart) && showInfo == old(showInfo)
      ensures equipment == old(equipment) && isDropdownOpen == old(isDropdownOpen) && isBrewing == old(isBrewing)
      ensures statusMessage == old(statusMessage)
    {
      isDarkMode := !isDarkMode;
    }
  }
}
