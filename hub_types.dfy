/**
 * The data shared by the hub menu, its settings panel and the application
 * service (src/types.ts): hexagon colours, external application records and
 * the hub menu settings with their defaults.
 */
module HubTypes {
  import opened Wrappers

  datatype HexagonColor = Blue | Green | Red | Default

  datatype HexagonSize = Small | Medium | Large

  datatype LayoutStyle = Circular | Grid

  /** An application the hub can launch; `isCustom` marks the ones the user added. */
  datatype ExternalApplication = ExternalApplication(
    id: string,
    name: string,
    executablePath: string,
    arguments: Option<seq<string>>,
    workingDirectory: Option<string>,
    icon: Option<string>,
    color: Option<HexagonColor>,
    isCustom: bool)

  /** The hub menu's settings; the opacity is a fraction, the delay in milliseconds. */
  datatype HubMenuSettings = HubMenuSettings(
    availableColors: seq<HexagonColor>,
    preferredColors: seq<HexagonColor>,
    menuOpacity: real,
    autoHideDelay: int,
    enableColorCycling: bool,
    maxHexagons: int,
    showLabels: bool,
    hexagonSize: HexagonSize,
    layoutStyle: LayoutStyle,
    customApplications: seq<ExternalApplication>,
    enableDragAndDrop: bool)

  /**
   * The defaults, the same in the menu and in its settings panel: all four
   * colours available, blue, green and red preferred, opacity 0.8, a 300 ms
   * hide delay, colour cycling on, at most 19 hexagons, labels shown, medium
   * circular layout, no custom applications, drag and drop on.
   */
  function DefaultHubSettings(): HubMenuSettings
  {
    HubMenuSettings([Blue, Green, Red, Default], [Blue, Green, Red], 0.8, 300, true, 19, true,
                    Medium, Circular, [], true)
  }
}
