/** Game enumerations and rows shared by several tasks. */
module Entities {

  import opened Engine

  /** The XPath of an element the browser is asked to click. */
  type XPath = string

  /** `BuildingEnums`: the building types the core looks at by name; every
      other type is `OtherBuilding`. */
  datatype BuildingType =
    | Site
    | RallyPoint
    | Barracks
    | Stable
    | Workshop
    | OtherBuilding(code: int)

  /** `VillageSettingEnums`: the per-village settings the core writes. */
  datatype VillageSettingName =
    | BarrackTroop
    | StableTroop
    | WorkshopTroop
    | TrainTroopRepeatTimeMin
    | TrainTroopRepeatTimeMax

  /** A row of the village-buildings table, keyed by (village, slot id). */
  datatype BuildingRow = BuildingRow(villageId: VillageId, id: int, buildingType: BuildingType, level: int,
                                     isUnderConstruction: bool)
}
