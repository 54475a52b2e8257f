/** Fixed game data: the six battlefield positions and the template every new trooper starts from. */
module Config {

  datatype PositionDef = PositionDef(colorClass: string, modifier: string)

  const PositionDefs: map<string, PositionDef> := map[
    "Flanking" := PositionDef("green", "+1d6 when Firing"),
    "Engaged" := PositionDef("yellow", ""),
    "Limited" := PositionDef("red", "-1d6 when Firing"),
    "Fortified" := PositionDef("green", "Injury on 1"),
    "In Cover" := PositionDef("yellow", "Injury on 1-2"),
    "Flanked" := PositionDef("red", "Injury on 1-3")
  ]

  /**
   * The fields a new trooper takes from the template. The template has no id, ammunition,
   * positions or counter fields: those come from creation or stay absent.
   */
  datatype Template = Template(name: string, status: string, gear: string,
                               gritCurrent: int, gritMax: int, notes: string, isActive: bool)

  const DefaultTrooperTemplate := Template("New Trooper", "OK", "assault_rifle, medium_armor", 1, 1, "", true)

  /** Exactly six positions: three offensive and three defensive. */
  lemma SixPositions()
    ensures PositionDefs.Keys == {"Flanking", "Engaged", "Limited", "Fortified", "In Cover", "Flanked"}
    ensures |PositionDefs| == 6
  {
    var names := ["Flanking", "Engaged", "Limited", "Fortified", "In Cover", "Flanked"];
    assert forall i, j :: 0 <= i < j < |names| ==> names[i] != names[j];
    assert |{"Flanking", "Engaged", "Limited", "Fortified", "In Cover", "Flanked"}| == 6;
  }

  /** The template starts at full grit with 0 <= gritCurrent <= gritMax, status OK, no notes, deployed. */
  lemma TemplateDefaults()
    ensures 0 <= DefaultTrooperTemplate.gritCurrent <= DefaultTrooperTemplate.gritMax
    ensures DefaultTrooperTemplate.gritCurrent == DefaultTrooperTemplate.gritMax == 1
    ensures DefaultTrooperTemplate.status == "OK" && DefaultTrooperTemplate.notes == ""
    ensures DefaultTrooperTemplate.isActive
  {
  }
}
