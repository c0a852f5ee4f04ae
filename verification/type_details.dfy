/** The static table that names and describes each DONKI notification type
    code. It is built once and only ever read. */
module TypeDetails {
  import opened Wrappers

  datatype TypeDetail = TypeDetail(fullName: string, description: string)

  /** The type codes the table has an entry for. */
  const KnownCodes: set<string> :=
    {"FLR", "SEP", "CME", "IPS", "MPC", "GST", "RBE", "HSS", "report", "all"}

  const Table: map<string, TypeDetail> := map[
    "FLR" := TypeDetail("Solar Flare", "An intense burst of radiation from the sun."),
    "SEP" := TypeDetail("Solar Energetic Particle", "High-energy particles emitted by the sun during solar events."),
    "CME" := TypeDetail("Coronal Mass Ejection", "A large expulsion of plasma and magnetic field from the sun's corona."),
    "IPS" := TypeDetail("Interplanetary Shock", "A shock wave caused by solar wind or coronal mass ejections."),
    "MPC" := TypeDetail("Magnetopause Crossing", "A crossing of the Earth's magnetopause boundary."),
    "GST" := TypeDetail("Geomagnetic Storm", "A disturbance in Earth's magnetosphere caused by solar wind."),
    "RBE" := TypeDetail("Radiation Belt Enhancement", "Increased particle density in Earth's radiation belts."),
    "HSS" := TypeDetail("High-Speed Stream", "A fast stream of solar wind originating from coronal holes."),
    "report" := TypeDetail("Report", "General space weather report or analysis."),
    "all" := TypeDetail("All Types", "Includes all types of space weather notifications.")
  ]

  /** The entry for a code, if the table has one. Every entry carries a
      non-empty name and description. */
  function Lookup(code: string): (r: Option<TypeDetail>)
    ensures r.Some? <==> code in KnownCodes
    ensures r.Some? ==> r.value.fullName != "" && r.value.description != ""
  {
    if code in Table then Some(Table[code]) else None
  }

  /** Every known code is an ASCII letter string: none is empty, none contains
      a comma, and none begins with a digit or a minus sign. */
  lemma KnownCodeShape(code: string)
    requires code in KnownCodes
    ensures code != ""
    ensures ',' !in code
    ensures code[0] != '-' && !('0' <= code[0] <= '9')
  {
  }
}
