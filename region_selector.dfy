/**
 * The cascading state / district / block selector: each level's options
 * depend on the level above, and changing a level clears the levels below.
 */
module RegionSelector {

  /** The selected location; "" stands for "not chosen yet". */
  datatype Region = Region(state: string, district: string, block: string)

  const States: seq<string> := ["Maharashtra", "Karnataka", "Tamil Nadu", "Uttar Pradesh", "Gujarat"]

  /** The district options of each state. */
  const Districts: map<string, seq<string>> := map[
    "Maharashtra" := ["Pune", "Mumbai", "Nagpur", "Nashik", "Aurangabad", "Thane"],
    "Karnataka" := ["Bengaluru", "Mysuru", "Hubli", "Mangaluru", "Belagavi"],
    "Tamil Nadu" := ["Chennai", "Coimbatore", "Madurai", "Tiruchirappalli", "Salem"],
    "Uttar Pradesh" := ["Lucknow", "Kanpur", "Varanasi", "Agra", "Prayagraj"],
    "Gujarat" := ["Ahmedabad", "Surat", "Vadodara", "Rajkot", "Gandhinagar"]
  ]

  /** The block options of the districts that have any. */
  const Blocks: map<string, seq<string>> := map[
    "Pune" := ["Haveli", "Mulshi", "Baramati", "Indapur", "Bhor"],
    "Mumbai" := ["Mumbai City", "Mumbai Suburban"],
    "Nagpur" := ["Nagpur Urban", "Nagpur Rural", "Katol", "Kalmeshwar"],
    "Nashik" := ["Nashik East", "Nashik West", "Malegaon", "Sinnar"],
    "Aurangabad" := ["Aurangabad East", "Aurangabad West", "Gangapur", "Kannad"]
  ]

  const Initial: Region := Region("Maharashtra", "", "")

  /** The district select is disabled when the state has no district list. */
  predicate DistrictDisabled(r: Region) {
    r.state !in Districts
  }

  /** The block select is disabled when no district is chosen or it has no block list. */
  predicate BlockDisabled(r: Region) {
    r.district == "" || r.district !in Blocks
  }

  /** The "Selected Region" summary appears when all three levels are chosen. */
  predicate ShowsSummary(r: Region) {
    r.state != "" && r.district != "" && r.block != ""
  }

  /** Every level holds one of its options (or nothing, below the state). */
  predicate Consistent(r: Region) {
    && r.state in States
    && (r.district == "" || (r.state in Districts && r.district in Districts[r.state]))
    && (r.block == "" || (r.district in Blocks && r.block in Blocks[r.district]))
  }

  /** Every listed state has a district list, so the district select is never disabled. */
  lemma StatesHaveDistricts(r: Region)
    requires Consistent(r)
    ensures !DistrictDisabled(r)
  {
  }

  /** Thane is offered under Maharashtra but has no blocks: choosing it disables the block select. */
  lemma ThaneHasNoBlocks()
    ensures "Thane" in Districts["Maharashtra"]
    ensures BlockDisabled(Region("Maharashtra", "Thane", ""))
  {
  }

  /** On a consistent region the summary shows exactly when a block is chosen. */
  lemma SummaryIffBlock(r: Region)
    requires Consistent(r)
    ensures ShowsSummary(r) <==> r.block != ""
  {
  }

  /** A block can only be chosen below a district whose block select is enabled. */
  lemma BlockNeedsEnabledSelect(r: Region)
    requires Consistent(r) && r.block != ""
    ensures !BlockDisabled(r) && r.district != ""
  {
  }

  /** The selector's state. */
  class Selector {
    var region: Region

    predicate Valid()
      reads this
    {
      Consistent(region)
    }

    constructor()
      ensures Valid() && region == Initial
    {
      region := Initial;
    }

    /** Choosing a state clears district and block. */
    method ChangeState(s: string)
      requires Valid() && s in States
      modifies this
      ensures Valid()
      ensures region == Region(s, "", "")
    {
      region := region.(state := s, district := "", block := "");
    }

    /** Choosing a district (or the placeholder) keeps the state and clears the block. */
    method ChangeDistrict(d: string)
      requires Valid() && !DistrictDisabled(region)
      requires d == "" || d in Districts[region.state]
      modifies this
      ensures Valid()
      ensures region == Region(old(region).state, d, "")
    {
      region := region.(district := d, block := "");
    }

    /** Choosing a block (or the placeholder) keeps state and district. */
    method ChangeBlock(b: string)
      requires Valid() && !BlockDisabled(region)
      requires b == "" || b in Blocks[region.district]
      modifies this
      ensures Valid()
      ensures region == old(region).(block := b)
    {
      region := region.(block := b);
    }
  }
}
