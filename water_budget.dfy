/**
 * The farm water budget calculator: litres per acre per hour for the crop,
 * times the area, the irrigation method's factor and the pumping hours, and a
 * three-band status for the daily total.
 */
module WaterBudget {
  import opened Wrappers

  /** `cropData`: litres per acre per hour; the crop select offers only these (or nothing). */
  function CropRate(crop: string): (r: Option<real>)
    ensures r.Some? <==> crop in {"wheat", "rice", "maize"}
  {
    if crop == "wheat" then Some(2500.0)
    else if crop == "rice" then Some(4000.0)
    else if crop == "maize" then Some(2000.0)
    else None
  }

  /** `methodFactor`: the share of water the irrigation method uses. */
  function MethodFactor(irrigation: string): (r: Option<real>)
    ensures r.Some? <==> irrigation in {"drip", "sprinkler", "flood"}
  {
    if irrigation == "drip" then Some(0.5)
    else if irrigation == "sprinkler" then Some(0.7)
    else if irrigation == "flood" then Some(1.0)
    else None
  }

  /** The values the two selects can hold: the empty placeholder or an option. */
  predicate SelectableCrop(crop: string) {
    crop == "" || crop in {"wheat", "rice", "maize"}
  }

  predicate SelectableMethod(irrigation: string) {
    irrigation == "" || irrigation in {"drip", "sprinkler", "flood"}
  }

  /** The three status bands. */
  datatype Status = Sustainable | SemiCritical | Critical

  /** The status line shown under the total. */
  function StatusText(s: Status): string {
    match s
    case Sustainable => "Sustainable ✅"
    case SemiCritical => "Semi-Critical ⚠️ – Save Water!"
    case Critical => "Critical ❌ – Immediate Action Required!"
  }

  /** Below 20000 litres is sustainable, above 50000 critical; both boundaries are semi-critical. */
  function StatusOf(total: real): (r: Status)
    ensures r == Sustainable <==> total < 20000.0
    ensures r == SemiCritical <==> 20000.0 <= total <= 50000.0
    ensures r == Critical <==> total > 50000.0
  {
    if total < 20000.0 then Sustainable
    else if total <= 50000.0 then SemiCritical
    else Critical
  }

  /** A larger total never gets a milder status. */
  lemma StatusMonotonic(a: real, b: real)
    requires a <= b
    ensures StatusOf(a) == Critical ==> StatusOf(b) == Critical
    ensures StatusOf(b) == Sustainable ==> StatusOf(a) == Sustainable
  {
  }

  /** The area input: absent before anything is typed, else the number typed. */
  type Area = Option<real>

  /** `!area`: nothing typed, or zero. */
  predicate AreaMissing(area: Area) {
    area == None || area == Some(0.0)
  }

  /** What a calculation shows: the daily total and its status. */
  datatype Budget = Budget(total: real, status: Status)

  /**
   * `calculateBudget`: nothing while crop, area or method is missing; else the
   * crop's rate times area, method factor and hours, with the status of that total.
   */
  function Calculate(crop: string, area: Area, irrigation: string, hours: real): (r: Option<Budget>)
    requires SelectableCrop(crop) && SelectableMethod(irrigation)
    ensures r.None? <==> crop == "" || AreaMissing(area) || irrigation == ""
    ensures r.Some? ==> r.value.status == StatusOf(r.value.total)
  {
    if crop == "" || AreaMissing(area) || irrigation == "" then None
    else
      var total := CropRate(crop).value * area.value * MethodFactor(irrigation).value * hours;
      Some(Budget(total, StatusOf(total)))
  }

  /** Twice the hours, twice the water; the same for the area. */
  lemma CalculateLinear(crop: string, area: real, irrigation: string, hours: real, k: real)
    requires crop in {"wheat", "rice", "maize"} && irrigation in {"drip", "sprinkler", "flood"}
    requires area != 0.0 && k != 0.0
    ensures Calculate(crop, Some(area), irrigation, k * hours).value.total
         == k * Calculate(crop, Some(area), irrigation, hours).value.total
    ensures Calculate(crop, Some(k * area), irrigation, hours).value.total
         == k * Calculate(crop, Some(area), irrigation, hours).value.total
  {
  }

  /** On a positive area, drip uses no more than sprinkler, and sprinkler no more than flood. */
  lemma MethodOrder(crop: string, area: real, hours: real)
    requires crop in {"wheat", "rice", "maize"}
    requires area > 0.0 && hours >= 0.0
    ensures Calculate(crop, Some(area), "drip", hours).value.total
         <= Calculate(crop, Some(area), "sprinkler", hours).value.total
         <= Calculate(crop, Some(area), "flood", hours).value.total
  {
    var base := CropRate(crop).value * area;
    assert base > 0.0;
    assert base * 0.5 * hours <= base * 0.7 * hours <= base * 1.0 * hours by {
      assert base * 0.7 * hours - base * 0.5 * hours == (base * hours) * 0.2;
      assert base * 1.0 * hours - base * 0.7 * hours == (base * hours) * 0.3;
      assert base * hours >= 0.0;
    }
  }

  /** Worked cases, eight pumping hours each: an acre of wheat on drip, two acres of rice flooded, five of maize under sprinklers. */
  lemma Examples()
    ensures Calculate("wheat", Some(1.0), "drip", 8.0) == Some(Budget(10000.0, Sustainable))
    ensures Calculate("rice", Some(2.0), "flood", 8.0) == Some(Budget(64000.0, Critical))
    ensures Calculate("maize", Some(5.0), "sprinkler", 8.0) == Some(Budget(56000.0, Critical))
  {
  }

  /** The calculator's form and its last result. */
  class FarmWaterBudget {
    var crop: string
    var area: Area
    var irrigation: string
    var borewells: real
    var hours: real
    var result: Option<Budget>

    /** The selects and the hours slider only hold values they offer. */
    predicate Valid()
      reads this
    {
      SelectableCrop(crop) && SelectableMethod(irrigation) && 1.0 <= hours <= 24.0
    }

    constructor()
      ensures Valid()
      ensures crop == "" && area == None && irrigation == "" && borewells == 1.0 && hours == 8.0 && result == None
    {
      crop := "";
      area := None;
      irrigation := "";
      borewells := 1.0;
      hours := 8.0;
      result := None;
    }

    method SetCrop(c: string)
      requires Valid() && SelectableCrop(c)
      modifies this
      ensures Valid() && crop == c
      ensures area == old(area) && irrigation == old(irrigation) && borewells == old(borewells)
      ensures hours == old(hours) && result == old(result)
    {
      crop := c;
    }

    /** Typing in the area field: the number entered, or `None` for an entry that is missing. */
    method SetArea(a: Area)
      requires Valid()
      modifies this
      ensures Valid() && area == a
      ensures crop == old(crop) && irrigation == old(irrigation) && borewells == old(borewells)
      ensures hours == old(hours) && result == old(result)
    {
      area := a;
    }

    method SetMethod(m: string)
      requires Valid() && SelectableMethod(m)
      modifies this
      ensures Valid() && irrigation == m
      ensures crop == old(crop) && area == old(area) && borewells == old(borewells)
      ensures hours == old(hours) && result == old(result)
    {
      irrigation := m;
    }

    /** The borewell count is stored and nothing else changes: no calculation reads it. */
    method SetBorewells(b: real)
      requires Valid()
      modifies this
      ensures Valid() && borewells == b
      ensures crop == old(crop) && area == old(area) && irrigation == old(irrigation)
      ensures hours == old(hours) && result == old(result)
    {
      borewells := b;
    }

    method SetHours(h: real)
      requires Valid() && 1.0 <= h <= 24.0
      modifies this
      ensures Valid() && hours == h
      ensures crop == old(crop) && area == old(area) && irrigation == old(irrigation)
      ensures borewells == old(borewells) && result == old(result)
    {
      hours := h;
    }

    /** The button: a missing input leaves the previous result on screen. */
    method CalculateBudget()
      requires Valid()
      modifies this
      ensures Valid()
      ensures crop == old(crop) && area == old(area) && irrigation == old(irrigation)
      ensures borewells == old(borewells) && hours == old(hours)
      ensures result == (if Calculate(crop, area, irrigation, hours).None? then old(result)
                         else Calculate(crop, area, irrigation, hours))
    {
      var b := Calculate(crop, area, irrigation, hours);
      if b.Some? {
        result := b;
      }
    }
  }
}
