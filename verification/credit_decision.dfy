/** The company credit decision in `Classes.py`: an Altman Z-score and a
    Merton probability of default are turned into one of three labelled
    outcomes by an `if / elif / else` chain. */
module CreditDecision {
  import opened Basics

  datatype Decision = Approve | Review | Deny
  {
    /** The string the decision is reported as. */
    function Label(): string {
      match this
      case Approve => "Approve \U{2705}"
      case Review => "Needs Further Review \U{26A0}\U{FE0F}"
      case Deny => "Deny \U{274C}"
    }
  }

  /** Z-scores of at least 2.99 are safe, from 1.81 up to 2.99 are grey. */
  const SafeZ: real := 2.99
  const GreyZ: real := 1.81
  /** A default probability up to 5% is low, up to 10% elevated. */
  const LowPd: real := 0.05
  const HighPd: real := 0.10

  /** `credit_decision(Z_score, PD)`: approve a safe company with a low
      default probability; send a grey-zone company, or an elevated default
      probability, to review; deny the rest. */
  function Decide(z: real, pd: real): (d: Decision)
    ensures d == Approve ==> SafeZ <= z && pd <= LowPd
    ensures d == Deny ==> !(GreyZ <= z < SafeZ) && !(LowPd < pd <= HighPd)
  {
    if z >= SafeZ && pd <= LowPd then Approve
    else if (GreyZ <= z < SafeZ) || (LowPd < pd <= HighPd) then Review
    else Deny
  }

  // ---------------------------------------------------------------------
  // The chain read as a table of zones
  // ---------------------------------------------------------------------

  /** The three Altman zones. */
  datatype Zone = Safe | Grey | Distress

  function ZoneOf(z: real): (r: Zone)
    ensures r == Safe <==> SafeZ <= z
    ensures r == Distress <==> z < GreyZ
  {
    if z >= SafeZ then Safe else if z >= GreyZ then Grey else Distress
  }

  /** The three default-probability bands. */
  datatype Band = Low | Elevated | High

  function BandOf(pd: real): (r: Band)
    ensures r == Low <==> pd <= LowPd
    ensures r == High <==> HighPd < pd
  {
    if pd <= LowPd then Low else if pd <= HighPd then Elevated else High
  }

  /** The decision for each zone and band, written out cell by cell. */
  function Grid(zone: Zone, band: Band): Decision {
    match (zone, band)
    case (Safe, Low) => Approve
    case (Safe, Elevated) => Review
    case (Safe, High) => Deny
    case (Grey, _) => Review
    case (Distress, Low) => Deny
    case (Distress, Elevated) => Review
    case (Distress, High) => Deny
  }

  /** The `if / elif / else` chain agrees with the grid on every input. */
  lemma DecideIsGrid(z: real, pd: real)
    ensures Decide(z, pd) == Grid(ZoneOf(z), BandOf(pd))
  {
  }

  /** Denial in plain terms: a safe company with a high default probability,
      or a distressed company whose default probability is not elevated. */
  lemma DenyExactly(z: real, pd: real)
    ensures Decide(z, pd) == Deny <==>
      (SafeZ <= z && HighPd < pd) || (z < GreyZ && (pd <= LowPd || HighPd < pd))
  {
    DecideIsGrid(z, pd);
  }

  /** Every grey-zone company goes to review, whatever its default probability. */
  lemma GreyAlwaysReviewed(z: real, pd: real)
    requires GreyZ <= z < SafeZ
    ensures Decide(z, pd) == Review
  {
  }

  /** The chain is not monotone in the default probability: a distressed
      company with a 1% default probability is denied, the same company at
      7% goes to review. */
  lemma LowerPdCanBeWorse()
    ensures Decide(1.0, 0.01) == Deny && Decide(1.0, 0.07) == Review
  {
  }

  /** Nor in the Z-score: at a 20% default probability a grey-zone company
      goes to review and a safe one is denied. */
  lemma HigherZCanBeWorse()
    ensures Decide(2.0, 0.20) == Review && Decide(3.0, 0.20) == Deny
  {
  }

  // ---------------------------------------------------------------------
  // Labels
  // ---------------------------------------------------------------------

  /** Reads a label back; any other string is not a decision. */
  function FromLabel(s: string): (r: Option<Decision>)
    ensures r.Some? ==> r.value.Label() == s
  {
    if s == Approve.Label() then Some(Approve)
    else if s == Review.Label() then Some(Review)
    else if s == Deny.Label() then Some(Deny)
    else None
  }

  /** Each decision is recovered from its label, so the three labels differ. */
  lemma LabelRoundTrip(d: Decision)
    ensures FromLabel(d.Label()) == Some(d)
  {
    assert Approve.Label()[0] == 'A' && Review.Label()[0] == 'N' && Deny.Label()[0] == 'D';
  }

  /** Each label starts with the word the docstring promises. */
  lemma LabelWords()
    ensures Approve.Label()[..7] == "Approve"
    ensures Review.Label()[..20] == "Needs Further Review"
    ensures Deny.Label()[..4] == "Deny"
  {
  }
}
