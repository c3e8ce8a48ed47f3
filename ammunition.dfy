/** A round a ground vehicle's gun can fire (ammunition.py). */
module Ammunitions {
  import opened Wrappers
  import opened Text

  /** The ricochet keys, in the order the shell-details table lists them. */
  const RicochetKeys: seq<string> := ["0%", "50%", "100%"]

  /** A fresh ricochet table: every probability unknown (-1). */
  const DefaultRicochet: map<string, int> := map["0%" := -1, "50%" := -1, "100%" := -1]

  /** The attributes the shell-details pass writes. The three optional ones
      are declared by the class but not assigned until a table fills them. */
  datatype ShellDetails = ShellDetails(
    ricochet: map<string, int>,
    velocity: int,
    projectileMass: real,
    fuseDelay: Option<real>,
    fuseSensetivity: Option<real>,
    explosiveMass: Option<real>)

  /** What a freshly constructed round holds. */
  const DefaultDetails: ShellDetails := ShellDetails(DefaultRicochet, -1, -1.0, None, None, None)

  /** Every attribute of a round, as a value. `fuseSensitivity` and `range`
      are declared but never assigned by the scraper; the shell pass writes
      the differently spelt `fuseSensetivity` inside `details`. */
  datatype Round = Round(
    name: string,
    ammoType: string,
    pen: map<string, int>,
    details: ShellDetails,
    fuseSensitivity: Option<real>,
    range: Option<int>)

  /** A round as the constructor leaves it. */
  function NewRound(name: string, ammoType: string, pen: map<string, int>): Round {
    Round(name, ammoType, pen, DefaultDetails, None, None)
  }

  /** The summary `__str__` gives: the name, a colon and the type. */
  function Label(name: string, ammoType: string): string {
    name + ": " + ammoType
  }

  /** A summary splits back at ": " into the name and the type when neither
      holds a colon, so `__str__` loses nothing. */
  lemma LabelParts(name: string, ammoType: string)
    requires ':' !in name && ':' !in ammoType
    ensures Split(Label(name, ammoType), ": ") == [name, ammoType]
  {
    assert Join([name, ammoType], ": ") == Label(name, ammoType);
    SplitJoin([name, ammoType], ": ");
  }

  /** A summary always holds a colon right after the name. */
  lemma LabelColon(name: string, ammoType: string)
    ensures |Label(name, ammoType)| > |name| && Label(name, ammoType)[|name|] == ':'
  {
  }

  class Ammunition {
    var name: string
    var ammoType: string
    var penAtDistance: map<string, int>
    var ricochet: map<string, int>
    var velocity: int
    var projectileMass: real
    var fuseDelay: Option<real>
    var fuseSensetivity: Option<real>
    var explosiveMass: Option<real>
    var fuseSensitivity: Option<real>
    var range: Option<int>

    /** `Ammunition(name, ammo_type, pen_at_distance)`: the three arguments are
        kept as given, `ricochet`, `velocity` and `projectile_mass` get their
        sentinels, and the rest stays unassigned. */
    constructor (name: string, ammoType: string, pen: map<string, int>)
      ensures this.name == name && this.ammoType == ammoType && penAtDistance == pen
      ensures ricochet == DefaultRicochet && velocity == -1 && projectileMass == -1.0
      ensures fuseDelay == None && fuseSensetivity == None && explosiveMass == None
      ensures fuseSensitivity == None && range == None
      ensures Snapshot() == NewRound(name, ammoType, pen)
    {
      this.name := name;
      this.ammoType := ammoType;
      penAtDistance := pen;
      ricochet := DefaultRicochet;
      velocity := -1;
      projectileMass := -1.0;
      fuseDelay := None;
      fuseSensetivity := None;
      explosiveMass := None;
      fuseSensitivity := None;
      range := None;
    }

    function Details(): ShellDetails
      reads this
    {
      ShellDetails(ricochet, velocity, projectileMass, fuseDelay, fuseSensetivity, explosiveMass)
    }

    /** All attributes of this round. */
    function Snapshot(): Round
      reads this
    {
      Round(name, ammoType, penAtDistance, Details(), fuseSensitivity, range)
    }

    /** `__str__`. */
    function ToString(): string
      reads this
    {
      Label(name, ammoType)
    }

    /** Writes the attributes the shell-details pass sets and nothing else. */
    method SetDetails(d: ShellDetails)
      modifies this
      ensures Snapshot() == old(Snapshot()).(details := d)
    {
      ricochet := d.ricochet;
      velocity := d.velocity;
      projectileMass := d.projectileMass;
      fuseDelay := d.fuseDelay;
      fuseSensetivity := d.fuseSensetivity;
      explosiveMass := d.explosiveMass;
    }
  }

  /** The values of a list of rounds, element by element. */
  function Snapshots(xs: seq<Ammunition>): (r: seq<Round>)
    reads xs
    ensures |r| == |xs| && forall i :: 0 <= i < |xs| ==> r[i] == xs[i].Snapshot()
  {
    seq(|xs|, i reads xs requires 0 <= i < |xs| => xs[i].Snapshot())
  }
}
