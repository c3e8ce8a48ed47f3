/** A ground vehicle (tanks.py). */
module Tanks {
  import opened Wrappers
  import opened Armaments

  /** A fresh `{"RB": 0, "AB": 0}`. */
  const TwoModes: map<string, int> := map["RB" := 0, "AB" := 0]
  /** A fresh `{"RB": 0, "AB": 0, "SB": 0}`. */
  const ThreeModes: map<string, int> := map["RB" := 0, "AB" := 0, "SB" := 0]
  /** A fresh `{"Forward": 0, "Back": 0}`. */
  const NoGears: map<string, int> := map["Forward" := 0, "Back" := 0]

  /** The attributes that features and modifications switch on. The optional
      ones are declared but not assigned by the constructor (`scouting` is
      not even declared); `smokes` holds -1 until a smoke grenade module sets
      it to `True`, which Python counts as 1. */
  datatype Equipment = Equipment(
    smokes: int,
    ess: bool,
    artillery: Option<bool>,
    dozerBlade: Option<bool>,
    scouting: Option<bool>,
    nightVision: bool,
    thermalVision: bool,
    rangefinder: Option<bool>,
    laserRangefinder: Option<bool>,
    laserWarningRangefinder: Option<bool>,
    isAmphibious: Option<bool>)

  /** What the constructor leaves in the equipment attributes. */
  const NoEquipment: Equipment :=
    Equipment(-1, false, None, None, None, false, false, None, None, None, None)

  class Tank {
    var name: string
    var armaments: seq<Armament>
    var armourHull: seq<int>
    var armourTurret: seq<int>
    var crew: int
    var visibility: int
    var stabilizer: int
    var weight: real
    var enginePower: map<string, int>
    var maxSpeedForward: map<string, int>
    var maxSpeedReverse: map<string, int>
    var gears: map<string, int>
    var powerToWeight: map<string, int>
    var rank: Option<int>
    var battleRating: Option<real>
    var smokes: int
    var ess: bool
    var artillery: Option<bool>
    var dozerBlade: Option<bool>
    var scouting: Option<bool>
    var nightVision: bool
    var thermalVision: bool
    var rangefinder: Option<bool>
    var laserRangefinder: Option<bool>
    var laserWarningRangefinder: Option<bool>
    var isAmphibious: Option<bool>

    /** `Tank(name)`: the name, no guns, empty armour tuples, -1 sentinels,
        a weight of -100.0, fresh zero mappings per game mode and gear
        direction, no night or thermal vision, and the rest unassigned. */
    constructor (name: string)
      ensures this.name == name && armaments == []
      ensures armourHull == [] && armourTurret == []
      ensures crew == -1 && visibility == -1 && smokes == -1 && stabilizer == -1
      ensures !ess && weight == -100.0
      ensures enginePower == TwoModes && powerToWeight == TwoModes
      ensures maxSpeedForward == ThreeModes && maxSpeedReverse == ThreeModes
      ensures gears == NoGears
      ensures !nightVision && !thermalVision
      ensures rank == None && battleRating == None && isAmphibious == None
      ensures artillery == None && dozerBlade == None && scouting == None
      ensures rangefinder == None && laserRangefinder == None && laserWarningRangefinder == None
      ensures Gear() == NoEquipment && Untouched()
    {
      this.name := name;
      armaments := [];
      armourHull, armourTurret := [], [];
      crew, visibility, smokes := -1, -1, -1;
      ess, stabilizer, weight := false, -1, -100.0;
      enginePower, maxSpeedForward, maxSpeedReverse := TwoModes, ThreeModes, ThreeModes;
      gears, powerToWeight := NoGears, TwoModes;
      nightVision, thermalVision := false, false;
      rank, battleRating, isAmphibious := None, None, None;
      artillery, dozerBlade, scouting := None, None, None;
      rangefinder, laserRangefinder, laserWarningRangefinder := None, None, None;
    }

    /** The equipment attributes, as a value. */
    function Gear(): Equipment
      reads this`smokes, this`ess, this`artillery, this`dozerBlade, this`scouting
      reads this`nightVision, this`thermalVision, this`rangefinder, this`laserRangefinder
      reads this`laserWarningRangefinder, this`isAmphibious
    {
      Equipment(smokes, ess, artillery, dozerBlade, scouting, nightVision, thermalVision,
                rangefinder, laserRangefinder, laserWarningRangefinder, isAmphibious)
    }

    /** The attributes the scraper never writes after construction. */
    function Chassis(): (seq<int>, seq<int>, int, int, int, real, Option<int>, Option<real>)
      reads this`armourHull, this`armourTurret, this`crew, this`visibility, this`stabilizer
      reads this`weight, this`rank, this`battleRating
    {
      (armourHull, armourTurret, crew, visibility, stabilizer, weight, rank, battleRating)
    }

    /** The per-mode and per-gear mappings. */
    function Mobility(): (map<string, int>, map<string, int>, map<string, int>, map<string, int>, map<string, int>)
      reads this`enginePower, this`maxSpeedForward, this`maxSpeedReverse, this`gears, this`powerToWeight
    {
      (enginePower, maxSpeedForward, maxSpeedReverse, gears, powerToWeight)
    }

    /** The attributes the scraper never writes still hold the constructor's
        values. */
    predicate Untouched()
      reads this`armourHull, this`armourTurret, this`crew, this`visibility, this`stabilizer
      reads this`weight, this`rank, this`battleRating
      reads this`enginePower, this`maxSpeedForward, this`maxSpeedReverse, this`gears, this`powerToWeight
    {
      Chassis() == ([], [], -1, -1, -1, -100.0, None, None)
      && Mobility() == (TwoModes, ThreeModes, ThreeModes, NoGears, TwoModes)
    }

    /** `parsed_tank.armaments.append(a)`. */
    method AddArmament(a: Armament)
      modifies this`armaments
      ensures armaments == old(armaments) + [a]
    {
      armaments := armaments + [a];
    }
  }
}
