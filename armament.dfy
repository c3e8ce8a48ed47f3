/** A gun of a ground vehicle (armament.py). */
module Armaments {
  import opened Wrappers
  import opened Text
  import opened Ammunitions

  /** The `Stabilizer` enumeration. */
  datatype Stabilizer = NoStabilizer | Vertical | Shoulder | TwoPlane {
    /** The enumeration's member values. */
    function Value(): (v: int)
      ensures 1 <= v <= 4
    {
      match this
      case NoStabilizer => 1
      case Vertical => 2
      case Shoulder => 3
      case TwoPlane => 4
    }
  }

  /** The four members have four distinct values, so they cover 1 to 4. */
  lemma StabilizerValues()
    ensures forall s: Stabilizer, t: Stabilizer :: s.Value() == t.Value() ==> s == t
  {
  }

  /** The `{"positive": …, "negative": …}` dictionary. */
  datatype Guidance = Guidance(positive: int, negative: int)

  /** The `{"basic": …, "aces": …}` dictionary. */
  datatype ReloadTime = ReloadTime(basic: real, aces: real)

  /** The class-level defaults shared by every instance. The parser only ever
      rebinds these attributes, so each instance can start from a copy. */
  const DefaultGuidance: Guidance := Guidance(0, 0)
  const DefaultReload: ReloadTime := ReloadTime(0.0, 0.0)

  /** The numeric and flag attributes of a gun. */
  datatype WeaponStats = WeaponStats(
    beltCapacity: int,
    capacity: int,
    fireRate: int,
    firstStowage: int,
    verticalGuidance: Guidance,
    reloadTime: ReloadTime,
    autoloader: bool,
    stabilizer: Stabilizer,
    diameter: real,
    fireWhileMoving: bool)

  /** The class-level defaults of `Armament`. */
  const DefaultStats: WeaponStats :=
    WeaponStats(-1, -1, -1, -1, DefaultGuidance, DefaultReload, false, NoStabilizer, -1.0, false)

  /** The text inside the brackets of `__str__`: the round summaries joined by
      " | ", or "Default" when that join is empty. */
  function RoundsText(labels: seq<string>): string {
    var joined := Join(labels, " | ");
    if joined == "" then "Default" else joined
  }

  /** A join begins with its first part. */
  lemma JoinStartsWith(parts: seq<string>, sep: string)
    requires |parts| >= 1
    ensures parts[0] <= Join(parts, sep)
  {
  }

  /** The brackets say "Default" exactly when the gun has no rounds, since
      every round summary holds a colon and "Default" does not. */
  lemma RoundsTextDefault(rounds: seq<Round>)
    ensures RoundsText(Labels(rounds)) == "Default" <==> rounds == []
  {
    var ls := Labels(rounds);
    if rounds != [] {
      var first := ls[0];
      JoinStartsWith(ls, " | ");
      var name := rounds[0].name;
      assert first[|name|] == ':';
      assert Join(ls, " | ")[|name|] == ':';
      assert ':' !in "Default";
    }
  }

  /** The summaries of a list of rounds. */
  function Labels(rounds: seq<Round>): (r: seq<string>)
    ensures |r| == |rounds|
    ensures forall i :: 0 <= i < |r| ==> r[i] == Label(rounds[i].name, rounds[i].ammoType)
  {
    seq(|rounds|, i requires 0 <= i < |rounds| => Label(rounds[i].name, rounds[i].ammoType))
  }

  /** `ammo.__str__()` for every round of a list. */
  function ToStrings(xs: seq<Ammunition>): (r: seq<string>)
    reads xs
    ensures r == Labels(Snapshots(xs))
  {
    seq(|xs|, i reads xs requires 0 <= i < |xs| => xs[i].ToString())
  }

  /** `__str__` of a gun with the given name and rounds. */
  function Describe(name: string, rounds: seq<Round>): string {
    name + " with Rounds: [" + RoundsText(Labels(rounds)) + "]"
  }

  class Armament {
    var name: string
    var ammoTypes: seq<Ammunition>
    var beltCapacity: int
    var capacity: int
    var fireRate: int
    var firstStowage: int
    var verticalGuidance: Guidance
    var reloadTime: ReloadTime
    var autoloader: bool
    var stabilizer: Stabilizer
    var diameter: real
    var fireWhileMoving: bool

    /** `Armament(name)`: assigns the name; everything else is the class default. */
    constructor (name: string)
      ensures this.name == name && ammoTypes == [] && Stats() == DefaultStats
    {
      this.name := name;
      ammoTypes := [];
      beltCapacity, capacity, fireRate, firstStowage := -1, -1, -1, -1;
      verticalGuidance, reloadTime := DefaultGuidance, DefaultReload;
      autoloader, stabilizer := false, NoStabilizer;
      diameter, fireWhileMoving := -1.0, false;
    }

    /** The numeric and flag attributes, as a value. */
    function Stats(): WeaponStats
      reads this`beltCapacity, this`capacity, this`fireRate, this`firstStowage
      reads this`verticalGuidance, this`reloadTime, this`autoloader, this`stabilizer
      reads this`diameter, this`fireWhileMoving
    {
      WeaponStats(beltCapacity, capacity, fireRate, firstStowage, verticalGuidance,
                  reloadTime, autoloader, stabilizer, diameter, fireWhileMoving)
    }

    /** `__str__`: the name, then the summaries of its rounds in brackets. */
    function ToString(): (s: string)
      reads this, ammoTypes
      ensures s == Describe(name, Snapshots(ammoTypes))
    {
      name + " with Rounds: [" + RoundsText(ToStrings(ammoTypes)) + "]"
    }
  }
}
