/** The vehicle assembly of `parse_ground_vehicle`, in both revisions: the
    guns, the table walk that hands them their rounds, the vehicle features
    and the modifications. */
module VehicleParser {
  import opened Wrappers
  import opened Text
  import opened Collections
  import opened Markup
  import opened Ammunitions
  import opened Armaments
  import opened Tanks
  import opened ArmamentDecoder
  import opened VehicleWalk

  // ---------------------------------------------------------------------
  // Modifications.

  /** The modifications the parser recognises. */
  datatype ModKind =
    | SmokeGrenade | Ess | ArtillerySupport | DozerBlade | ImprovedOptics
    | Nvd | Tvd | RangefinderMod | Lr | LwsLr

  /** The name a modification is written with on the page. */
  function ModName(k: ModKind): string {
    match k
    case SmokeGrenade => "Smoke grenade"
    case Ess => "ESS"
    case ArtillerySupport => "Artillery Support"
    case DozerBlade => "Dozer Blade"
    case ImprovedOptics => "Improved optics"
    case Nvd => "NVD"
    case Tvd => "TVD"
    case RangefinderMod => "Rangefinder"
    case Lr => "LR"
    case LwsLr => "LWS/LR"
  }

  /** The `if`/`elif` chain on a `specs_mod_name` text. The current revision
      compares the trimmed text, the earlier one the text as it is, and only
      the current one knows "Improved optics". */
  function ModOf(rev: Revision, m: string): Option<ModKind> {
    ModOfText(rev, Norm(rev, m))
  }

  /** The chain on the compared text. */
  function ModOfText(rev: Revision, t: string): Option<ModKind> {
    if t == "Smoke grenade" then Some(SmokeGrenade)
    else if t == "ESS" then Some(Ess)
    else if t == "Artillery Support" then Some(ArtillerySupport)
    else if t == "Dozer Blade" then Some(DozerBlade)
    else if rev == Current && t == "Improved optics" then Some(ImprovedOptics)
    else if t == "NVD" then Some(Nvd)
    else if t == "TVD" then Some(Tvd)
    else if t == "Rangefinder" then Some(RangefinderMod)
    else if t == "LR" then Some(Lr)
    else if t == "LWS/LR" then Some(LwsLr)
    else None
  }

  /** A text names modification `k` exactly when its compared form is the
      name of `k`, and "Improved optics" only in the current revision. */
  lemma ModOfName(rev: Revision, m: string, k: ModKind)
    ensures ModOf(rev, m) == Some(k) <==> Norm(rev, m) == ModName(k) && (rev == Earlier ==> k != ImprovedOptics)
  {
    ModOfTextName(rev, Norm(rev, m), k);
  }

  /** The same on the compared text. */
  lemma ModOfTextName(rev: Revision, t: string, k: ModKind)
    ensures ModOfText(rev, t) == Some(k) <==> t == ModName(k) && (rev == Earlier ==> k != ImprovedOptics)
  {
  }

  /** Whether the attribute of modification `k` is switched on (`True`;
      `smokes` holds an integer, and Python's `True` is 1). */
  predicate Has(e: Equipment, k: ModKind) {
    match k
    case SmokeGrenade => e.smokes == 1
    case Ess => e.ess
    case ArtillerySupport => e.artillery == Some(true)
    case DozerBlade => e.dozerBlade == Some(true)
    case ImprovedOptics => e.scouting == Some(true)
    case Nvd => e.nightVision
    case Tvd => e.thermalVision
    case RangefinderMod => e.rangefinder == Some(true)
    case Lr => e.laserRangefinder == Some(true)
    case LwsLr => e.laserWarningRangefinder == Some(true)
  }

  /** The equipment with the attribute of `k` put back to what the
      constructor leaves there. */
  function Without(e: Equipment, k: ModKind): Equipment {
    match k
    case SmokeGrenade => e.(smokes := NoEquipment.smokes)
    case Ess => e.(ess := NoEquipment.ess)
    case ArtillerySupport => e.(artillery := NoEquipment.artillery)
    case DozerBlade => e.(dozerBlade := NoEquipment.dozerBlade)
    case ImprovedOptics => e.(scouting := NoEquipment.scouting)
    case Nvd => e.(nightVision := NoEquipment.nightVision)
    case Tvd => e.(thermalVision := NoEquipment.thermalVision)
    case RangefinderMod => e.(rangefinder := NoEquipment.rangefinder)
    case Lr => e.(laserRangefinder := NoEquipment.laserRangefinder)
    case LwsLr => e.(laserWarningRangefinder := NoEquipment.laserWarningRangefinder)
  }

  /** One recognised modification: its own attribute becomes `True` and
      every other attribute stays as it was. */
  function WithMod(e: Equipment, k: ModKind): (r: Equipment)
    ensures Has(r, k) && Without(r, k) == Without(e, k)
  {
    match k
    case SmokeGrenade => e.(smokes := 1)
    case Ess => e.(ess := true)
    case ArtillerySupport => e.(artillery := Some(true))
    case DozerBlade => e.(dozerBlade := Some(true))
    case ImprovedOptics => e.(scouting := Some(true))
    case Nvd => e.(nightVision := true)
    case Tvd => e.(thermalVision := true)
    case RangefinderMod => e.(rangefinder := Some(true))
    case Lr => e.(laserRangefinder := Some(true))
    case LwsLr => e.(laserWarningRangefinder := Some(true))
  }

  /** The modification loop, one name after the other. */
  function ModsAfter(rev: Revision, e: Equipment, mods: seq<string>): Equipment {
    if |mods| == 0 then e
    else
      var before := ModsAfter(rev, e, mods[..|mods| - 1]);
      match ModOf(rev, mods[|mods| - 1])
      case None => before
      case Some(k) => WithMod(before, k)
  }

  /** The modifications a list of names asks for. */
  function Kinds(rev: Revision, mods: seq<string>): set<ModKind> {
    set m | m in mods && ModOf(rev, m).Some? :: ModOf(rev, m).value
  }

  /** A set of modifications switched on all at once. */
  function WithKinds(e: Equipment, ks: set<ModKind>): Equipment {
    Equipment(
      if SmokeGrenade in ks then 1 else e.smokes,
      e.ess || Ess in ks,
      if ArtillerySupport in ks then Some(true) else e.artillery,
      if DozerBlade in ks then Some(true) else e.dozerBlade,
      if ImprovedOptics in ks then Some(true) else e.scouting,
      e.nightVision || Nvd in ks,
      e.thermalVision || Tvd in ks,
      if RangefinderMod in ks then Some(true) else e.rangefinder,
      if Lr in ks then Some(true) else e.laserRangefinder,
      if LwsLr in ks then Some(true) else e.laserWarningRangefinder,
      e.isAmphibious)
  }

  /** Switching on one more modification. */
  lemma WithKindsAdd(e: Equipment, ks: set<ModKind>, k: ModKind)
    ensures WithMod(WithKinds(e, ks), k) == WithKinds(e, ks + {k})
  {
  }

  /** The names of a longer list are those of the shorter one and the last. */
  lemma KindsSnoc(rev: Revision, mods: seq<string>, m: string)
    ensures ModOf(rev, m).None? ==> Kinds(rev, mods + [m]) == Kinds(rev, mods)
    ensures ModOf(rev, m).Some? ==> Kinds(rev, mods + [m]) == Kinds(rev, mods) + {ModOf(rev, m).value}
  {
    assert forall x :: x in mods + [m] <==> x in mods || x == m;
  }

  /** The loop's outcome in closed form: exactly the recognised
      modifications are switched on, whatever their order or repetition. */
  lemma {:induction false} ModsAfterClosed(rev: Revision, e: Equipment, mods: seq<string>)
    ensures ModsAfter(rev, e, mods) == WithKinds(e, Kinds(rev, mods))
  {
    if |mods| == 0 {
      assert Kinds(rev, mods) == {};
    } else {
      var front, m := mods[..|mods| - 1], mods[|mods| - 1];
      assert mods == front + [m];
      ModsAfterClosed(rev, e, front);
      KindsSnoc(rev, front, m);
      if ModOf(rev, m).Some? {
        WithKindsAdd(e, Kinds(rev, front), ModOf(rev, m).value);
      }
    }
  }

  /** An attribute is switched on after the loop exactly when it was before
      or some name asks for it; nothing is ever switched off. */
  lemma ModsHas(rev: Revision, e: Equipment, mods: seq<string>, k: ModKind)
    ensures Has(ModsAfter(rev, e, mods), k) <==> Has(e, k) || exists m :: m in mods && ModOf(rev, m) == Some(k)
  {
    ModsAfterClosed(rev, e, mods);
    if exists m :: m in mods && ModOf(rev, m) == Some(k) {
      var m :| m in mods && ModOf(rev, m) == Some(k);
      assert k in Kinds(rev, mods);
    }
  }

  /** The order of the names does not matter: two lists with the same names
      have the same outcome. */
  lemma ModsOrderFree(rev: Revision, e: Equipment, a: seq<string>, b: seq<string>)
    requires forall m :: m in a <==> m in b
    ensures ModsAfter(rev, e, a) == ModsAfter(rev, e, b)
  {
    ModsAfterClosed(rev, e, a);
    ModsAfterClosed(rev, e, b);
    assert Kinds(rev, a) == Kinds(rev, b);
  }

  /** A repeated name has no further effect: the list twice over is the list
      once. */
  lemma ModsRepeat(rev: Revision, e: Equipment, mods: seq<string>)
    ensures ModsAfter(rev, e, mods + mods) == ModsAfter(rev, e, mods)
  {
    assert forall m :: m in mods + mods <==> m in mods;
    ModsOrderFree(rev, e, mods + mods, mods);
  }

  /** A name that is not recognised changes nothing, wherever it stands. */
  lemma ModsUnknown(rev: Revision, e: Equipment, a: seq<string>, m: string, b: seq<string>)
    requires ModOf(rev, m).None?
    ensures ModsAfter(rev, e, a + [m] + b) == ModsAfter(rev, e, a + b)
  {
    ModsAfterClosed(rev, e, a + [m] + b);
    ModsAfterClosed(rev, e, a + b);
    assert forall x :: x in a + [m] + b <==> x in a + b || x == m;
    assert Kinds(rev, a + [m] + b) == Kinds(rev, a + b);
  }

  /** The earlier revision never sets `scouting`. */
  lemma EarlierNoScouting(e: Equipment, mods: seq<string>)
    ensures ModsAfter(Earlier, e, mods).scouting == e.scouting
  {
    ModsAfterClosed(Earlier, e, mods);
    assert ImprovedOptics !in Kinds(Earlier, mods);
  }

  /** One more name of the loop. */
  lemma ModsStep(rev: Revision, e: Equipment, mods: seq<string>, j: nat)
    requires j < |mods|
    ensures ModsAfter(rev, e, mods[..j + 1]) ==
      match ModOf(rev, mods[j])
      case None => ModsAfter(rev, e, mods[..j])
      case Some(k) => WithMod(ModsAfter(rev, e, mods[..j]), k)
  {
    assert mods[..j + 1][..j] == mods[..j];
  }

  /** `parsed_tank.<attribute> = True` for modification `k`. */
  method SetMod(tank: Tank, k: ModKind)
    modifies tank`smokes, tank`ess, tank`artillery, tank`dozerBlade, tank`scouting
    modifies tank`nightVision, tank`thermalVision, tank`rangefinder, tank`laserRangefinder
    modifies tank`laserWarningRangefinder
    ensures tank.Gear() == WithMod(old(tank.Gear()), k)
  {
    match k
    case SmokeGrenade => tank.smokes := 1;
    case Ess => tank.ess := true;
    case ArtillerySupport => tank.artillery := Some(true);
    case DozerBlade => tank.dozerBlade := Some(true);
    case ImprovedOptics => tank.scouting := Some(true);
    case Nvd => tank.nightVision := true;
    case Tvd => tank.thermalVision := true;
    case RangefinderMod => tank.rangefinder := Some(true);
    case Lr => tank.laserRangefinder := Some(true);
    case LwsLr => tank.laserWarningRangefinder := Some(true);
  }

  /** The modification loop on the tank object. */
  method ApplyModifications(rev: Revision, tank: Tank, mods: seq<string>)
    modifies tank`smokes, tank`ess, tank`artillery, tank`dozerBlade, tank`scouting
    modifies tank`nightVision, tank`thermalVision, tank`rangefinder, tank`laserRangefinder
    modifies tank`laserWarningRangefinder
    ensures tank.Gear() == ModsAfter(rev, old(tank.Gear()), mods)
  {
    ghost var start := tank.Gear();
    var j := 0;
    while j < |mods|
      invariant j <= |mods|
      invariant tank.Gear() == ModsAfter(rev, start, mods[..j])
    {
      ModsStep(rev, start, mods, j);
      var k := ModOf(rev, mods[j]);
      if k.Some? {
        SetMod(tank, k.value);
      }
      j := j + 1;
    }
    assert mods[..j] == mods;
  }

  // ---------------------------------------------------------------------
  // Vehicle features (current revision only).

  /** The feature the parser acts on; stabilizers, "Autoloader", the
      features it already knows and any other feature change nothing. */
  const Amphibious: string := "Amphibious"

  /** The feature loop, one `feature_name` text after the other. */
  function FeatureFlags(e: Equipment, features: seq<string>): Equipment {
    if |features| == 0 then e
    else
      var before := FeatureFlags(e, features[..|features| - 1]);
      if Trim(features[|features| - 1]) == Amphibious then before.(isAmphibious := Some(true)) else before
  }

  /** The loop's outcome in closed form: the vehicle is amphibious exactly
      when some trimmed feature text is "Amphibious", and nothing else
      changes. */
  lemma {:induction false} FeatureFlagsClosed(e: Equipment, features: seq<string>)
    ensures FeatureFlags(e, features) ==
      if exists f :: f in features && Trim(f) == Amphibious then e.(isAmphibious := Some(true)) else e
  {
    if |features| > 0 {
      var front, f := features[..|features| - 1], features[|features| - 1];
      assert features == front + [f];
      FeatureFlagsClosed(e, front);
      assert forall x :: x in features <==> x in front || x == f;
    }
  }

  /** One more feature of the loop. */
  lemma FeatureStep(e: Equipment, features: seq<string>, j: nat)
    requires j < |features|
    ensures FeatureFlags(e, features[..j + 1]) ==
      var before := FeatureFlags(e, features[..j]);
      if Trim(features[j]) == Amphibious then before.(isAmphibious := Some(true)) else before
  {
    assert features[..j + 1][..j] == features[..j];
  }

  /** The feature loop on the tank object. */
  method ApplyVehicleFeatures(tank: Tank, features: seq<string>)
    modifies tank`isAmphibious
    ensures tank.Gear() == FeatureFlags(old(tank.Gear()), features)
  {
    ghost var start := tank.Gear();
    var j := 0;
    while j < |features|
      invariant j <= |features|
      invariant tank.Gear() == FeatureFlags(start, features[..j])
    {
      FeatureStep(start, features, j);
      if Trim(features[j]) == Amphibious {
        tank.isAmphibious := Some(true);
      }
      j := j + 1;
    }
    assert features[..j] == features;
  }

  // ---------------------------------------------------------------------
  // The whole vehicle.

  /** What `parse_ground_vehicle` builds, as a value: the vehicle name, each
      gun's name and attributes, the table walk and the equipment. */
  datatype Vehicle = Vehicle(name: string, guns: seq<(string, WeaponStats)>, walk: Walk, equipment: Equipment)

  /** The vehicle name: the `general_info_name` text, untrimmed, which must be
      there; the earlier revision always says "Tank1". */
  function VehicleName(rev: Revision, page: Page): (r: Result<string>)
    ensures rev == Earlier ==> r == Ok("Tank1")
    ensures rev == Current ==> (r.Ok? <==> page.nameText.Some?) && (r.Ok? ==> r.value == page.nameText.value)
  {
    if rev == Current then Need(page.nameText) else Ok("Tank1")
  }

  /** `parse_ground_armaments` as a function value. */
  function DecodeGun(rev: Revision): WeaponBlock -> Result<(string, WeaponStats)> {
    w => DecodeArmament(rev, w)
  }

  /** The names of the guns, in order. */
  function GunNames(guns: seq<(string, WeaponStats)>): (r: seq<string>)
    ensures |r| == |guns| && forall i :: 0 <= i < |guns| ==> r[i] == guns[i].0
  {
    seq(|guns|, i requires 0 <= i < |guns| => guns[i].0)
  }

  /** The equipment after the feature loop (current revision) and the
      modification loop. */
  function Equip(rev: Revision, page: Page): Equipment {
    var featured := if rev == Current then FeatureFlags(NoEquipment, page.features) else NoEquipment;
    ModsAfter(rev, featured, page.modifications)
  }

  /** The guns of a page and the walk that hands them their rounds: every
      weapon block decoded in page order, then the walk over the tables for
      guns with those names. */
  function Armed(rev: Revision, page: Page): Result<(seq<(string, WeaponStats)>, Walk)> {
    var guns :- MapAll(DecodeGun(rev), WeaponBlocks(page.infoBlocks));
    var walk :- WalkTables(rev, GunNames(guns), page.tables);
    Ok((guns, walk))
  }

  /** `parse_ground_vehicle`, as a value: the name, the guns and the walk,
      the equipment. Any step that raises makes the whole parse raise. */
  function DecodeVehicle(rev: Revision, page: Page): Result<Vehicle> {
    var name :- VehicleName(rev, page);
    var armed :- Armed(rev, page);
    Ok(Vehicle(name, armed.0, armed.1, Equip(rev, page)))
  }

  /** The parse goes through exactly when the name is there, every weapon
      block decodes and the walk over the decoded guns' names goes through;
      the guns are then the decoded weapon blocks, one per block and in page
      order. */
  lemma DecodeVehicleOk(rev: Revision, page: Page)
    ensures var blocks := WeaponBlocks(page.infoBlocks);
      MapAll(DecodeGun(rev), blocks).Ok? <==> forall i :: 0 <= i < |blocks| ==> DecodeArmament(rev, blocks[i]).Ok?
    ensures var guns := MapAll(DecodeGun(rev), WeaponBlocks(page.infoBlocks));
      DecodeVehicle(rev, page).Ok? <==>
        VehicleName(rev, page).Ok? && guns.Ok? && WalkTables(rev, GunNames(guns.value), page.tables).Ok?
    ensures DecodeVehicle(rev, page).Ok? ==>
      var blocks := WeaponBlocks(page.infoBlocks);
      var v := DecodeVehicle(rev, page).value;
      |v.guns| == |blocks| && forall i :: 0 <= i < |blocks| ==> v.guns[i] == DecodeArmament(rev, blocks[i]).value
  {
    var blocks := WeaponBlocks(page.infoBlocks);
    MapAllOk(DecodeGun(rev), blocks);
    if DecodeVehicle(rev, page).Ok? {
      forall i | 0 <= i < |blocks|
        ensures |MapAll(DecodeGun(rev), blocks).value| == |blocks|
        ensures MapAll(DecodeGun(rev), blocks).value[i] == DecodeArmament(rev, blocks[i]).value
      {
        MapAllAt(DecodeGun(rev), blocks, i);
      }
    }
  }

  /** A parse is made of its parts. */
  lemma DecodeVehicleParts(rev: Revision, page: Page)
    ensures DecodeVehicle(rev, page).Ok? <==> VehicleName(rev, page).Ok? && Armed(rev, page).Ok?
    ensures DecodeVehicle(rev, page).Ok? ==>
      DecodeVehicle(rev, page).value ==
        Vehicle(VehicleName(rev, page).value, Armed(rev, page).value.0, Armed(rev, page).value.1, Equip(rev, page))
  {
  }

  /** The equipment of a parsed vehicle: an attribute is switched on exactly
      when some modification text names it; the vehicle is amphibious
      exactly when, in the current revision, some trimmed feature text is
      "Amphibious"; the earlier revision never sets `scouting`. */
  lemma EquipmentFlags(rev: Revision, page: Page, k: ModKind)
    ensures Has(Equip(rev, page), k) <==> exists m :: m in page.modifications && ModOf(rev, m) == Some(k)
    ensures Equip(rev, page).isAmphibious ==
      if rev == Current && exists f :: f in page.features && Trim(f) == Amphibious then Some(true) else None
    ensures rev == Earlier ==> Equip(rev, page).scouting == None
  {
    var featured := if rev == Current then FeatureFlags(NoEquipment, page.features) else NoEquipment;
    FeatureFlagsClosed(NoEquipment, page.features);
    ModsHas(rev, featured, page.modifications, k);
    ModsAfterClosed(rev, featured, page.modifications);
    if rev == Earlier {
      EarlierNoScouting(featured, page.modifications);
    }
  }

  /** The feature loop (current revision) and the modification loop on a
      tank that still has the constructor's equipment. */
  method EquipTank(rev: Revision, tank: Tank, page: Page)
    requires tank.Gear() == NoEquipment
    modifies tank`smokes, tank`ess, tank`artillery, tank`dozerBlade, tank`scouting
    modifies tank`nightVision, tank`thermalVision, tank`rangefinder, tank`laserRangefinder
    modifies tank`laserWarningRangefinder, tank`isAmphibious
    ensures tank.Gear() == Equip(rev, page)
  {
    if rev == Current {
      ApplyVehicleFeatures(tank, page.features);
    }
    ApplyModifications(rev, tank, page.modifications);
  }

  /** `parsed_tank.armaments` holds one gun object per entry of `guns`, with
      its name and attributes and the empty default list of rounds. */
  predicate GunsHold(arms: seq<Armament>, guns: seq<(string, WeaponStats)>)
    reads arms
  {
    |arms| == |guns|
    && forall i :: 0 <= i < |arms| ==> (arms[i].name, arms[i].Stats()) == guns[i] && arms[i].ammoTypes == []
  }

  /** `parsed_tank.armaments.append(parse_ground_armaments(armament))` for
      every weapon block, in order. */
  method ParseArmaments(rev: Revision, tank: Tank, blocks: seq<WeaponBlock>) returns (ok: bool)
    requires tank.armaments == []
    modifies tank`armaments
    ensures ok <==> MapAll(DecodeGun(rev), blocks).Ok?
    ensures ok ==> GunsHold(tank.armaments, MapAll(DecodeGun(rev), blocks).value) && Distinct(tank.armaments)
    ensures ok ==> forall i :: 0 <= i < |tank.armaments| ==> fresh(tank.armaments[i])
  {
    ghost var f := DecodeGun(rev);
    ghost var done: seq<(string, WeaponStats)> := [];
    var i := 0;
    assert blocks[0..] == blocks;
    PrependNothing(MapAll(f, blocks));
    while i < |blocks|
      invariant i <= |blocks|
      invariant MapAll(f, blocks) == Prepend(done, MapAll(f, blocks[i..]))
      invariant GunsHold(tank.armaments, done) && Distinct(tank.armaments)
      invariant forall j :: 0 <= j < |tank.armaments| ==> fresh(tank.armaments[j])
    {
      MapAllStep(f, blocks, i);
      var r := ParseArmament(rev, blocks[i]);
      if r.Raised? {
        return false;
      }
      PrependTwice(done, [f(blocks[i]).value], MapAll(f, blocks[i + 1..]));
      AddGun(tank, r.value, done, f(blocks[i]).value);
      done := done + [f(blocks[i]).value];
      i := i + 1;
    }
    assert blocks[i..] == [];
    assert done + [] == done;
    ok := true;
  }

  /** One more gun object at the end of the tank's list. */
  method AddGun(tank: Tank, a: Armament, ghost guns: seq<(string, WeaponStats)>, ghost g: (string, WeaponStats))
    requires GunsHold(tank.armaments, guns) && Distinct(tank.armaments)
    requires a !in tank.armaments && (a.name, a.Stats()) == g && a.ammoTypes == []
    modifies tank`armaments
    ensures tank.armaments == old(tank.armaments) + [a]
    ensures GunsHold(tank.armaments, guns + [g]) && Distinct(tank.armaments)
  {
    DistinctSnoc(tank.armaments, a);
    tank.AddArmament(a);
  }

  /** The round objects the guns hold. */
  function AmmoFrame(arms: seq<Armament>): (r: set<object>)
    reads arms
    ensures forall k, a :: 0 <= k < |arms| && a in arms[k].ammoTypes ==> a in r
  {
    set k, a | 0 <= k < |arms| && a in arms[k].ammoTypes :: a
  }

  /** The gun objects match the decoded guns and the walk: one object per
      gun, with its name and attributes; each holds the rounds the walk left
      it, and guns that hold the same list hold the same list objects. */
  predicate GunsBuilt(arms: seq<Armament>, guns: seq<(string, WeaponStats)>, walk: Walk)
    reads arms, AmmoFrame(arms)
  {
    |arms| == |guns| && Distinct(arms)
    && (forall i :: 0 <= i < |guns| ==> (arms[i].name, arms[i].Stats()) == guns[i])
    && |walk.owner| == |guns|
    && (forall k :: 0 <= k < |guns| ==> Snapshots(arms[k].ammoTypes) == AmmoOf(walk, k))
    && (forall j, k :: 0 <= j < |guns| && 0 <= k < |guns| && walk.owner[j] == walk.owner[k] ==>
          arms[j].ammoTypes == arms[k].ammoTypes)
  }

  /** The gun loop and the table walk on a tank that has no guns yet: one
      gun object per weapon block, with that block's name and attributes,
      and for each gun the rounds the walk left it. */
  method BuildGuns(rev: Revision, page: Page, tank: Tank) returns (ok: bool)
    requires tank.armaments == []
    modifies tank`armaments
    ensures ok <==> Armed(rev, page).Ok?
    ensures ok ==> GunsBuilt(tank.armaments, Armed(rev, page).value.0, Armed(rev, page).value.1)
  {
    var blocks := WeaponBlocks(page.infoBlocks);
    ok := ParseArmaments(rev, tank, blocks);
    if !ok {
      return false;
    }
    ghost var guns := MapAll(DecodeGun(rev), blocks).value;
    ok := ApplyTables(rev, page.tables, tank.armaments, GunNames(guns));
  }

  /** `Tank(name)`, as far as the vehicle parse relies on it. */
  method NewTank(name: string) returns (tank: Tank)
    ensures fresh(tank) && tank.name == name && tank.armaments == []
    ensures tank.Gear() == NoEquipment && tank.Untouched()
  {
    tank := new Tank(name);
  }

  /** The tank object holds the name, the gun objects for `guns` and `walk`,
      the equipment `e`, and the constructor's values everywhere else. */
  predicate Built(tank: Tank, name: string, guns: seq<(string, WeaponStats)>, walk: Walk, e: Equipment)
    reads tank, tank.armaments, AmmoFrame(tank.armaments)
  {
    tank.name == name && GunsBuilt(tank.armaments, guns, walk) && tank.Gear() == e && tank.Untouched()
  }

  /** The gun loop and the table walk on a tank that has no guns yet; the
      name, the equipment `e` and the constructor's values stay. */
  method Assemble(rev: Revision, page: Page, tank: Tank, ghost e: Equipment) returns (ok: bool)
    requires tank.armaments == [] && tank.Gear() == e && tank.Untouched()
    modifies tank`armaments
    ensures ok <==> Armed(rev, page).Ok?
    ensures ok ==> Built(tank, old(tank.name), Armed(rev, page).value.0, Armed(rev, page).value.1, e)
  {
    ok := BuildGuns(rev, page, tank);
  }

  /** `parse_ground_vehicle`. The source builds the tank and then returns
      `None`; here the tank it builds is the result. It is fresh, carries
      the vehicle name, one gun per weapon block with that block's name and
      attributes, for each gun the rounds the walk left it (guns holding the
      same list hold the same list objects), the equipment of the feature
      and modification loops, and the constructor's values everywhere else.
      It raises exactly when the value-level parse does. */
  method ParseGroundVehicle(rev: Revision, page: Page) returns (r: Result<Tank>)
    ensures r.Ok? <==> DecodeVehicle(rev, page).Ok?
    ensures r.Ok? ==> fresh(r.value)
    ensures r.Ok? ==> var v := DecodeVehicle(rev, page).value; Built(r.value, v.name, v.guns, v.walk, v.equipment)
  {
    DecodeVehicleParts(rev, page);
    var name := VehicleName(rev, page);
    if name.Raised? {
      return Raised;
    }
    var tank := NewTank(name.value);
    EquipTank(rev, tank, page);
    var ok := Assemble(rev, page, tank, Equip(rev, page));
    if !ok {
      return Raised;
    }
    r := Ok(tank);
  }
}
